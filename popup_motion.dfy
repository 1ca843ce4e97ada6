/** How far the hover popup drifts with the pointer (`popupX` and `popupY`
    in src/app/page.tsx). The popup sits centred on the hovered element
    (`-50%`) and moves by the pointer's distance from the element's centre,
    as a fraction of the element's size, times a travel constant: 135 pixels
    across and 45 pixels down. */
module PopupMotion {
  import opened Wrappers

  /** The measured box of the hovered element (`getBoundingClientRect`). */
  datatype Rect = Rect(left: real, top: real, width: real, height: real)

  /** The translation the popup is given. */
  datatype Translate =
    | Centred          // `-50%`: no hovered element is known
    | Moved(px: real)  // `calc(-50% + px)`
    | NotFinite        // the element has zero size: the division gives NaN or an infinity

  const TravelX: real := 135.0
  const TravelY: real := 45.0

  /** The move along one axis for a pointer at `value` over an element that
      starts at `start` and is `size` long. */
  function Move(value: real, start: real, size: real, travel: real): (t: Translate)
    ensures t.NotFinite? <==> size == 0.0
    ensures size != 0.0 && value == start + size / 2.0 ==> t == Moved(0.0)
    ensures size > 0.0 && travel >= 0.0 && start <= value <= start + size
            ==> t.Moved? && -travel / 2.0 <= t.px <= travel / 2.0
  {
    if size == 0.0 then NotFinite
    else
      var f := (value - start - size / 2.0) / size;
      FractionBound(value, start, size, travel);
      Moved(f * travel)
  }

  /** Over the element, the fraction of the travel that `Move` applies stays
      within half of the travel either way. */
  lemma FractionBound(value: real, start: real, size: real, travel: real)
    requires size != 0.0
    ensures size > 0.0 && travel >= 0.0 && start <= value <= start + size
            ==> -travel / 2.0 <= (value - start - size / 2.0) / size * travel <= travel / 2.0
  {
    if size > 0.0 && travel >= 0.0 && start <= value <= start + size {
      HalfBound(value - start - size / 2.0, size);
      ScaleBound((value - start - size / 2.0) / size, travel);
    }
  }

  /** A quantity within half of a positive `b` either way, divided by `b`,
      lies within `[-0.5, 0.5]`. */
  lemma HalfBound(a: real, b: real)
    requires b > 0.0 && -b / 2.0 <= a <= b / 2.0
    ensures -0.5 <= a / b <= 0.5
  {
    var q := a / b;
    assert a == q * b;
  }

  /** Scaling a fraction within `[-0.5, 0.5]` by a non-negative `travel`
      stays within half of `travel` either way. */
  lemma ScaleBound(f: real, travel: real)
    requires travel >= 0.0 && -0.5 <= f <= 0.5
    ensures -travel / 2.0 <= f * travel <= travel / 2.0
  {
    assert -0.5 * travel <= f * travel <= 0.5 * travel;
  }

  /** `popupX` for the pointer's horizontal position. */
  function PopupX(mouseX: real, hovered: Option<Rect>): (t: Translate)
    ensures hovered.None? <==> t.Centred?
  {
    match hovered
    case None => Centred
    case Some(rect) => Move(mouseX, rect.left, rect.width, TravelX)
  }

  /** `popupY` for the pointer's vertical position. */
  function PopupY(mouseY: real, hovered: Option<Rect>): (t: Translate)
    ensures hovered.None? <==> t.Centred?
  {
    match hovered
    case None => Centred
    case Some(rect) => Move(mouseY, rect.top, rect.height, TravelY)
  }

  /** The move is linear in the pointer position: the difference of two moves
      is the pointer's displacement scaled by `travel / size`. */
  lemma MoveLinear(v1: real, v2: real, start: real, size: real, travel: real)
    requires size != 0.0
    ensures Move(v1, start, size, travel).px - Move(v2, start, size, travel).px
            == (v1 - v2) / size * travel
  {
  }

  /** While the pointer is over the element (positive size), the sign of the
      move follows the side of the centre the pointer is on. */
  lemma MoveSign(value: real, start: real, size: real, travel: real)
    requires size > 0.0 && travel >= 0.0
    ensures var m := Move(value, start, size, travel).px;
      (value < start + size / 2.0 ==> m <= 0.0)
      && (value > start + size / 2.0 ==> m >= 0.0)
  {
    var d := value - start - size / 2.0;
    var f := d / size;
    assert d == f * size;
    if d < 0.0 {
      assert f < 0.0;
    } else if d > 0.0 {
      assert f > 0.0;
    }
    assert Move(value, start, size, travel).px == f * travel;
  }

  /** Horizontally the popup drifts at most 67.5 pixels from its centred
      place while the pointer is over the element. */
  lemma PopupXBounded(mouseX: real, rect: Rect)
    requires rect.width > 0.0 && rect.left <= mouseX <= rect.left + rect.width
    ensures PopupX(mouseX, Some(rect)).Moved?
    ensures -67.5 <= PopupX(mouseX, Some(rect)).px <= 67.5
  {
  }

  /** Vertically the popup drifts at most 22.5 pixels. */
  lemma PopupYBounded(mouseY: real, rect: Rect)
    requires rect.height > 0.0 && rect.top <= mouseY <= rect.top + rect.height
    ensures PopupY(mouseY, Some(rect)).Moved?
    ensures -22.5 <= PopupY(mouseY, Some(rect)).px <= 22.5
  {
  }
}
