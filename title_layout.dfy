/** Where the page title goes for a given window width (`updateTitlePosition`
    in src/app/page.tsx), and the horizontal shift the title is then drawn
    with.

    The rule measures the title block against the dates column of the
    project list. The title is pushed right when the push needed to clear the
    column fits on screen and there is room for the popups; otherwise it moves
    to the top. Worked through, the collision test always holds and the push
    it needs is the constant 424 pixels, so the rule reduces to one threshold
    at a width of 1408 pixels and the centred placement is never chosen.
    Widths are integers (`window.innerWidth`); the layout arithmetic is over
    the reals.
 */
module TitleLayout {
  import opened Numeric

  datatype TitlePosition = Center | Right | Top

  datatype Placement = Placement(position: TitlePosition, offset: real)

  /** Below this width the layout is the mobile one. */
  const MobileBreakpoint: int := 768

  /** Right edge of the dates column: half the window plus a 60 pixel date
      and 64 pixels of padding. */
  function DatesColumnEnd(width: int): real {
    width as real / 2.0 + 60.0 + 64.0
  }

  /** Title width assumed by the layout. */
  const TitleWidth: real := 400.0

  function TitleLeftEdge(width: int): real {
    width as real / 2.0 - TitleWidth / 2.0
  }

  function TitleRightEdge(width: int): real {
    width as real / 2.0 + TitleWidth / 2.0
  }

  /** Room the popups need beside the list. */
  const PopupSpaceNeeded: real := 320.0

  function AvailablePopupSpace(width: int): real {
    width as real - (DatesColumnEnd(width) + 150.0)
  }

  /** The decision `updateTitlePosition` makes for a window `width` pixels
      wide, branch by branch as the page writes it. */
  function Place(width: int): (p: Placement)
    ensures p.position != Center
    ensures p == if width < 1408 then Placement(Top, 0.0) else Placement(Right, 254.4)
  {
    if width < MobileBreakpoint then
      Placement(Top, 0.0)
    else
      var clearance := DatesColumnEnd(width) + 100.0;
      if TitleLeftEdge(width) < clearance then
        var maxSafePush := Max(0.0, width as real - TitleRightEdge(width) - 80.0);
        var requiredPush := Min(clearance - TitleLeftEdge(width), maxSafePush);
        if requiredPush < clearance - TitleLeftEdge(width)
           || AvailablePopupSpace(width) < PopupSpaceNeeded
        then
          Placement(Top, 0.0)
        else
          Placement(Right, requiredPush * 0.6)
      else if AvailablePopupSpace(width) < PopupSpaceNeeded then
        Placement(Top, 0.0)
      else
        Placement(Center, 0.0)
  }

  /** The collision test of the wide layout holds at every width: the title's
      left edge is always 424 pixels short of clearing the dates column. */
  lemma CollisionAlways(width: int)
    ensures DatesColumnEnd(width) + 100.0 - TitleLeftEdge(width) == 424.0
    ensures TitleLeftEdge(width) < DatesColumnEnd(width) + 100.0
  {
  }

  /** The horizontal shift the title is drawn with: `-50%` alone for the
      top and centre placements, and for the right placement an extra
      `min(titleOffset, windowWidth / 4)` pixels. */
  function TitleShift(p: Placement, windowWidth: int): (shift: real)
    ensures p.position == Right ==> shift <= p.offset && shift <= windowWidth as real / 4.0
    ensures p.position == Right ==> shift == p.offset || shift == windowWidth as real / 4.0
    ensures p.position != Right ==> shift == 0.0
  {
    match p.position
    case Right => Min(p.offset, windowWidth as real / 4.0)
    case _ => 0.0
  }

  /** The cap of a quarter of the window never bites: whenever the rule picks
      the right placement its offset of 254.4 is below a quarter of a window
      at least 1408 pixels wide. */
  lemma ShiftNeverCapped(width: int)
    ensures TitleShift(Place(width), width) == Place(width).offset
  {
  }

  /** The title state of the page: the three values `updateTitlePosition`
      sets on every resize. */
  class TitleState {
    var windowWidth: int
    var titlePosition: TitlePosition
    var titleOffset: real

    /** The initial `useState` values: width 0, centred, no offset. */
    constructor ()
      ensures windowWidth == 0 && titlePosition == Center && titleOffset == 0.0
    {
      windowWidth := 0;
      titlePosition := Center;
      titleOffset := 0.0;
    }

    /** The placement the state describes. */
    function Current(): Placement
      reads this
    {
      Placement(titlePosition, titleOffset)
    }

    /** `updateTitlePosition` for a window `width` pixels wide. */
    method Update(width: int)
      modifies this
      ensures windowWidth == width && Current() == Place(width)
      ensures titlePosition != Center
      ensures TitleShift(Current(), windowWidth) == titleOffset
    {
      windowWidth := width;
      var p := Place(width);
      titlePosition := p.position;
      titleOffset := p.offset;
      ShiftNeverCapped(width);
    }
  }
}
