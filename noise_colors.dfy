/** The colour arithmetic of the ambient background (src/components/
    NoiseBackground.tsx): how two noise samples become the colour of one
    gradient stop, the opacity, stops and geometry of the radial overlay, and
    the solid fallback colour of the canvas. Every function here is total over
    the reals: the noise values are arbitrary real inputs. */
module NoiseColors {
  import opened Numeric
  import opened Wrappers

  datatype Theme = Light | Dark

  /** `resolvedTheme === "dark"`: any other theme name, or none, is light. */
  function ThemeOf(resolvedTheme: Option<string>): Theme
  {
    if resolvedTheme == Some("dark") then Dark else Light
  }

  datatype Rgb = Rgb(r: int, g: int, b: int)

  /** `Math.max(lo, Math.min(hi, v))`. */
  function Clamp(lo: real, hi: real, v: real): (c: real)
    ensures lo <= hi ==> lo <= c <= hi
    ensures lo <= v <= hi ==> c == v
    ensures v < lo ==> c == lo
    ensures lo <= hi < v ==> c == hi
  {
    Max(lo, Min(hi, v))
  }

  /** `Math.floor(Math.max(lo, Math.min(hi, v)))` for integer bounds: an
      integer channel value within the band. */
  function Channel(lo: int, hi: int, v: real): (c: int)
    requires lo <= hi
    ensures lo <= c <= hi
    ensures lo as real <= v <= hi as real ==> c == v.Floor
  {
    Clamp(lo as real, hi as real, v).Floor
  }

  /** The bands the stop colours of each theme lie in. */
  predicate InBand(theme: Theme, c: Rgb) {
    match theme
    case Light => 240 <= c.r <= 255 && 240 <= c.g <= 255 && 245 <= c.b <= 255
    case Dark => 12 <= c.r <= 28 && 12 <= c.g <= 28 && 18 <= c.b <= 38
  }

  /** The colour of one gradient stop from its two noise samples `n1` and
      `n2`: a theme-specific affine map of each, clamped and floored. */
  function StopColor(theme: Theme, n1: real, n2: real): (c: Rgb)
    ensures InBand(theme, c)
  {
    match theme
    case Dark =>
      var base := 18.0 + n1 * 6.0;
      var base2 := 18.0 + n2 * 4.0;
      Rgb(Channel(12, 28, base), Channel(12, 28, base2), Channel(18, 38, base + 8.0 + n2 * 4.0))
    case Light =>
      var baseGray := 248.0 + n1 * 8.0;
      var baseGray2 := 249.0 + n2 * 6.0;
      Rgb(Channel(240, 255, baseGray), Channel(240, 255, baseGray2), Channel(245, 255, baseGray + 2.0))
  }

  /** Noise in `[-1, 1]` keeps the dark colours inside the narrower ranges
      the source notes beside them (red 12 to 24, green 14 to 22) and blue
      within 18 to 36; the light green stays within 243 to 255. */
  lemma StopColorForUnitNoise(theme: Theme, n1: real, n2: real)
    requires -1.0 <= n1 <= 1.0 && -1.0 <= n2 <= 1.0
    ensures var c := StopColor(theme, n1, n2);
      match theme
      case Dark => 12 <= c.r <= 24 && 14 <= c.g <= 22 && 18 <= c.b <= 36
      case Light => 240 <= c.r <= 255 && 243 <= c.g <= 255 && 245 <= c.b <= 255
  {
    match theme
    case Dark =>
      var base := 18.0 + n1 * 6.0;
      var base2 := 18.0 + n2 * 4.0;
      assert 12.0 <= base <= 24.0 && 14.0 <= base2 <= 22.0;
      assert 16.0 <= base + 8.0 + n2 * 4.0 <= 36.0;
      assert Channel(12, 28, base) == base.Floor;
      assert Channel(12, 28, base2) == base2.Floor;
    case Light =>
      var baseGray2 := 249.0 + n2 * 6.0;
      assert 243.0 <= baseGray2 <= 255.0;
      assert Channel(240, 255, baseGray2) == baseGray2.Floor;
  }

  /** The canvas's solid background before the first frame paints. */
  function FallbackColor(theme: Theme): (c: Rgb)
    ensures InBand(theme, c)
    ensures theme == Light ==> c == StopColor(Light, 0.0, 0.0)
    ensures theme == Dark ==> c.r == StopColor(Dark, 0.0, 0.0).r && c.g == StopColor(Dark, 0.0, 0.0).g
    ensures theme == Dark ==> c.b < StopColor(Dark, 0.0, 0.0).b
  {
    match theme
    case Dark => Rgb(18, 18, 22)
    case Light => Rgb(248, 249, 250)
  }

  /** The opacity of the overlay from one noise sample `n`. */
  function OverlayOpacity(n: real): (o: real)
    ensures -1.0 <= n <= 1.0 ==> 0.03 <= o <= 0.07
    ensures n == -1.0 ==> o == 0.03
    ensures n == 1.0 ==> o == 0.07
  {
    0.03 + (n + 1.0) * 0.02
  }

  datatype Rgba = Rgba(r: int, g: int, b: int, a: real)

  datatype OverlayStop = OverlayStop(offset: real, color: Rgba)

  /** The three stops of the overlay: a tinted centre, a middle stop and a
      transparent rim. */
  function OverlayStops(theme: Theme, opacity: real): (stops: seq<OverlayStop>)
    ensures |stops| == 3
    ensures stops[0].offset == 0.0 && stops[1].offset == 0.5 && stops[2].offset == 1.0
    ensures stops[2].color.a == 0.0
    ensures theme == Dark ==> stops[0].color.a == 1.5 * opacity
    ensures theme == Light ==> stops[0].color.a == opacity
  {
    match theme
    case Dark =>
      [ OverlayStop(0.0, Rgba(60, 50, 80, opacity * 1.5)),
        OverlayStop(0.5, Rgba(40, 35, 60, opacity)),
        OverlayStop(1.0, Rgba(20, 20, 30, 0.0)) ]
    case Light =>
      [ OverlayStop(0.0, Rgba(250, 251, 252, opacity)),
        OverlayStop(0.5, Rgba(248, 249, 250, opacity * 0.7)),
        OverlayStop(1.0, Rgba(246, 247, 248, 0.0)) ]
  }

  /** For noise in `[-1, 1]` the overlay fades outward: every alpha is a
      valid one, at most 0.105, and no stop is more opaque than the one
      inside it. */
  lemma OverlayFadesOut(theme: Theme, n: real)
    requires -1.0 <= n <= 1.0
    ensures var stops := OverlayStops(theme, OverlayOpacity(n));
      (forall k :: 0 <= k < 3 ==> 0.0 <= stops[k].color.a <= 0.105)
      && stops[0].color.a >= stops[1].color.a >= stops[2].color.a
  {
    var o := OverlayOpacity(n);
    var stops := OverlayStops(theme, o);
    assert 0.03 <= o <= 0.07;
    assert 0.0 <= stops[0].color.a <= 0.105 && 0.0 <= stops[1].color.a <= 0.07;
  }

  /** The two circles of the radial overlay: the inner one at `(x0, y0)` with
      radius `r0`, the outer one at `(x1, y1)` with radius `r1`. */
  datatype RadialGradient = RadialGradient(x0: real, y0: real, r0: real, x1: real, y1: real, r1: real)

  /** The overlay for a `width` by `height` canvas; `jitterX` and `jitterY`
      are the two noise samples that move the inner centre. */
  function OverlayGeometry(width: nat, height: nat, jitterX: real, jitterY: real): (g: RadialGradient)
    ensures g.r0 == 0.0 <= g.r1
    ensures g.r1 >= 0.8 * width as real && g.r1 >= 0.8 * height as real
    ensures g.r1 == 0.8 * width as real || g.r1 == 0.8 * height as real
    ensures g.x1 == 0.6 * width as real && g.y1 == 0.6 * height as real
  {
    RadialGradient(
      width as real * 0.3 + jitterX * 100.0,
      height as real * 0.4 + jitterY * 80.0,
      0.0,
      width as real * 0.6,
      height as real * 0.6,
      Max(width as real, height as real) * 0.8)
  }

  /** With noise in `[-1, 1]` the inner centre stays within 100 pixels
      across and 80 pixels down of the point at 30% and 40% of the canvas. */
  lemma OverlayCentreNear(width: nat, height: nat, jitterX: real, jitterY: real)
    requires -1.0 <= jitterX <= 1.0 && -1.0 <= jitterY <= 1.0
    ensures var g := OverlayGeometry(width, height, jitterX, jitterY);
      -100.0 <= g.x0 - 0.3 * width as real <= 100.0
      && -80.0 <= g.y0 - 0.4 * height as real <= 80.0
  {
  }
}
