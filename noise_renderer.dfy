/** One frame of the ambient background and the component state around it
    (`animate`, `resizeCanvas` and the theme-keyed effect in
    src/components/NoiseBackground.tsx).

    The noise field is the function `noise` from a point of the plane to a
    real; it is a parameter of everything here, chosen once per effect run.
    A frame is computed from the noise field, the theme, the canvas size and
    the elapsed time alone. */
module NoiseRenderer {
  import opened Wrappers
  import opened NoiseColors

  type Noise = (real, real) -> real

  /** The noise field takes values in `[-1, 1]` everywhere. */
  ghost predicate UnitRange(noise: Noise) {
    forall x: real, y: real :: -1.0 <= noise(x, y) <= 1.0
  }

  /** Elapsed-time units per millisecond of the frame clock. */
  const TimeRate: real := 0.00008

  /** Spatial scale of the noise samples. */
  const NoiseScale: real := 0.003

  // The frame clock.

  /** `if (!startTimeRef.current) startTimeRef.current = currentTime`: the
      start time is taken from the first frame while it is still 0. */
  function Latch(start: real, currentTime: real): real
  {
    if start == 0.0 then currentTime else start
  }

  function Elapsed(start: real, currentTime: real): (e: real)
    ensures start <= currentTime ==> e >= 0.0
    ensures start == currentTime ==> e == 0.0
  {
    (currentTime - start) * TimeRate
  }

  /** The start time after frames at the timestamps `ts`. */
  function StartAfter(start: real, ts: seq<real>): real
    decreases |ts|
  {
    if ts == [] then start else StartAfter(Latch(start, ts[0]), ts[1..])
  }

  /** The elapsed time each of the frames at `ts` computes. */
  function ElapsedTrace(start: real, ts: seq<real>): (es: seq<real>)
    ensures |es| == |ts|
    decreases |ts|
  {
    if ts == [] then []
    else
      var s := Latch(start, ts[0]);
      [Elapsed(s, ts[0])] + ElapsedTrace(s, ts[1..])
  }

  /** The first nonzero timestamp, or 0 when there is none. */
  function FirstNonzero(ts: seq<real>): real
  {
    if ts == [] then 0.0 else if ts[0] != 0.0 then ts[0] else FirstNonzero(ts[1..])
  }

  predicate NonDecreasing(ts: seq<real>) {
    forall i, j :: 0 <= i < j < |ts| ==> ts[i] <= ts[j]
  }

  /** Once latched, the start time is never overwritten. */
  lemma {:induction false} LatchedStartKept(start: real, ts: seq<real>)
    requires start != 0.0
    ensures StartAfter(start, ts) == start
    decreases |ts|
  {
    if ts != [] {
      LatchedStartKept(Latch(start, ts[0]), ts[1..]);
    }
  }

  /** From a fresh clock the start time ends up as the first nonzero
      timestamp. */
  lemma {:induction false} StartIsFirstNonzero(ts: seq<real>)
    ensures StartAfter(0.0, ts) == FirstNonzero(ts)
  {
    if ts != [] {
      if ts[0] == 0.0 {
        StartIsFirstNonzero(ts[1..]);
      } else {
        LatchedStartKept(ts[0], ts[1..]);
      }
    }
  }

  /** With non-decreasing timestamps no frame sees a negative elapsed time,
      provided the clock is fresh or started no later than the first
      timestamp. */
  lemma {:induction false} ElapsedNonNegative(start: real, ts: seq<real>)
    requires NonDecreasing(ts)
    requires ts != [] ==> start == 0.0 || start <= ts[0]
    ensures forall k :: 0 <= k < |ts| ==> ElapsedTrace(start, ts)[k] >= 0.0
    decreases |ts|
  {
    if ts != [] {
      var s := Latch(start, ts[0]);
      assert s <= ts[0] || s == 0.0;
      ElapsedNonNegative(s, ts[1..]);
      forall k | 0 <= k < |ts| ensures ElapsedTrace(start, ts)[k] >= 0.0 {
        if k > 0 {
          assert ElapsedTrace(start, ts)[k] == ElapsedTrace(s, ts[1..])[k - 1];
        }
      }
    }
  }

  // The gradient stops of one frame.

  datatype ColorStop = ColorStop(position: real, color: Rgb)

  /** Position of stop `i`. */
  function StopPosition(i: int): real {
    i as real / 10.0
  }

  /** The colour of stop `i` on a `width` by `height` canvas at time
      `elapsed`: two noise samples at the stop's scaled position, the second
      offset by (100, 50). */
  function StopColorAt(noise: Noise, theme: Theme, i: int, width: nat, height: nat, elapsed: real): (c: Rgb)
    ensures InBand(theme, c)
  {
    var position := StopPosition(i);
    var x := position * width as real * NoiseScale;
    var y := position * height as real * NoiseScale;
    StopColor(theme, noise(x, y + elapsed), noise(x + 100.0, y + elapsed + 50.0))
  }

  /** The eleven stops of the base gradient. */
  function Stops(noise: Noise, theme: Theme, width: nat, height: nat, elapsed: real): seq<ColorStop>
  {
    seq(11, i => ColorStop(StopPosition(i), StopColorAt(noise, theme, i, width, height, elapsed)))
  }

  /** Positions strictly increase from 0 to 1. */
  predicate Ordered(stops: seq<ColorStop>) {
    && |stops| > 0
    && stops[0].position == 0.0
    && stops[|stops| - 1].position == 1.0
    && forall i, j :: 0 <= i < j < |stops| ==> stops[i].position < stops[j].position
  }

  /** The stop loop of `animate`: `for (i = 0; i <= 10; i++)` adds one stop
      per step. */
  method BuildStops(noise: Noise, theme: Theme, width: nat, height: nat, elapsed: real)
    returns (stops: seq<ColorStop>)
    ensures stops == Stops(noise, theme, width, height, elapsed)
    ensures |stops| == 11 && Ordered(stops)
    ensures forall k :: 0 <= k < |stops| ==> stops[k].position == k as real / 10.0 && InBand(theme, stops[k].color)
  {
    stops := [];
    var i := 0;
    while i <= 10
      invariant 0 <= i <= 11 && |stops| == i
      invariant forall k :: 0 <= k < i ==>
        stops[k] == ColorStop(StopPosition(k), StopColorAt(noise, theme, k, width, height, elapsed))
    {
      var position := StopPosition(i);
      stops := stops + [ColorStop(position, StopColorAt(noise, theme, i, width, height, elapsed))];
      i := i + 1;
    }
  }

  // A whole frame.

  datatype LinearGradient = LinearGradient(x0: real, y0: real, x1: real, y1: real, stops: seq<ColorStop>)

  /** What one call of `animate` paints: the base gradient across the canvas
      diagonal, then the radial overlay. */
  datatype Frame = Frame(
    width: nat, height: nat,
    base: LinearGradient,
    overlay: RadialGradient, overlayStops: seq<OverlayStop>)

  /** The frame for a noise field, theme, canvas size and elapsed time. */
  function FrameAt(noise: Noise, theme: Theme, width: nat, height: nat, elapsed: real): (f: Frame)
    ensures f.width == width && f.height == height
    ensures |f.base.stops| == 11 && Ordered(f.base.stops)
  {
    var stops := Stops(noise, theme, width, height, elapsed);
    assert forall k :: 0 <= k < 11 ==> stops[k].position == k as real / 10.0;
    Frame(
      width, height,
      LinearGradient(0.0, 0.0, width as real, height as real, stops),
      OverlayGeometry(width, height, noise(elapsed * 0.5, 0.0), noise(0.0, elapsed * 0.7)),
      OverlayStops(theme, OverlayOpacity(noise(elapsed * 0.3, elapsed * 0.4))))
  }

  /** With a noise field in `[-1, 1]` every colour of a frame is in its
      theme's band and the overlay's alpha never rises from the centre
      outwards, from at most 0.105 down to 0. */
  lemma FrameInBand(noise: Noise, theme: Theme, width: nat, height: nat, elapsed: real)
    requires UnitRange(noise)
    ensures var f := FrameAt(noise, theme, width, height, elapsed);
      (forall k :: 0 <= k < |f.base.stops| ==> InBand(theme, f.base.stops[k].color))
      && 0.0 <= f.overlayStops[2].color.a <= f.overlayStops[1].color.a <= f.overlayStops[0].color.a <= 0.105
  {
    var n := noise(elapsed * 0.3, elapsed * 0.4);
    OverlayFadesOut(theme, n);
  }

  /** The component's state: the refs and the canvas size, and what the
      current run of the theme-keyed effect captured. */
  class NoiseBackground {
    /** `startTimeRef.current`; it outlives runs of the effect. */
    var startTime: real
    /** `animationRef.current`: the handle of the last requested frame. */
    var animationHandle: int
    /** Whether an effect run is set up (canvas and 2D context found). */
    var active: bool
    /** The noise field and theme the current effect run captured. */
    var noise: Noise
    var theme: Theme
    /** `canvas.width` and `canvas.height`. */
    var canvasWidth: nat
    var canvasHeight: nat

    /** A mounted component before its effect runs: both refs hold 0. */
    constructor (noise0: Noise)
      ensures startTime == 0.0 && animationHandle == 0 && !active
    {
      startTime := 0.0;
      animationHandle := 0;
      active := false;
      noise := noise0;
      theme := Light;
      canvasWidth := 300;
      canvasHeight := 150;
    }

    /** `resizeCanvas`: the canvas takes the window's size. */
    method Resize(innerWidth: nat, innerHeight: nat)
      requires active
      modifies this
      ensures canvasWidth == innerWidth && canvasHeight == innerHeight
      ensures startTime == old(startTime) && animationHandle == old(animationHandle)
      ensures active == old(active) && noise == old(noise) && theme == old(theme)
    {
      canvasWidth := innerWidth;
      canvasHeight := innerHeight;
    }

    /** One run of the effect for `resolvedTheme`. Without a canvas or a 2D
        context it returns at once; otherwise it takes the fresh noise field
        and the theme, sizes the canvas and requests the first frame, whose
        handle is `handle`. The start time is left alone. */
    method Setup(resolvedTheme: Option<string>, surfaceAvailable: bool, freshNoise: Noise,
                 innerWidth: nat, innerHeight: nat, handle: int)
      modifies this
      ensures startTime == old(startTime)
      ensures !surfaceAvailable ==>
        active == old(active) && animationHandle == old(animationHandle)
        && noise == old(noise) && theme == old(theme)
        && canvasWidth == old(canvasWidth) && canvasHeight == old(canvasHeight)
      ensures surfaceAvailable ==>
        active && noise == freshNoise && theme == ThemeOf(resolvedTheme)
        && canvasWidth == innerWidth && canvasHeight == innerHeight
        && animationHandle == handle
    {
      if surfaceAvailable {
        noise := freshNoise;
        theme := ThemeOf(resolvedTheme);
        active := true;
        Resize(innerWidth, innerHeight);
        animationHandle := handle;
      }
    }

    /** `animate(currentTime)`: latches the start time, paints the frame for
        the elapsed time and requests the next frame, whose handle is
        `nextHandle`. */
    method Animate(currentTime: real, nextHandle: int) returns (frame: Frame)
      requires active
      modifies this
      ensures startTime == Latch(old(startTime), currentTime)
      ensures old(startTime) != 0.0 ==> startTime == old(startTime)
      ensures frame == FrameAt(noise, theme, canvasWidth, canvasHeight, Elapsed(startTime, currentTime))
      ensures animationHandle == nextHandle
      ensures active && noise == old(noise) && theme == old(theme)
      ensures canvasWidth == old(canvasWidth) && canvasHeight == old(canvasHeight)
    {
      if startTime == 0.0 {
        startTime := currentTime;
      }
      var elapsed := (currentTime - startTime) * TimeRate;
      var width, height := canvasWidth, canvasHeight;
      var stops := BuildStops(noise, theme, width, height, elapsed);
      var overlay := OverlayGeometry(width, height, noise(elapsed * 0.5, 0.0), noise(0.0, elapsed * 0.7));
      var overlayStops := OverlayStops(theme, OverlayOpacity(noise(elapsed * 0.3, elapsed * 0.4)));
      frame := Frame(width, height, LinearGradient(0.0, 0.0, width as real, height as real, stops),
                     overlay, overlayStops);
      assert elapsed == Elapsed(startTime, currentTime);
      assert frame == FrameAt(noise, theme, width, height, elapsed);
      animationHandle := nextHandle;
      assert frame == FrameAt(noise, theme, canvasWidth, canvasHeight, Elapsed(startTime, currentTime));
    }

    /** The effect's cleanup: the resize listener goes, and the pending frame
        is cancelled when the handle is nonzero; the result is the handle
        cancelled, if any. A run that returned early has no cleanup, so then
        nothing is cancelled. */
    method Teardown() returns (cancelled: Option<int>)
      modifies this
      ensures cancelled == if old(active) && old(animationHandle) != 0 then Some(old(animationHandle)) else None
      ensures !active
      ensures startTime == old(startTime) && animationHandle == old(animationHandle)
      ensures noise == old(noise) && theme == old(theme)
      ensures canvasWidth == old(canvasWidth) && canvasHeight == old(canvasHeight)
    {
      cancelled := if active && animationHandle != 0 then Some(animationHandle) else None;
      active := false;
    }

    /** A change of theme: React runs the old effect's cleanup and then the
        effect again. The clock is not reset. */
    method ChangeTheme(resolvedTheme: Option<string>, surfaceAvailable: bool, freshNoise: Noise,
                       innerWidth: nat, innerHeight: nat, handle: int) returns (cancelled: Option<int>)
      modifies this
      ensures startTime == old(startTime)
      ensures cancelled == if old(active) && old(animationHandle) != 0 then Some(old(animationHandle)) else None
      ensures surfaceAvailable ==>
        active && theme == ThemeOf(resolvedTheme) && noise == freshNoise
        && canvasWidth == innerWidth && canvasHeight == innerHeight
        && animationHandle == handle
      ensures !surfaceAvailable ==>
        !active && noise == old(noise) && theme == old(theme)
        && canvasWidth == old(canvasWidth) && canvasHeight == old(canvasHeight)
        && animationHandle == old(animationHandle)
    {
      cancelled := Teardown();
      Setup(resolvedTheme, surfaceAvailable, freshNoise, innerWidth, innerHeight, handle);
    }
  }
}
