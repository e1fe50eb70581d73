/** Arithmetic shared by both versions of the viewport calculator: the ratios between a
    screen and a canvas, pygame's integer rectangle center, the centering rule, floor and
    ceiling, and the per-axis transforms between screen space and canvas space.
    Scales are exact rationals (`real`); Python's IEEE doubles are not modelled. */
module Viewport {

  /** A point with integer coordinates: Python's `tuple[int, int]`. */
  datatype Point = Point(x: int, y: int)

  /** A point whose coordinates may be fractional (the older canvas keeps such a position). */
  datatype RealPoint = RealPoint(x: real, y: real)

  /** The exceptions the modelled code can raise. */
  datatype Error =
    | DivisionByZero   // a scale of zero reaches the inverse transform
    | ScaleUnassigned  // the older canvas's update_scale reads a local it never assigned

  datatype Result<T> = Success(value: T) | Failure(error: Error)

  datatype Outcome = Pass | Fail(error: Error)

  /** `n` is the largest integer not above `x` (Python's `math.floor`). */
  ghost predicate IsFloorOf(n: int, x: real) {
    n as real <= x < n as real + 1.0
  }

  /** `x` is a whole number. */
  ghost predicate IsWhole(x: real) {
    x == x.Floor as real
  }

  /** Python's `math.ceil`. */
  function Ceil(x: real): (r: int)
    ensures r as real - 1.0 < x <= r as real
  {
    -((-x).Floor)
  }

  /** Python's two-argument `min`: the first argument unless the second is smaller. */
  function Min(a: real, b: real): (r: real)
    ensures r <= a && r <= b && (r == a || r == b)
  {
    if b < a then b else a
  }

  /** Python's two-argument `max`: the first argument unless the second is larger. */
  function Max(a: real, b: real): (r: real)
    ensures r >= a && r >= b && (r == a || r == b)
  {
    if b > a then b else a
  }

  /** The scale that stretches `canvasSize` to exactly `screenSize` (true division). */
  function Ratio(screenSize: int, canvasSize: int): (r: real)
    requires canvasSize > 0
    ensures r * canvasSize as real == screenSize as real
  {
    screenSize as real / canvasSize as real
  }

  /** The center of a rectangle of the given size placed at the origin, as pygame's
      `Rect.center` gives it: the size halved in integer arithmetic. */
  function Center(size: int): (c: int)
    requires size >= 0
    ensures 0 <= c <= size && size - 1 <= 2 * c <= size
  {
    size / 2
  }

  /** The edge at which a canvas, scaled by `scale`, must start so that its center lands on
      the screen's center. */
  function CenteredOrigin(screenSize: nat, canvasSize: nat, scale: real): (o: real)
    ensures o + Center(canvasSize) as real * scale == Center(screenSize) as real
  {
    Center(screenSize) as real - Center(canvasSize) as real * scale
  }

  /** The centering rule of the newer `Screen`: the centered origin, floored to a pixel. */
  function CenteredOffset(screenSize: nat, canvasSize: nat, scale: real): (o: int)
    ensures IsFloorOf(o, CenteredOrigin(screenSize, canvasSize, scale))
  {
    CenteredOrigin(screenSize, canvasSize, scale).Floor
  }

  /** One axis of the newer canvas-to-screen transform: the scaled coordinate, floored. */
  function CanvasToScreenAxis(c: int, scale: real): (r: int)
    ensures IsFloorOf(r, c as real * scale)
  {
    (c as real * scale).Floor
  }

  /** One axis of the screen-to-canvas transform: the offset from the canvas's position
      divided by the scale and floored; with `clamp`, pushed into `[0, canvasSize]` by a
      `max` with 0 followed by a `min` with the canvas size. */
  function ScreenToCanvasAxis(offset: real, scale: real, canvasSize: nat, clamp: bool): (r: int)
    requires scale != 0.0
    ensures !clamp ==> IsFloorOf(r, offset / scale)
    ensures clamp ==> 0 <= r <= canvasSize
    ensures clamp && 0.0 <= offset / scale < canvasSize as real + 1.0 ==> IsFloorOf(r, offset / scale)
    ensures clamp && offset / scale < 0.0 ==> r == 0
    ensures clamp && offset / scale >= canvasSize as real ==> r == canvasSize
  {
    var v := (offset / scale).Floor;
    if clamp then
      var low := if 0 > v then 0 else v;
      if canvasSize < low then canvasSize else low
    else
      v
  }

  /** Multiplying out a floored quotient: for a positive scale, the canvas coordinate that
      the inverse transform returns names the canvas pixel whose scaled cell holds the
      screen offset. */
  lemma PixelCellHoldsOffset(offset: real, scale: real, n: int)
    requires scale > 0.0
    requires IsFloorOf(n, offset / scale)
    ensures n as real * scale <= offset < (n + 1) as real * scale
  {
    var q := offset / scale;
    assert q * scale == offset;
    MultiplyMonotone(n as real, q, scale);
    assert q < (n + 1) as real;
    MultiplyMonotone(q, (n + 1) as real, scale);
    assert offset < (n + 1) as real * scale;
  }

  /** Bounding a numerator between two multiples of a positive divisor bounds the quotient. */
  lemma QuotientBounds(offset: real, scale: real, lo: real, hi: real)
    requires scale > 0.0
    requires lo * scale <= offset < hi * scale
    ensures lo <= offset / scale < hi
  {
    var q := offset / scale;
    assert q * scale == offset;
    MultiplyMonotone(q, lo, scale);
    MultiplyMonotone(hi, q, scale);
  }

  /** The converse of PixelCellHoldsOffset: an offset inside the scaled cell of pixel `n`
      has `n` as the floor of its quotient. */
  lemma FloorOfQuotient(offset: real, scale: real, n: int)
    requires scale > 0.0
    requires n as real * scale <= offset < (n + 1) as real * scale
    ensures IsFloorOf(n, offset / scale)
  {
    QuotientBounds(offset, scale, n as real, (n + 1) as real);
  }

  /** Multiplying by a positive number keeps the order of reals, strict and non-strict. */
  lemma MultiplyMonotone(a: real, b: real, s: real)
    requires s > 0.0
    ensures a <= b ==> a * s <= b * s
    ensures a < b ==> a * s < b * s
  {
    if a < b {
      assert (b - a) * s > 0.0;
    }
  }

  /** With a non-zero whole-number scale and no offset, the inverse transform undoes the
      forward one on every coordinate (and with clamping, on every coordinate inside the
      canvas). */
  lemma AxisRoundTrip(c: int, scale: real, canvasSize: nat, clamp: bool)
    requires scale != 0.0 && IsWhole(scale)
    requires clamp ==> 0 <= c <= canvasSize
    ensures ScreenToCanvasAxis(CanvasToScreenAxis(c, scale) as real, scale, canvasSize, clamp) == c
  {
    var k := scale.Floor;
    assert c as real * scale == (c * k) as real;
    assert CanvasToScreenAxis(c, scale) == c * k;
    assert (c * k) as real / scale == c as real;
  }

  /** The forward transform leaves the canvas's position out while the inverse subtracts
      it, so with an offset `d` on the screen and unit scale the round trip moves every
      coordinate by `-d`. */
  lemma OffsetShiftsRoundTrip(c: int, d: int, canvasSize: nat)
    ensures ScreenToCanvasAxis((CanvasToScreenAxis(c, 1.0) - d) as real, 1.0, canvasSize, false) == c - d
  {
  }

  /** At a whole scale `k`, a canvas position `d` with `-k < d <= 0` is absorbed by the
      floor: with the position subtracted, the round trip still returns every coordinate. */
  lemma OffsetAbsorbedByWholeScale(c: int, k: int, d: int, canvasSize: nat)
    requires k > 0 && -k < d <= 0
    ensures ScreenToCanvasAxis((CanvasToScreenAxis(c, k as real) - d) as real, k as real, canvasSize, false) == c
  {
    assert c as real * k as real == (c * k) as real;
    assert CanvasToScreenAxis(c, k as real) == c * k;
    var offset := (c * k - d) as real;
    assert (c + 1) as real * k as real == (c * k + k) as real;
    FloorOfQuotient(offset, k as real, c);
  }
}
