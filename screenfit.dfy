/** The scale rules of the newer `Screen` fit variants that pick one scale for both axes
    (named after CSS `object-fit`), and what they promise about the scaled canvas. */
module ScreenFit {
  import opened Viewport

  /** `ScreenContain`'s scale: the smaller of the two ratios, at least 1, and floored to a
      whole number under integer scaling. */
  function ContainScale(ratioX: real, ratioY: real, integerScaling: bool): (s: real)
    ensures s >= 1.0
    ensures integerScaling ==> IsWhole(s)
  {
    var fitted := Max(Min(ratioX, ratioY), 1.0);
    if integerScaling then fitted.Floor as real else fitted
  }

  /** `ScreenCover`'s scale: the larger of the two ratios, at least 1, and ceiled to a whole
      number under integer scaling. */
  function CoverScale(ratioX: real, ratioY: real, integerScaling: bool): (s: real)
    ensures s >= 1.0
    ensures integerScaling ==> IsWhole(s)
  {
    var fitted := Max(Max(ratioX, ratioY), 1.0);
    if integerScaling then Ceil(fitted) as real else fitted
  }

  /** A scale fits an axis exactly when it does not exceed that axis's ratio, and covers
      it exactly when it is not below it. */
  lemma RatioBounds(t: real, screenSize: int, canvasSize: int)
    requires canvasSize > 0
    ensures t * canvasSize as real <= screenSize as real <==> t <= Ratio(screenSize, canvasSize)
    ensures t * canvasSize as real >= screenSize as real <==> t >= Ratio(screenSize, canvasSize)
  {
    var r := Ratio(screenSize, canvasSize);
    MultiplyMonotone(t, r, canvasSize as real);
    MultiplyMonotone(r, t, canvasSize as real);
  }

  /** When the screen is at least as large as the canvas on both axes, the contained canvas
      fits inside the screen; without integer scaling it touches the screen's edges on at
      least one axis. */
  lemma ContainFitsInside(screenWidth: nat, screenHeight: nat, canvasWidth: int, canvasHeight: int, integerScaling: bool)
    requires canvasWidth > 0 && canvasHeight > 0
    requires screenWidth >= canvasWidth && screenHeight >= canvasHeight
    ensures var s := ContainScale(Ratio(screenWidth, canvasWidth), Ratio(screenHeight, canvasHeight), integerScaling);
      s * canvasWidth as real <= screenWidth as real && s * canvasHeight as real <= screenHeight as real
    ensures var s := ContainScale(Ratio(screenWidth, canvasWidth), Ratio(screenHeight, canvasHeight), integerScaling);
      !integerScaling ==> s * canvasWidth as real == screenWidth as real || s * canvasHeight as real == screenHeight as real
  {
    var rx, ry := Ratio(screenWidth, canvasWidth), Ratio(screenHeight, canvasHeight);
    var s := ContainScale(rx, ry, integerScaling);
    RatioBounds(1.0, screenWidth, canvasWidth);
    RatioBounds(1.0, screenHeight, canvasHeight);
    assert s <= Min(rx, ry);
    RatioBounds(s, screenWidth, canvasWidth);
    RatioBounds(s, screenHeight, canvasHeight);
  }

  /** The contained scale is the largest that fits: every scale that keeps the canvas within
      the screen on both axes, and is whole under integer scaling, is at most it. */
  lemma ContainIsLargestFit(screenWidth: nat, screenHeight: nat, canvasWidth: int, canvasHeight: int, integerScaling: bool, t: real)
    requires canvasWidth > 0 && canvasHeight > 0
    requires t * canvasWidth as real <= screenWidth as real && t * canvasHeight as real <= screenHeight as real
    requires integerScaling ==> IsWhole(t)
    ensures t <= ContainScale(Ratio(screenWidth, canvasWidth), Ratio(screenHeight, canvasHeight), integerScaling)
  {
    var rx, ry := Ratio(screenWidth, canvasWidth), Ratio(screenHeight, canvasHeight);
    RatioBounds(t, screenWidth, canvasWidth);
    RatioBounds(t, screenHeight, canvasHeight);
    var fitted := Max(Min(rx, ry), 1.0);
    assert t <= fitted;
    if integerScaling {
      assert t.Floor <= fitted.Floor;
    }
  }

  /** When the screen is smaller than the canvas on some axis, contain keeps the scale at 1
      and lets the canvas overflow the screen. */
  lemma ContainKeepsUnitScaleOnSmallScreen(screenWidth: nat, screenHeight: nat, canvasWidth: int, canvasHeight: int, integerScaling: bool)
    requires canvasWidth > 0 && canvasHeight > 0
    requires screenWidth < canvasWidth || screenHeight < canvasHeight
    ensures ContainScale(Ratio(screenWidth, canvasWidth), Ratio(screenHeight, canvasHeight), integerScaling) == 1.0
  {
    RatioBounds(1.0, screenWidth, canvasWidth);
    RatioBounds(1.0, screenHeight, canvasHeight);
  }

  /** The covering canvas always covers the screen on both axes. */
  lemma CoverCoversScreen(screenWidth: nat, screenHeight: nat, canvasWidth: int, canvasHeight: int, integerScaling: bool)
    requires canvasWidth > 0 && canvasHeight > 0
    ensures var s := CoverScale(Ratio(screenWidth, canvasWidth), Ratio(screenHeight, canvasHeight), integerScaling);
      s * canvasWidth as real >= screenWidth as real && s * canvasHeight as real >= screenHeight as real
  {
    var rx, ry := Ratio(screenWidth, canvasWidth), Ratio(screenHeight, canvasHeight);
    var s := CoverScale(rx, ry, integerScaling);
    assert s >= Max(rx, ry);
    RatioBounds(s, screenWidth, canvasWidth);
    RatioBounds(s, screenHeight, canvasHeight);
  }

  /** The covering scale is the smallest that covers: every scale of at least 1 that covers
      the screen on both axes, and is whole under integer scaling, is at least it. */
  lemma CoverIsSmallestCover(screenWidth: nat, screenHeight: nat, canvasWidth: int, canvasHeight: int, integerScaling: bool, t: real)
    requires canvasWidth > 0 && canvasHeight > 0
    requires t >= 1.0
    requires t * canvasWidth as real >= screenWidth as real && t * canvasHeight as real >= screenHeight as real
    requires integerScaling ==> IsWhole(t)
    ensures CoverScale(Ratio(screenWidth, canvasWidth), Ratio(screenHeight, canvasHeight), integerScaling) <= t
  {
    var rx, ry := Ratio(screenWidth, canvasWidth), Ratio(screenHeight, canvasHeight);
    RatioBounds(t, screenWidth, canvasWidth);
    RatioBounds(t, screenHeight, canvasHeight);
    var fitted := Max(Max(rx, ry), 1.0);
    assert fitted <= t;
    if integerScaling {
      assert Ceil(fitted) <= t.Floor;
    }
  }

  /** A canvas of the same size as the screen is drawn unscaled at the origin by both
      contain and cover. */
  lemma SameSizeGivesUnitScale(width: int, height: int, integerScaling: bool)
    requires width > 0 && height > 0
    ensures ContainScale(Ratio(width, width), Ratio(height, height), integerScaling) == 1.0
    ensures CoverScale(Ratio(width, width), Ratio(height, height), integerScaling) == 1.0
    ensures CenteredOffset(width, width, 1.0) == 0 && CenteredOffset(height, height, 1.0) == 0
  {
    assert Ratio(width, width) == 1.0 && Ratio(height, height) == 1.0;
  }

  /** For a scale of at least 1, the newer centering rule puts the screen's center pixel on the
      canvas's center pixel: the inverse transform maps one to the other, despite the floor
      taken when the position was computed. */
  lemma CenterMapsToCenter(screenSize: nat, canvasSize: nat, scale: real, clamp: bool)
    requires scale >= 1.0
    ensures ScreenToCanvasAxis((Center(screenSize) - CenteredOffset(screenSize, canvasSize, scale)) as real, scale, canvasSize, clamp)
            == Center(canvasSize)
  {
    var o := CenteredOrigin(screenSize, canvasSize, scale);
    var c := Center(canvasSize);
    var offset := (Center(screenSize) - CenteredOffset(screenSize, canvasSize, scale)) as real;
    var f := o - o.Floor as real;
    assert offset == c as real * scale + f;
    assert 0.0 <= f < 1.0 <= scale;
    assert (c + 1) as real * scale == c as real * scale + scale;
    FloorOfQuotient(offset, scale, c);
  }

  /** Under integer scaling, a contained canvas that fits the screen starts on the screen:
      its centered position is never negative. */
  lemma IntegerContainStartsOnScreen(screenSize: nat, canvasSize: nat, scale: real)
    requires scale >= 1.0 && IsWhole(scale)
    requires scale * canvasSize as real <= screenSize as real
    ensures CenteredOffset(screenSize, canvasSize, scale) >= 0
  {
    var k := scale.Floor;
    var m := Center(canvasSize);
    assert k * canvasSize <= screenSize by {
      assert (k * canvasSize) as real == scale * canvasSize as real;
    }
    assert 2 * (m * k) <= screenSize by {
      assert 2 * (m * k) == (2 * m) * k;
      MultiplyIntMonotone(2 * m, canvasSize, k);
    }
    assert m * k <= Center(screenSize);
    assert CenteredOrigin(screenSize, canvasSize, scale) == (Center(screenSize) - m * k) as real;
  }

  /** Under integer scaling, a contained canvas of even size that fits the screen also ends
      on the screen. */
  lemma IntegerContainEvenCanvasEndsOnScreen(screenSize: nat, canvasSize: nat, scale: real)
    requires scale >= 1.0 && IsWhole(scale)
    requires scale * canvasSize as real <= screenSize as real
    requires canvasSize % 2 == 0
    ensures CenteredOffset(screenSize, canvasSize, scale) as real + scale * canvasSize as real <= screenSize as real
  {
    var k := scale.Floor;
    var m := Center(canvasSize);
    assert canvasSize == 2 * m;
    assert k * canvasSize <= screenSize by {
      assert (k * canvasSize) as real == scale * canvasSize as real;
    }
    assert k * canvasSize == 2 * (m * k);
    assert CenteredOrigin(screenSize, canvasSize, scale) == (Center(screenSize) - m * k) as real;
    assert CenteredOffset(screenSize, canvasSize, scale) == Center(screenSize) - m * k;
    assert (Center(screenSize) - m * k) + k * canvasSize <= screenSize;
  }

  /** Multiplying by a positive integer keeps the order of integers. */
  lemma MultiplyIntMonotone(a: int, b: int, k: int)
    requires k > 0 && a <= b
    ensures a * k <= b * k
  {
    assert (b - a) * k >= 0;
  }

  /** Without integer scaling the floor in the centering rule can put a contained canvas one
      pixel off the screen's left edge: a 2-pixel-wide canvas on a 5-pixel-wide screen. */
  lemma FractionalContainCanStartOffScreen()
    ensures ContainScale(Ratio(5, 2), Ratio(6, 2), false) == 2.5
    ensures CenteredOffset(5, 2, 2.5) == -1
  {
  }

  /** With integer scaling, a contained canvas of odd size can end past the screen's right
      edge, because pygame's integer center rounds the canvas's half-width down: a 1-pixel
      canvas tripled on a 3-pixel screen starts at 1 and ends at 4. */
  lemma OddCanvasCanEndOffScreen()
    ensures ContainScale(Ratio(3, 1), Ratio(3, 1), true) == 3.0
    ensures CenteredOffset(3, 1, 3.0) == 1 && 1.0 + 3.0 * 1.0 > 3.0
  {
  }
}
