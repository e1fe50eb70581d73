/** The older single-class version, `CustomCanvas`: one scale for both axes chosen by a
    `Fit` value, a fractional centered position, and a `Profile` setter that switches the
    smoothing and integer-scaling flags. The display surface is not modelled: its size is
    passed to every method that reads it. */
module CustomCanvases {
  import opened Viewport
  import ScreenFit

  /** Python's `Profile` enumeration. */
  datatype Profile = None | RetroContain | RetroCover | ModernContain | ModernCover | Match | Fill

  /** Python's `Fit` enumeration. */
  datatype Fit = None | Contain | Fill | Cover | Match

  /** The value `update_scale` gives the local `scale` before the final lower bound of 1:
      under COVER (CONTAIN) each ratio is ceiled (floored) when integer scaling is on and the
      larger (smaller) is taken; FILL, MATCH and the Python `else` branch use 1. So under
      COVER it is one of the (ceiled) ratios and not below either raw ratio, and under
      CONTAIN one of the (floored) ratios and not above either. */
  function ScaleBeforeBound(fit: Fit, integerScaling: bool, ratioWidth: real, ratioHeight: real): (s: real)
    requires fit != Fit.None
    ensures fit == Fit.Cover ==> s >= ratioWidth && s >= ratioHeight
    ensures fit == Fit.Cover && integerScaling ==> s == Ceil(ratioWidth) as real || s == Ceil(ratioHeight) as real
    ensures fit == Fit.Cover && !integerScaling ==> s == ratioWidth || s == ratioHeight
    ensures fit == Fit.Contain ==> s <= ratioWidth && s <= ratioHeight
    ensures fit == Fit.Contain && integerScaling ==> s == ratioWidth.Floor as real || s == ratioHeight.Floor as real
    ensures fit == Fit.Contain && !integerScaling ==> s == ratioWidth || s == ratioHeight
    ensures fit == Fit.Fill || fit == Fit.Match ==> s == 1.0
  {
    match fit
    case Cover =>
      if integerScaling then Max(Ceil(ratioWidth) as real, Ceil(ratioHeight) as real)
      else Max(ratioWidth, ratioHeight)
    case Contain =>
      if integerScaling then Min(ratioWidth.Floor as real, ratioHeight.Floor as real)
      else Min(ratioWidth, ratioHeight)
    case _ => 1.0
  }

  /** What `update_scale` stores in `_canvas_scale`, or the error it raises: under NONE the
      local `scale` is never assigned, so the final `max(scale, 1)` fails. */
  function CanvasScale(fit: Fit, integerScaling: bool, ratioWidth: real, ratioHeight: real): (r: Result<real>)
    ensures r.Failure? <==> fit == Fit.None
    ensures r.Failure? ==> r.error == ScaleUnassigned
    ensures r.Success? ==> r.value >= 1.0
    ensures r.Success? && integerScaling ==> IsWhole(r.value)
    ensures fit == Fit.Cover ==> r.value >= ratioWidth && r.value >= ratioHeight
    ensures fit == Fit.Contain && ratioWidth >= 1.0 && ratioHeight >= 1.0 ==>
      r.value <= ratioWidth && r.value <= ratioHeight
    ensures fit == Fit.Fill || fit == Fit.Match ==> r.value == 1.0
  {
    if fit == Fit.None then Failure(ScaleUnassigned)
    else Success(Max(ScaleBeforeBound(fit, integerScaling, ratioWidth, ratioHeight), 1.0))
  }

  /** The two versions agree: the older canvas's CONTAIN and COVER scales, which round each
      ratio before choosing, equal the newer `ScreenContain` and `ScreenCover` scales, which
      choose first and round afterwards. */
  lemma CanvasScaleAgreesWithScreenFit(integerScaling: bool, ratioWidth: real, ratioHeight: real)
    ensures CanvasScale(Fit.Contain, integerScaling, ratioWidth, ratioHeight)
            == Success(ScreenFit.ContainScale(ratioWidth, ratioHeight, integerScaling))
    ensures CanvasScale(Fit.Cover, integerScaling, ratioWidth, ratioHeight)
            == Success(ScreenFit.CoverScale(ratioWidth, ratioHeight, integerScaling))
  {
    if integerScaling {
      var lo := Min(ratioWidth, ratioHeight);
      FloorMonotone(ratioWidth, ratioHeight);
      FloorMonotone(ratioHeight, ratioWidth);
      assert Min(ratioWidth.Floor as real, ratioHeight.Floor as real) == lo.Floor as real;
      FloorMonotone(lo, 1.0);
      FloorMonotone(1.0, lo);
      var hi := Max(ratioWidth, ratioHeight);
      CeilMonotone(ratioWidth, ratioHeight);
      CeilMonotone(ratioHeight, ratioWidth);
      assert Max(Ceil(ratioWidth) as real, Ceil(ratioHeight) as real) == Ceil(hi) as real;
      CeilMonotone(hi, 1.0);
      CeilMonotone(1.0, hi);
    }
  }

  /** Flooring keeps the order of reals. */
  lemma FloorMonotone(a: real, b: real)
    ensures a <= b ==> a.Floor <= b.Floor
  {
  }

  /** Ceiling keeps the order of reals. */
  lemma CeilMonotone(a: real, b: real)
    ensures a <= b ==> Ceil(a) <= Ceil(b)
  {
  }

  class CustomCanvas {
    const canvasWidth: int
    const canvasHeight: int
    var canvasPosition: RealPoint
    var canvasScale: real
    var profile: Profile
    const fit: Fit
    var smooth: bool
    var integerScaling: bool

    /** The canvas has a positive size, and the scale (1 at first, afterwards only ever
        written as a maximum with 1) is never below 1. */
    ghost predicate Valid()
      reads this
    {
      canvasWidth > 0 && canvasHeight > 0 && canvasScale >= 1.0
    }

    /** The state `__init__` sets up, with the fit given directly. */
    constructor (fit: Fit, canvasWidth: int, canvasHeight: int)
      requires canvasWidth > 0 && canvasHeight > 0
      ensures Valid()
      ensures this.fit == fit && this.canvasWidth == canvasWidth && this.canvasHeight == canvasHeight
      ensures canvasPosition == RealPoint(0.0, 0.0) && canvasScale == 1.0
      ensures profile == Profile.None && !smooth && !integerScaling
    {
      this.fit := fit;
      this.canvasWidth, this.canvasHeight := canvasWidth, canvasHeight;
      canvasPosition := RealPoint(0.0, 0.0);
      canvasScale := 1.0;
      profile := Profile.None;
      smooth := false;
      integerScaling := false;
    }

    /** The `smooth` setter. */
    method SetSmooth(value: bool)
      modifies this`smooth
      ensures smooth == value
    {
      smooth := value;
    }

    /** The `integer_scaling` setter. */
    method SetIntegerScaling(value: bool)
      modifies this`integerScaling
      ensures integerScaling == value
    {
      integerScaling := value;
    }

    /** The `profile` setter: stores the profile; the retro profiles switch to sharp
        whole-number scaling, the modern ones to smooth fractional scaling, and NONE, MATCH
        and FILL leave both flags as they were. */
    method SetProfile(value: Profile)
      modifies this`profile, this`smooth, this`integerScaling
      ensures profile == value
      ensures value == Profile.RetroCover || value == Profile.RetroContain ==> !smooth && integerScaling
      ensures value == Profile.ModernCover || value == Profile.ModernContain ==> smooth && !integerScaling
      ensures value == Profile.None || value == Profile.Match || value == Profile.Fill ==>
        smooth == old(smooth) && integerScaling == old(integerScaling)
    {
      profile := value;
      if profile == Profile.RetroCover {
        SetSmooth(false);
        SetIntegerScaling(true);
      } else if profile == Profile.RetroContain {
        SetSmooth(false);
        SetIntegerScaling(true);
      } else if profile == Profile.ModernCover {
        SetSmooth(true);
        SetIntegerScaling(false);
      } else if profile == Profile.ModernContain {
        SetSmooth(true);
        SetIntegerScaling(false);
      } else if profile == Profile.Match {
      } else if profile == Profile.Fill {
      }
    }

    /** `is_canvas_and_screen_same_size`. */
    function IsCanvasAndScreenSameSize(screenWidth: nat, screenHeight: nat): (same: bool)
      ensures same <==> canvasWidth == screenWidth && canvasHeight == screenHeight
    {
      if canvasWidth != screenWidth then false
      else if canvasHeight != screenHeight then false
      else true
    }

    /** `update_scale`: stores the fit's scale, or under NONE fails and changes nothing. */
    method UpdateScale(screenWidth: nat, screenHeight: nat) returns (outcome: Outcome)
      requires Valid()
      modifies this`canvasScale
      ensures Valid()
      ensures var expected := CanvasScale(fit, integerScaling, Ratio(screenWidth, canvasWidth), Ratio(screenHeight, canvasHeight));
        if expected.Success? then outcome == Pass && canvasScale == expected.value
        else outcome == Fail(expected.error) && canvasScale == old(canvasScale)
    {
      var scaleWidth := screenWidth as real / canvasWidth as real;
      var scaleHeight := screenHeight as real / canvasHeight as real;
      var scale: real;
      if fit == Fit.None {
        return Fail(ScaleUnassigned);
      } else if fit == Fit.Cover {
        if integerScaling {
          scaleWidth := Ceil(scaleWidth) as real;
          scaleHeight := Ceil(scaleHeight) as real;
        }
        scale := Max(scaleWidth, scaleHeight);
      } else if fit == Fit.Contain {
        if integerScaling {
          scaleWidth := scaleWidth.Floor as real;
          scaleHeight := scaleHeight.Floor as real;
        }
        scale := Min(scaleWidth, scaleHeight);
      } else if fit == Fit.Fill {
        scale := 1.0;
      } else {
        // Fit.Match; the Python `else` branch also uses 1
        scale := 1.0;
      }
      canvasScale := Max(scale, 1.0);
      outcome := Pass;
    }

    /** `update` without the surface clearing: the scale step, then the position that puts the
        scaled canvas's center on the screen's center, with one scale for both axes and no
        flooring. A failing scale step propagates and leaves the position unchanged. */
    method Update(screenWidth: nat, screenHeight: nat) returns (outcome: Outcome)
      requires Valid()
      modifies this`canvasScale, this`canvasPosition
      ensures Valid()
      ensures fit == Fit.None ==> outcome == Fail(ScaleUnassigned) && unchanged(this)
      ensures fit != Fit.None ==> outcome == Pass
      ensures fit != Fit.None ==>
        Success(canvasScale) == CanvasScale(fit, integerScaling, Ratio(screenWidth, canvasWidth), Ratio(screenHeight, canvasHeight))
      ensures fit != Fit.None ==>
        canvasPosition == RealPoint(CenteredOrigin(screenWidth, canvasWidth, canvasScale), CenteredOrigin(screenHeight, canvasHeight, canvasScale))
    {
      outcome := UpdateScale(screenWidth, screenHeight);
      if outcome.Fail? {
        return;
      }
      // the screen's center minus the scaled canvas's center, on each axis
      var scale := canvasScale;
      var x := CenteredOrigin(screenWidth, canvasWidth, scale);
      var y := CenteredOrigin(screenHeight, canvasHeight, scale);
      canvasPosition := RealPoint(x, y);
    }

    /** `position_canvas_to_screen`: both coordinates multiplied by the one canvas scale,
        without flooring and without the canvas's position. Its MATCH shortcut compares the
        fit with a `Profile` value and so never applies: the point is scaled under every fit. */
    function PositionCanvasToScreen(p: Point): (r: RealPoint)
      reads this
      requires Valid()
      ensures r.x / canvasScale == p.x as real && r.y / canvasScale == p.y as real
    {
      RealPoint(p.x as real * canvasScale, p.y as real * canvasScale)
    }

    /** `position_screen_to_canvas`: a screen point relative to the canvas's position, divided
        by the canvas scale and floored per axis, and with `clamp` kept inside
        `[0, canvasWidth] x [0, canvasHeight]`. As in the forward transform, the MATCH
        shortcut never applies. */
    function PositionScreenToCanvas(p: RealPoint, clamp: bool): (r: Point)
      reads this
      requires Valid()
      ensures clamp ==> 0 <= r.x <= canvasWidth && 0 <= r.y <= canvasHeight
      ensures !clamp ==>
        IsFloorOf(r.x, (p.x - canvasPosition.x) / canvasScale) &&
        IsFloorOf(r.y, (p.y - canvasPosition.y) / canvasScale)
    {
      Point(ScreenToCanvasAxis(p.x - canvasPosition.x, canvasScale, canvasWidth, clamp),
            ScreenToCanvasAxis(p.y - canvasPosition.y, canvasScale, canvasHeight, clamp))
    }
  }

  /** With the canvas at the screen's origin, mapping a canvas point to the screen and back
      gives the point again, for any scale the canvas can have (with clamping, for every
      point inside the canvas). */
  lemma CanvasRoundTrip(c: CustomCanvas, p: Point, clamp: bool)
    requires c.Valid() && c.canvasPosition == RealPoint(0.0, 0.0)
    requires clamp ==> 0 <= p.x <= c.canvasWidth && 0 <= p.y <= c.canvasHeight
    ensures c.PositionScreenToCanvas(c.PositionCanvasToScreen(p), clamp) == p
  {
    var q := c.PositionCanvasToScreen(p);
    assert (q.x - 0.0) / c.canvasScale == p.x as real;
    assert (q.y - 0.0) / c.canvasScale == p.y as real;
  }

  /** After an update, the screen's center maps back exactly to the canvas's center pixel. */
  lemma CanvasCenterMapsToCenter(c: CustomCanvas, screenWidth: nat, screenHeight: nat, clamp: bool)
    requires c.Valid()
    requires c.canvasPosition ==
      RealPoint(CenteredOrigin(screenWidth, c.canvasWidth, c.canvasScale), CenteredOrigin(screenHeight, c.canvasHeight, c.canvasScale))
    ensures c.PositionScreenToCanvas(RealPoint(Center(screenWidth) as real, Center(screenHeight) as real), clamp)
            == Point(Center(c.canvasWidth), Center(c.canvasHeight))
  {
    var s := c.canvasScale;
    assert (Center(screenWidth) as real - c.canvasPosition.x) / s == Center(c.canvasWidth) as real;
    assert (Center(screenHeight) as real - c.canvasPosition.y) / s == Center(c.canvasHeight) as real;
  }

  /** When the canvas and the screen have the same size, every fit but NONE scales by 1 and
      the centered position is the origin. */
  lemma SameSizeDrawsAtOrigin(fit: Fit, integerScaling: bool, width: int, height: int)
    requires fit != Fit.None && width > 0 && height > 0
    ensures CanvasScale(fit, integerScaling, Ratio(width, width), Ratio(height, height)) == Success(1.0)
    ensures CenteredOrigin(width, width, 1.0) == 0.0 && CenteredOrigin(height, height, 1.0) == 0.0
  {
    assert Ratio(width, width) == 1.0 && Ratio(height, height) == 1.0;
  }
}
