/** The newer `Screen` hierarchy as one class. The Python base class and its six fit
    variants differ only in which `update_scale`, `update_position`, `update` and transforms
    they override, so the variant is a constant `style` and each overridden method dispatches
    on it. The six presets are named constructors. The display surface is not modelled:
    its size is passed to every method that reads it. */
module Screens {
  import opened Viewport
  import opened ScreenFit

  /** Which class of the hierarchy an object is: the base `Screen` or one of its fit
      variants. The preset classes are Contain, Cover or Fill with their flags set. */
  datatype Style = Base | Contain | Fill | Cover | Match | Fixed | FixedCenter

  /** The base class's default canvas size and the frame rate every screen starts with. */
  const DefaultCanvasWidth: int := 320
  const DefaultCanvasHeight: int := 240
  const DefaultFrameRate: real := 30.0

  class Screen {
    const style: Style
    var canvasWidth: int
    var canvasHeight: int
    var frameRate: real
    var scaleX: real
    var scaleY: real
    var position: Point
    var useIntegerScaling: bool
    var useSmooth: bool

    /** The canvas has a size: a positive one, except that a `Match` screen copies the size
        of the screen, which may be zero. */
    ghost predicate Valid()
      reads this
    {
      canvasWidth >= 0 && canvasHeight >= 0 &&
      (style != Match ==> canvasWidth > 0 && canvasHeight > 0)
    }

    /** The state the base constructor leaves behind, apart from the canvas and the flags. */
    ghost predicate HasBaseDefaults()
      reads this
    {
      frameRate == DefaultFrameRate && scaleX == 1.0 && scaleY == 1.0 && position == Point(0, 0)
    }

    /** `Screen.__init__`, which every fit variant's constructor calls unchanged. */
    constructor (style: Style, canvasWidth: int, canvasHeight: int)
      requires canvasWidth > 0 && canvasHeight > 0
      ensures Valid() && HasBaseDefaults()
      ensures this.style == style && this.canvasWidth == canvasWidth && this.canvasHeight == canvasHeight
      ensures useIntegerScaling && !useSmooth
    {
      this.style := style;
      this.canvasWidth, this.canvasHeight := canvasWidth, canvasHeight;
      frameRate := DefaultFrameRate;
      scaleX, scaleY := 1.0, 1.0;
      position := Point(0, 0);
      useIntegerScaling := true;
      useSmooth := false;
    }

    /** `Screen()` with its default canvas size. */
    constructor Default()
      ensures Valid() && HasBaseDefaults()
      ensures style == Base && canvasWidth == DefaultCanvasWidth && canvasHeight == DefaultCanvasHeight
      ensures useIntegerScaling && !useSmooth
    {
      style := Base;
      canvasWidth, canvasHeight := DefaultCanvasWidth, DefaultCanvasHeight;
      frameRate := DefaultFrameRate;
      scaleX, scaleY := 1.0, 1.0;
      position := Point(0, 0);
      useIntegerScaling := true;
      useSmooth := false;
    }

    /** `ScreenRetroContain`: contain, sharp and whole-number scaled. */
    constructor RetroContain(canvasWidth: int, canvasHeight: int)
      requires canvasWidth > 0 && canvasHeight > 0
      ensures Valid() && HasBaseDefaults()
      ensures style == Contain && this.canvasWidth == canvasWidth && this.canvasHeight == canvasHeight
      ensures useIntegerScaling && !useSmooth
    {
      style := Contain;
      this.canvasWidth, this.canvasHeight := canvasWidth, canvasHeight;
      frameRate := DefaultFrameRate;
      scaleX, scaleY := 1.0, 1.0;
      position := Point(0, 0);
      useIntegerScaling := true;
      useSmooth := false;
      new;
      SetUseIntegerScaling(true);
      SetUseSmooth(false);
    }

    /** `ScreenRetroCover`: cover, sharp and whole-number scaled. */
    constructor RetroCover(canvasWidth: int, canvasHeight: int)
      requires canvasWidth > 0 && canvasHeight > 0
      ensures Valid() && HasBaseDefaults()
      ensures style == Cover && this.canvasWidth == canvasWidth && this.canvasHeight == canvasHeight
      ensures useIntegerScaling && !useSmooth
    {
      style := Cover;
      this.canvasWidth, this.canvasHeight := canvasWidth, canvasHeight;
      frameRate := DefaultFrameRate;
      scaleX, scaleY := 1.0, 1.0;
      position := Point(0, 0);
      useIntegerScaling := true;
      useSmooth := false;
      new;
      SetUseIntegerScaling(true);
      SetUseSmooth(false);
    }

    /** `ScreenRetroFill`: fill, sharp, fractional scale. */
    constructor RetroFill(canvasWidth: int, canvasHeight: int)
      requires canvasWidth > 0 && canvasHeight > 0
      ensures Valid() && HasBaseDefaults()
      ensures style == Fill && this.canvasWidth == canvasWidth && this.canvasHeight == canvasHeight
      ensures !useIntegerScaling && !useSmooth
    {
      style := Fill;
      this.canvasWidth, this.canvasHeight := canvasWidth, canvasHeight;
      frameRate := DefaultFrameRate;
      scaleX, scaleY := 1.0, 1.0;
      position := Point(0, 0);
      useIntegerScaling := true;
      useSmooth := false;
      new;
      SetUseIntegerScaling(false);
      SetUseSmooth(false);
    }

    /** `ScreenModernContain`: contain, smoothed, fractional scale. */
    constructor ModernContain(canvasWidth: int, canvasHeight: int)
      requires canvasWidth > 0 && canvasHeight > 0
      ensures Valid() && HasBaseDefaults()
      ensures style == Contain && this.canvasWidth == canvasWidth && this.canvasHeight == canvasHeight
      ensures !useIntegerScaling && useSmooth
    {
      style := Contain;
      this.canvasWidth, this.canvasHeight := canvasWidth, canvasHeight;
      frameRate := DefaultFrameRate;
      scaleX, scaleY := 1.0, 1.0;
      position := Point(0, 0);
      useIntegerScaling := true;
      useSmooth := false;
      new;
      SetUseIntegerScaling(false);
      SetUseSmooth(true);
    }

    /** `ScreenModernCover`: cover, smoothed, fractional scale. */
    constructor ModernCover(canvasWidth: int, canvasHeight: int)
      requires canvasWidth > 0 && canvasHeight > 0
      ensures Valid() && HasBaseDefaults()
      ensures style == Cover && this.canvasWidth == canvasWidth && this.canvasHeight == canvasHeight
      ensures !useIntegerScaling && useSmooth
    {
      style := Cover;
      this.canvasWidth, this.canvasHeight := canvasWidth, canvasHeight;
      frameRate := DefaultFrameRate;
      scaleX, scaleY := 1.0, 1.0;
      position := Point(0, 0);
      useIntegerScaling := true;
      useSmooth := false;
      new;
      SetUseIntegerScaling(false);
      SetUseSmooth(true);
    }

    /** `ScreenModernFill`: fill, smoothed, fractional scale. */
    constructor ModernFill(canvasWidth: int, canvasHeight: int)
      requires canvasWidth > 0 && canvasHeight > 0
      ensures Valid() && HasBaseDefaults()
      ensures style == Fill && this.canvasWidth == canvasWidth && this.canvasHeight == canvasHeight
      ensures !useIntegerScaling && useSmooth
    {
      style := Fill;
      this.canvasWidth, this.canvasHeight := canvasWidth, canvasHeight;
      frameRate := DefaultFrameRate;
      scaleX, scaleY := 1.0, 1.0;
      position := Point(0, 0);
      useIntegerScaling := true;
      useSmooth := false;
      new;
      SetUseIntegerScaling(false);
      SetUseSmooth(true);
    }

    /** The `scale_x` setter. */
    method SetScaleX(value: real)
      modifies this`scaleX
      ensures scaleX == value
    {
      scaleX := value;
    }

    /** The `scale_y` setter. */
    method SetScaleY(value: real)
      modifies this`scaleY
      ensures scaleY == value
    {
      scaleY := value;
    }

    /** The `scale` setter: the first component through the `scale_x` setter, then the
        second through `scale_y`; nothing else changes. */
    method SetScale(x: real, y: real)
      modifies this`scaleX, this`scaleY
      ensures scaleX == x && scaleY == y
    {
      SetScaleX(x);
      SetScaleY(y);
    }

    /** The `position` setter. */
    method SetPosition(value: Point)
      modifies this`position
      ensures position == value
    {
      position := value;
    }

    /** The `use_integer_scaling` setter. */
    method SetUseIntegerScaling(value: bool)
      modifies this`useIntegerScaling
      ensures useIntegerScaling == value
    {
      useIntegerScaling := value;
    }

    /** The `use_smooth` setter. */
    method SetUseSmooth(value: bool)
      modifies this`useSmooth
      ensures useSmooth == value
    {
      useSmooth := value;
    }

    /** The scale the style's `update_scale` leaves for a screen of the given size. */
    ghost predicate ScaleFitted(screenWidth: nat, screenHeight: nat)
      reads this
      requires Valid()
    {
      match style
      case Match => scaleX == 1.0 && scaleY == 1.0
      case Contain =>
        scaleX == scaleY == ContainScale(Ratio(screenWidth, canvasWidth), Ratio(screenHeight, canvasHeight), useIntegerScaling)
      case Cover =>
        scaleX == scaleY == CoverScale(Ratio(screenWidth, canvasWidth), Ratio(screenHeight, canvasHeight), useIntegerScaling)
      case _ =>
        scaleX == Ratio(screenWidth, canvasWidth) && scaleY == Ratio(screenHeight, canvasHeight)
    }

    /** The position the style's `update_position` leaves for a screen of the given size,
        computed from the current scale. */
    ghost predicate PositionFitted(screenWidth: nat, screenHeight: nat)
      reads this
      requires Valid()
    {
      if style == Fill || style == Match then
        position == Point(0, 0)
      else
        position == Point(CenteredOffset(screenWidth, canvasWidth, scaleX), CenteredOffset(screenHeight, canvasHeight, scaleY))
    }

    /** `Screen.update_scale`: each axis's scale is the ratio of the screen's size to the
        canvas's. */
    method BaseUpdateScale(screenWidth: nat, screenHeight: nat)
      requires Valid() && style != Match
      modifies this`scaleX, this`scaleY
      ensures scaleX == Ratio(screenWidth, canvasWidth) && scaleY == Ratio(screenHeight, canvasHeight)
      ensures scaleX * canvasWidth as real == screenWidth as real
      ensures scaleY * canvasHeight as real == screenHeight as real
    {
      SetScaleX(screenWidth as real / canvasWidth as real);
      SetScaleY(screenHeight as real / canvasHeight as real);
    }

    /** `update_scale` as the object's class defines it: `ScreenMatch` sets (1, 1),
        `ScreenContain` and `ScreenCover` start from the base ratios and then pick one
        scale for both axes, and every other class keeps the base ratios. */
    method UpdateScale(screenWidth: nat, screenHeight: nat)
      requires Valid()
      modifies this`scaleX, this`scaleY
      ensures ScaleFitted(screenWidth, screenHeight)
    {
      match style {
        case Match =>
          SetScale(1.0, 1.0);
        case Contain =>
          BaseUpdateScale(screenWidth, screenHeight);
          var newScale := Min(scaleX, scaleY);
          newScale := Max(newScale, 1.0);
          if useIntegerScaling {
            newScale := Max(newScale, 1.0);
            newScale := newScale.Floor as real;
          }
          SetScale(newScale, newScale);
        case Cover =>
          BaseUpdateScale(screenWidth, screenHeight);
          var newScale := Max(scaleX, scaleY);
          newScale := Max(newScale, 1.0);
          if useIntegerScaling {
            newScale := Max(newScale, 1.0);
            newScale := Ceil(newScale) as real;
          }
          SetScale(newScale, newScale);
        case _ =>
          BaseUpdateScale(screenWidth, screenHeight);
      }
    }

    /** `Screen.update_position`: the floor of the origin that puts the scaled canvas's
        center on the screen's center, per axis, from the current scale. */
    method BaseUpdatePosition(screenWidth: nat, screenHeight: nat)
      requires Valid()
      modifies this`position
      ensures IsFloorOf(position.x, CenteredOrigin(screenWidth, canvasWidth, scaleX))
      ensures IsFloorOf(position.y, CenteredOrigin(screenHeight, canvasHeight, scaleY))
    {
      var screenCenterX, screenCenterY := Center(screenWidth), Center(screenHeight);
      var canvasCenterX, canvasCenterY := Center(canvasWidth) as real, Center(canvasHeight) as real;
      canvasCenterX := canvasCenterX * scaleX;
      canvasCenterY := canvasCenterY * scaleY;
      var canvasX := (screenCenterX as real - canvasCenterX).Floor;
      var canvasY := (screenCenterY as real - canvasCenterY).Floor;
      SetPosition(Point(canvasX, canvasY));
    }

    /** `update_position` as the object's class defines it: `ScreenFill` and `ScreenMatch`
        always draw at (0, 0); every other class centers. */
    method UpdatePosition(screenWidth: nat, screenHeight: nat)
      requires Valid()
      modifies this`position
      ensures PositionFitted(screenWidth, screenHeight)
    {
      if style == Fill || style == Match {
        SetPosition(Point(0, 0));
      } else {
        BaseUpdatePosition(screenWidth, screenHeight);
      }
    }

    /** `update` as the object's class defines it. `ScreenFixed` changes nothing,
        `ScreenFixedCenter` only re-centers with the scale it has, `ScreenMatch` also gives
        the canvas the screen's size, and every other class updates the scale and then the
        position, so the position always comes from the fresh scale. */
    method Update(screenWidth: nat, screenHeight: nat)
      requires Valid()
      modifies this`scaleX, this`scaleY, this`position, this`canvasWidth, this`canvasHeight
      ensures Valid()
      ensures style == Fixed ==> unchanged(this)
      ensures style == FixedCenter ==>
        scaleX == old(scaleX) && scaleY == old(scaleY) && PositionFitted(screenWidth, screenHeight)
      ensures style != Fixed && style != FixedCenter ==>
        ScaleFitted(screenWidth, screenHeight) && PositionFitted(screenWidth, screenHeight)
      ensures style == Match ==> canvasWidth == screenWidth && canvasHeight == screenHeight
      ensures style != Match ==> canvasWidth == old(canvasWidth) && canvasHeight == old(canvasHeight)
    {
      match style {
        case Fixed =>
        case FixedCenter =>
          UpdatePosition(screenWidth, screenHeight);
        case Match =>
          UpdateScale(screenWidth, screenHeight);
          UpdatePosition(screenWidth, screenHeight);
          assert scaleX == 1.0 && scaleY == 1.0 && position == Point(0, 0);
          if canvasWidth != screenWidth || canvasHeight != screenHeight {
            canvasWidth, canvasHeight := screenWidth, screenHeight;
          }
        case _ =>
          UpdateScale(screenWidth, screenHeight);
          UpdatePosition(screenWidth, screenHeight);
      }
    }

    /** `position_canvas_to_screen`: a canvas point scaled and floored per axis, without
        the canvas's position; `ScreenMatch` returns the point itself. */
    function PositionCanvasToScreen(p: Point): (r: Point)
      reads this
      ensures style == Match ==> r == p
      ensures style != Match ==> IsFloorOf(r.x, p.x as real * scaleX) && IsFloorOf(r.y, p.y as real * scaleY)
    {
      if style == Match then p
      else Point(CanvasToScreenAxis(p.x, scaleX), CanvasToScreenAxis(p.y, scaleY))
    }

    /** `position_screen_to_canvas`: a screen point relative to the canvas's position,
        divided by the scale and floored per axis, and with `clamp` kept inside
        `[0, canvasWidth] x [0, canvasHeight]`; a zero scale raises a division error.
        `ScreenMatch` returns the point itself. */
    function PositionScreenToCanvas(p: Point, clamp: bool): (r: Result<Point>)
      reads this
      requires Valid()
      ensures style == Match ==> r == Success(p)
      ensures style != Match ==> (r.Failure? <==> scaleX == 0.0 || scaleY == 0.0)
      ensures r.Failure? ==> r.error == DivisionByZero
      ensures style != Match && r.Success? && clamp ==>
        0 <= r.value.x <= canvasWidth && 0 <= r.value.y <= canvasHeight
      ensures style != Match && r.Success? && !clamp ==>
        IsFloorOf(r.value.x, (p.x - position.x) as real / scaleX) &&
        IsFloorOf(r.value.y, (p.y - position.y) as real / scaleY)
    {
      if style == Match then Success(p)
      else if scaleX == 0.0 || scaleY == 0.0 then Failure(DivisionByZero)
      else
        Success(Point(ScreenToCanvasAxis((p.x - position.x) as real, scaleX, canvasWidth, clamp),
                      ScreenToCanvasAxis((p.y - position.y) as real, scaleY, canvasHeight, clamp)))
    }
  }

  /** With the canvas at the screen's origin and whole-number scales, mapping a canvas point
      to the screen and back gives the point again (with clamping, for every point inside
      the canvas); under `ScreenMatch` both transforms are the identity. */
  lemma ScreenRoundTrip(s: Screen, p: Point, clamp: bool)
    requires s.Valid()
    requires s.style == Match ||
      (s.position == Point(0, 0) && s.scaleX != 0.0 && s.scaleY != 0.0 && IsWhole(s.scaleX) && IsWhole(s.scaleY))
    requires clamp ==> 0 <= p.x <= s.canvasWidth && 0 <= p.y <= s.canvasHeight
    ensures s.PositionScreenToCanvas(s.PositionCanvasToScreen(p), clamp) == Success(p)
  {
    if s.style != Match {
      AxisRoundTrip(p.x, s.scaleX, s.canvasWidth, clamp);
      AxisRoundTrip(p.y, s.scaleY, s.canvasHeight, clamp);
    }
  }

  /** After a contain or cover update, the screen's center pixel maps back to the canvas's
      center pixel on both axes. */
  lemma ScreenCenterMapsToCanvasCenter(s: Screen, screenWidth: nat, screenHeight: nat, clamp: bool)
    requires s.Valid() && (s.style == Contain || s.style == Cover)
    requires s.ScaleFitted(screenWidth, screenHeight) && s.PositionFitted(screenWidth, screenHeight)
    ensures s.PositionScreenToCanvas(Point(Center(screenWidth), Center(screenHeight)), clamp)
            == Success(Point(Center(s.canvasWidth), Center(s.canvasHeight)))
  {
    CenterMapsToCenter(screenWidth, s.canvasWidth, s.scaleX, clamp);
    CenterMapsToCenter(screenHeight, s.canvasHeight, s.scaleY, clamp);
  }
}
