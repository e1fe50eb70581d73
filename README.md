# pygame canvas-to-screen viewport, modelled in Dafny

This project models the viewport arithmetic of two versions of a small pygame helper. Both versions take a fixed-resolution drawing surface (the *canvas*) and a resizable display surface (the *screen*). They choose a scale and a placement offset, so that the canvas can be blitted onto the screen under a fit policy named after CSS `object-fit`. They also map points between screen space and canvas space, for example to translate the mouse position.

- **Newer version** (`pygame-screen/pygame_screen`). The base class `Screen` has six fit subclasses: `ScreenContain`, `ScreenFill`, `ScreenCover`, `ScreenMatch`, `ScreenFixed` and `ScreenFixedCenter`. On top of those sit six presets, `ScreenRetro*` and `ScreenModern*`, which only set two flags. The whole hierarchy is modelled as one class, `Screens.Screen`. A constant `style` records which Python class the object is, and each overridden method dispatches on it. The presets are named constructors.
- **Older version** (`pygame_screen/pygame_screen/__init__.py`). This is `CustomCanvas`, with its `Profile` and `Fit` enumerations. It is modelled as the class `CustomCanvases.CustomCanvas`.
- **Shared arithmetic** lives in module `Viewport`: ratios, pygame's integer `Rect.center`, the centering rule, Python's `min`/`max`/`floor`/`ceil`, and the per-axis transforms.
- **Contain and cover** have their closed forms, and the fit properties proved about them, in module `ScreenFit`.
- **Presets**: module `ScreenPresets` states what they promise once updated.

Modelling choices:

- **Sizes and scales.** The display surface is an input: every method that reads the screen's size takes it as `screenWidth`/`screenHeight`. Scales are exact rationals (`real`). Python's `int | float` scale values become whole or fractional reals.
- **Exceptions become values.**
  - In `Screen.position_screen_to_canvas`, a zero scale raises a Python `ZeroDivisionError`. A zero scale can be stored through a setter, or reached by a zero-sized screen under fill. The model gives `Failure(DivisionByZero)`.
  - `CustomCanvas.update_scale` with `Fit.NONE` raises an `UnboundLocalError`: line 160 reads the local `scale`, which that branch never assigns. The model gives `Fail(ScaleUnassigned)` and leaves the state unchanged.

Behaviours the model keeps as written, where a reader might expect otherwise:

- **No offset in the forward transform.** `position_canvas_to_screen` leaves the canvas's position out, but `position_screen_to_canvas` subtracts it. With the canvas at the origin and a non-zero whole scale, a round trip is the identity (`Viewport.AxisRoundTrip`, `Screens.ScreenRoundTrip`). At unit scale, an offset `d` shifts every coordinate of the round trip by `-d` (`Viewport.OffsetShiftsRoundTrip`). At a whole scale `k`, an offset `d` with `-k < d <= 0` is absorbed by the floor, and the round trip is again the identity (`Viewport.OffsetAbsorbedByWholeScale`).
- **The MATCH shortcut never fires** in `CustomCanvas.position_canvas_to_screen` and `position_screen_to_canvas`, because it compares the `Fit` value with `Profile.MATCH`. Both transforms scale under every fit. The shortcut is therefore not modelled as an identity.
- **Rounding under integer scaling differs between the versions, yet gives the same scale.** The older contain and cover round each ratio before choosing between them. The newer ones choose first and round afterwards. `CustomCanvases.CanvasScaleAgreesWithScreenFit` proves that both orders give the same scale.
- **The centered position is floored in the newer version.** Without integer scaling a contained canvas can therefore start one pixel left of the screen (`ScreenFit.FractionalContainCanStartOffScreen`). With integer scaling, a canvas of odd size can end past the right edge, because pygame's `Rect.center` rounds the half-size down (`ScreenFit.OddCanvasCanEndOffScreen`).

## Model

| member | source | states |
|---|---|---|
| Viewport.Ceil | pygame-screen/pygame_screen/screenfit.py:103 | `math.ceil`: the least integer not below its argument |
| Viewport.Min | pygame-screen/pygame_screen/screenfit.py:28 | Python's two-argument `min`: a lower bound of both arguments that is one of them |
| Viewport.Max | pygame-screen/pygame_screen/screenfit.py:32 | Python's two-argument `max`: an upper bound of both arguments that is one of them |
| Viewport.Ratio | pygame-screen/pygame_screen/screen.py:168-169 | the true-division ratio stretches the canvas's size to exactly the screen's: `r * canvas == screen` |
| Viewport.Center | pygame-screen/pygame_screen/screen.py:182-185 | pygame's `Rect.center` of a rectangle at the origin: within the rectangle, and half the size rounded down |
| Viewport.CenteredOrigin | pygame-screen/pygame_screen/screen.py:188-194 | the origin that puts the scaled canvas's center exactly on the screen's center |
| Viewport.CenteredOffset | pygame-screen/pygame_screen/screen.py:193-194 | the newer centering rule is the floor of that origin |
| Viewport.CanvasToScreenAxis | pygame-screen/pygame_screen/screen.py:231-232 | one axis of the forward transform is the floor of coordinate times scale |
| Viewport.ScreenToCanvasAxis | pygame-screen/pygame_screen/screen.py:239-248 | one axis of the inverse transform: the floor of offset over scale; with clamping the result lies in `[0, size]`; it equals that floor inside the range, 0 below it and the size above it |
| Viewport.PixelCellHoldsOffset | pygame-screen/pygame_screen/screen.py:239-240 | the pixel the inverse transform returns is the one whose scaled cell `[n*s, (n+1)*s)` holds the screen offset |
| Viewport.FloorOfQuotient | pygame-screen/pygame_screen/screen.py:239-240 | conversely, an offset inside pixel `n`'s scaled cell maps back to `n` |
| Viewport.AxisRoundTrip | pygame-screen/pygame_screen/screen.py:231-248 | with a non-zero whole scale and no offset, the inverse transform undoes the forward one on every coordinate, and with clamping on every coordinate inside the canvas |
| Viewport.OffsetShiftsRoundTrip | pygame-screen/pygame_screen/screen.py:231-240 | the forward transform ignores the position and the inverse subtracts it, so at unit scale a round trip shifts every coordinate by the offset |
| Viewport.OffsetAbsorbedByWholeScale | pygame-screen/pygame_screen/screen.py:231-240 | at a whole scale `k`, a position offset `d` with `-k < d <= 0` leaves the round trip the identity: the floor in the inverse transform absorbs it |
| ScreenFit.ContainScale | pygame-screen/pygame_screen/screenfit.py:28-37 | the contain scale is at least 1, and whole under integer scaling |
| ScreenFit.CoverScale | pygame-screen/pygame_screen/screenfit.py:94-103 | the cover scale is at least 1, and whole under integer scaling |
| ScreenFit.RatioBounds | pygame-screen/pygame_screen/screen.py:168-169 | a scale keeps the canvas within an axis exactly when it is at most that axis's ratio, and covers the axis exactly when it is at least the ratio |
| ScreenFit.ContainFitsInside | pygame-screen/pygame_screen/screenfit.py:28-37 | on a screen at least as large as the canvas, the contained canvas fits on both axes; without integer scaling it touches the screen's edges on one axis |
| ScreenFit.ContainIsLargestFit | pygame-screen/pygame_screen/screenfit.py:28-37 | every scale that fits both axes, and is whole under integer scaling, is at most the contain scale |
| ScreenFit.ContainKeepsUnitScaleOnSmallScreen | pygame-screen/pygame_screen/screenfit.py:32 | on a screen smaller than the canvas on some axis, contain keeps scale 1 |
| ScreenFit.CoverCoversScreen | pygame-screen/pygame_screen/screenfit.py:94-103 | the covering canvas covers the screen on both axes |
| ScreenFit.CoverIsSmallestCover | pygame-screen/pygame_screen/screenfit.py:94-103 | every scale of at least 1 that covers both axes, and is whole under integer scaling, is at least the cover scale |
| ScreenFit.SameSizeGivesUnitScale | pygame-screen/pygame_screen/screenfit.py:28-37 | a canvas of the screen's size is drawn unscaled at the origin by contain and by cover |
| ScreenFit.CenterMapsToCenter | pygame-screen/pygame_screen/screen.py:182-196 | for a scale of at least 1, the screen's center maps back to the canvas's center pixel, despite the floor in the centering rule |
| ScreenFit.IntegerContainStartsOnScreen | pygame-screen/pygame_screen/screen.py:182-196 | under a whole scale whose canvas fits the screen, the centered position is never negative |
| ScreenFit.IntegerContainEvenCanvasEndsOnScreen | pygame-screen/pygame_screen/screen.py:182-196 | under a whole scale whose canvas fits the screen, an even-sized canvas also ends on the screen |
| ScreenFit.FractionalContainCanStartOffScreen | pygame-screen/pygame_screen/screen.py:193 | a 2-pixel canvas contained at scale 2.5 on a 5-pixel screen starts at -1 |
| ScreenFit.OddCanvasCanEndOffScreen | pygame-screen/pygame_screen/screen.py:185-194 | a 1-pixel canvas tripled on a 3-pixel screen starts at 1 and ends at pixel 4 |
| Screens.Screen.constructor | pygame-screen/pygame_screen/screen.py:9-46 | a new screen has the given canvas, scale (1, 1), position (0, 0), frame rate 30, integer scaling on and smoothing off |
| Screens.Screen.Default | pygame-screen/pygame_screen/screen.py:9 | `Screen()` has the default 320 x 240 canvas and the same initial state |
| Screens.Screen.RetroContain | pygame-screen/pygame_screen/screenpreset.py:8-14 | a contain screen, integer scaling on, smoothing off, base scale and position kept |
| Screens.Screen.RetroCover | pygame-screen/pygame_screen/screenpreset.py:17-23 | a cover screen, integer scaling on, smoothing off, base scale and position kept |
| Screens.Screen.RetroFill | pygame-screen/pygame_screen/screenpreset.py:26-32 | a fill screen, integer scaling off, smoothing off, base scale and position kept |
| Screens.Screen.ModernContain | pygame-screen/pygame_screen/screenpreset.py:35-41 | a contain screen, integer scaling off, smoothing on, base scale and position kept |
| Screens.Screen.ModernCover | pygame-screen/pygame_screen/screenpreset.py:44-50 | a cover screen, integer scaling off, smoothing on, base scale and position kept |
| Screens.Screen.ModernFill | pygame-screen/pygame_screen/screenpreset.py:53-59 | a fill screen, integer scaling off, smoothing on, base scale and position kept |
| Screens.Screen.SetScaleX | pygame-screen/pygame_screen/screen.py:71-73 | stores the x scale and changes nothing else |
| Screens.Screen.SetScaleY | pygame-screen/pygame_screen/screen.py:79-81 | stores the y scale and changes nothing else |
| Screens.Screen.SetScale | pygame-screen/pygame_screen/screen.py:62-65 | `scale = (x, y)` writes exactly `scale_x := x` and `scale_y := y` |
| Screens.Screen.SetPosition | pygame-screen/pygame_screen/screen.py:112-114 | stores the position and changes nothing else |
| Screens.Screen.SetUseIntegerScaling | pygame-screen/pygame_screen/screen.py:121-123 | stores the integer-scaling flag and changes nothing else |
| Screens.Screen.SetUseSmooth | pygame-screen/pygame_screen/screen.py:130-132 | stores the smoothing flag and changes nothing else |
| Screens.Screen.BaseUpdateScale | pygame-screen/pygame_screen/screen.py:165-169 | the base scale is the per-axis ratio, so `scale_x * canvas_w == screen_w` and `scale_y * canvas_h == screen_h` |
| Screens.Screen.UpdateScale | pygame-screen/pygame_screen/screenfit.py:22-40 | each style's scale: contain gives both axes the contain scale, cover the cover scale (lines 87-106), match (1, 1) (line 126), fill and the rest the base ratios (lines 56-57) |
| Screens.Screen.BaseUpdatePosition | pygame-screen/pygame_screen/screen.py:176-196 | the position is the floor of the centered origin per axis, from the current scale, and nothing else changes |
| Screens.Screen.UpdatePosition | pygame-screen/pygame_screen/screenfit.py:60-62 | fill and match draw at (0, 0) (also line 130); every other style centers |
| Screens.Screen.Update | pygame-screen/pygame_screen/screenfit.py:115-121 | fixed changes nothing (lines 153-155); fixed-center keeps the scale and re-centers (lines 164-166); every other style sets the fitted scale and then the position from that fresh scale; match also gives the canvas the screen's size |
| Screens.Screen.PositionCanvasToScreen | pygame-screen/pygame_screen/screen.py:228-234 | the floor of coordinate times scale per axis, ignoring the position; under match the point itself (screenfit.py:136-138) |
| Screens.Screen.PositionScreenToCanvas | pygame-screen/pygame_screen/screen.py:236-250 | the floor of the position-relative offset over the scale per axis; with clamping within `[0, w] x [0, h]`; a division error exactly when a scale is zero; under match the point itself (screenfit.py:140-144) |
| Screens.ScreenRoundTrip | pygame-screen/pygame_screen/screen.py:231-240 | with position (0, 0) and non-zero whole scales, or under match, mapping a canvas point to the screen and back gives the point |
| Screens.ScreenCenterMapsToCanvasCenter | pygame-screen/pygame_screen/screenfit.py:18-20 | after a contain or cover update, the screen's center maps back to the canvas's center pixel |
| ScreenPresets.ContainPresetScales | pygame-screen/pygame_screen/screenpreset.py:8-41 | after an update, the retro-contain scale is whole and at least 1, the modern-contain scale is exactly `max(min(rx, ry), 1)`, and the retro one is the modern one floored |
| ScreenPresets.CoverPresetScales | pygame-screen/pygame_screen/screenpreset.py:17-50 | after an update, the retro-cover scale is whole and at least 1, the modern-cover scale is exactly `max(max(rx, ry), 1)`, and the retro one is the modern one ceiled |
| ScreenPresets.FillPresetUpdate | pygame-screen/pygame_screen/screenpreset.py:26-32 | after an update, a retro-fill screen stretches each axis to exactly the screen's size, independently, and draws at (0, 0) |
| CustomCanvases.ScaleBeforeBound | pygame_screen/pygame_screen/__init__.py:131-157 | the local `scale` before the bound of 1: under COVER one of the ratios (ceiled under integer scaling) and not below either raw ratio, under CONTAIN one of the ratios (floored under integer scaling) and not above either, and 1 under FILL and MATCH |
| CustomCanvases.CanvasScale | pygame_screen/pygame_screen/__init__.py:126-160 | fails exactly under NONE; otherwise at least 1, whole under integer scaling, at least both raw ratios under COVER, at most both (when both are at least 1) under CONTAIN, and 1 under FILL and MATCH |
| CustomCanvases.CanvasScaleAgreesWithScreenFit | pygame_screen/pygame_screen/__init__.py:134-160 | the older CONTAIN and COVER scales equal the newer contain and cover scales, integer scaling or not |
| CustomCanvases.CustomCanvas.constructor | pygame_screen/pygame_screen/__init__.py:37-50 | position (0, 0), scale 1, profile NONE, smoothing and integer scaling off |
| CustomCanvases.CustomCanvas.SetSmooth | pygame_screen/pygame_screen/__init__.py:68-70 | stores the smoothing flag |
| CustomCanvases.CustomCanvas.SetIntegerScaling | pygame_screen/pygame_screen/__init__.py:76-78 | stores the integer-scaling flag |
| CustomCanvases.CustomCanvas.SetProfile | pygame_screen/pygame_screen/__init__.py:84-105 | stores the profile; retro profiles set sharp integer scaling, modern ones smooth fractional scaling; NONE, MATCH and FILL leave both flags unchanged |
| CustomCanvases.CustomCanvas.IsCanvasAndScreenSameSize | pygame_screen/pygame_screen/__init__.py:117-124 | true exactly when both widths and both heights are equal |
| CustomCanvases.CustomCanvas.UpdateScale | pygame_screen/pygame_screen/__init__.py:126-160 | stores the fit's scale, or under NONE fails with the unassigned-scale error and changes nothing |
| CustomCanvases.CustomCanvas.Update | pygame_screen/pygame_screen/__init__.py:162-183 | the scale step, then the unfloored centered origin with the one scale on both axes; under NONE the error propagates and nothing changes |
| CustomCanvases.CustomCanvas.PositionCanvasToScreen | pygame_screen/pygame_screen/__init__.py:215-223 | each coordinate times the canvas scale, under every fit, ignoring the position |
| CustomCanvases.CustomCanvas.PositionScreenToCanvas | pygame_screen/pygame_screen/__init__.py:225-245 | the floor of the position-relative offset over the scale per axis, under every fit; with clamping within `[0, w] x [0, h]` |
| CustomCanvases.CanvasRoundTrip | pygame_screen/pygame_screen/__init__.py:215-245 | with the canvas at the origin, mapping a canvas point to the screen and back gives the point, for every scale the canvas can have |
| CustomCanvases.CanvasCenterMapsToCenter | pygame_screen/pygame_screen/__init__.py:169-183 | after the position step, the screen's center maps back exactly to the canvas's center pixel |
| CustomCanvases.SameSizeDrawsAtOrigin | pygame_screen/pygame_screen/__init__.py:117-183 | a canvas of the screen's size gets scale 1 under every fit but NONE, and is drawn at the origin |

## Left out

- Everything that goes through pygame is not modelled: getting or creating the display surface, creating surfaces, `fill` (the `clear*` methods), `blit`, the `transform` resampling calls in `update_canvas_scaled` and `blit_canvas_to_screen`, and `mouse.get_pos` (so `get_mouse_position`). These are foreign calls. Surface sizes enter the model as integer inputs, and the smoothing flags are only stored.
- IEEE double rounding is not modelled. Python's true division and products are exact rationals here. Near a whole number, a double ratio can floor or ceil differently from the exact one.
- The `zoom` properties, the colours, the `frame_rate` getter and setter, and `clear_background` are not modelled. Zoom is unused and its `zoom` getter reads an attribute that is never set. The rest only choose what surfaces are filled with, or store a value no logic reads. The initial frame rate of 30 is modelled.
- The property getters are not modelled as methods. They return a field, and the model reads the field directly.
- Screens.Screen.constructor: a canvas size of `None` (adopt the screen's size) is not modelled, and canvas sizes must be positive. A zero-sized canvas would make the Python ratio raise, and that raise is not modelled. Only a `ScreenMatch` canvas may become zero-sized, by copying a zero-sized screen.
- The recreated canvas surface in `ScreenMatch.update` is modelled only by its size.
- CustomCanvases.CustomCanvas.constructor: the Python constructor raises at `Fit()` (line 47), which needs an argument. The class also reads `self.fit`, which is never defined, and `update_scale` writes a stray `self.scale`. The model takes the fit as a constructor argument and stores it in `fit`, and drops the stray attribute. Canvas sizes must be positive: `pygame.Surface` accepts a zero-sized canvas, on which `update_scale` raises `ZeroDivisionError` at lines 128-129, and that raise is not modelled.
- `pygame_screen/pygame_screen/displayresolution.py` is not modelled. It is a constant table of resolutions.
- The `example_1.py` programs are not modelled. They are interactive event loops.
