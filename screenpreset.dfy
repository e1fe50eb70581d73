/** What the preset classes promise once they are updated against a screen: the retro
    presets settle on whole-number scales, the modern ones on the exact fractional fit. */
module ScreenPresets {
  import opened Viewport
  import opened ScreenFit
  import opened Screens

  /** A `ScreenRetroContain` and a `ScreenModernContain` over the same canvas, each updated
      for the same screen: the retro scale is whole, the modern one is exactly the smaller
      ratio (at least 1), and the retro scale is the modern one floored. */
  method ContainPresetScales(canvasWidth: int, canvasHeight: int, screenWidth: nat, screenHeight: nat)
    returns (retro: real, modern: real)
    requires canvasWidth > 0 && canvasHeight > 0
    ensures retro >= 1.0 && IsWhole(retro)
    ensures modern == Max(Min(Ratio(screenWidth, canvasWidth), Ratio(screenHeight, canvasHeight)), 1.0)
    ensures retro == modern.Floor as real
  {
    var sharp := new Screen.RetroContain(canvasWidth, canvasHeight);
    sharp.Update(screenWidth, screenHeight);
    var smooth := new Screen.ModernContain(canvasWidth, canvasHeight);
    smooth.Update(screenWidth, screenHeight);
    retro, modern := sharp.scaleX, smooth.scaleX;
  }

  /** A `ScreenRetroCover` and a `ScreenModernCover` over the same canvas, each updated for
      the same screen: the retro scale is whole, the modern one is
      exactly the larger ratio (at least 1), and the retro scale is the modern one ceiled. */
  method CoverPresetScales(canvasWidth: int, canvasHeight: int, screenWidth: nat, screenHeight: nat)
    returns (retro: real, modern: real)
    requires canvasWidth > 0 && canvasHeight > 0
    ensures retro >= 1.0 && IsWhole(retro)
    ensures modern == Max(Max(Ratio(screenWidth, canvasWidth), Ratio(screenHeight, canvasHeight)), 1.0)
    ensures retro == Ceil(modern) as real
  {
    var rx, ry := Ratio(screenWidth, canvasWidth), Ratio(screenHeight, canvasHeight);
    var sharp := new Screen.RetroCover(canvasWidth, canvasHeight);
    sharp.Update(screenWidth, screenHeight);
    var smooth := new Screen.ModernCover(canvasWidth, canvasHeight);
    smooth.Update(screenWidth, screenHeight);
    retro, modern := sharp.scaleX, smooth.scaleX;
    assert retro == CoverScale(rx, ry, true);
    assert modern == CoverScale(rx, ry, false);
  }

  /** A `ScreenRetroFill` updated for a screen stretches each axis independently to exactly
      the screen's size and draws at the origin. */
  method FillPresetUpdate(canvasWidth: int, canvasHeight: int, screenWidth: nat, screenHeight: nat)
    returns (scaleX: real, scaleY: real, position: Point)
    requires canvasWidth > 0 && canvasHeight > 0
    ensures scaleX * canvasWidth as real == screenWidth as real
    ensures scaleY * canvasHeight as real == screenHeight as real
    ensures position == Point(0, 0)
  {
    var fill := new Screen.RetroFill(canvasWidth, canvasHeight);
    fill.Update(screenWidth, screenHeight);
    scaleX, scaleY, position := fill.scaleX, fill.scaleY, fill.position;
  }
}
