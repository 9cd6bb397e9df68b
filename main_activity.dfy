/**
 * What MainActivity adds to the shared models: the screen-orientation
 * classifier getScreenOrientation(), lockScreenOrientation, the degree
 * formula as setCameraDisplayOrientation applies it, and the preview size
 * setOptimalPreview asks the search for.
 */
module MainActivity {
  import opened Wrappers
  import opened Android
  import PreviewSizing
  import DisplayRotation
  import CameraSession

  /** What the classifier reads from the platform: the API level, the display's rotation code and its size in pixels. */
  datatype Screen = Screen(sdkInt: int, rotation: int, widthPixels: int, heightPixels: int)

  /**
   * The test for a device whose natural orientation is portrait: upright or
   * upside down it is taller than wide, turned a quarter it is wider than tall.
   */
  predicate NaturalPortrait(rotation: int, width: int, height: int) {
    || ((rotation == ROTATION_0 || rotation == ROTATION_180) && height > width)
    || ((rotation == ROTATION_90 || rotation == ROTATION_270) && width > height)
  }

  /** The switch for a portrait-natural device, with its PORTRAIT default. */
  function PortraitNaturalOrientation(rotation: int): int {
    if rotation == ROTATION_0 then SCREEN_ORIENTATION_PORTRAIT
    else if rotation == ROTATION_90 then SCREEN_ORIENTATION_LANDSCAPE
    else if rotation == ROTATION_180 then SCREEN_ORIENTATION_REVERSE_PORTRAIT
    else if rotation == ROTATION_270 then SCREEN_ORIENTATION_REVERSE_LANDSCAPE
    else SCREEN_ORIENTATION_PORTRAIT
  }

  /** The switch for a landscape-natural or square device, with its LANDSCAPE default. */
  function LandscapeNaturalOrientation(rotation: int): int {
    if rotation == ROTATION_0 then SCREEN_ORIENTATION_LANDSCAPE
    else if rotation == ROTATION_90 then SCREEN_ORIENTATION_PORTRAIT
    else if rotation == ROTATION_180 then SCREEN_ORIENTATION_REVERSE_LANDSCAPE
    else if rotation == ROTATION_270 then SCREEN_ORIENTATION_REVERSE_PORTRAIT
    else SCREEN_ORIENTATION_LANDSCAPE
  }

  /** getScreenOrientation(): LANDSCAPE below API level 9, otherwise one of the two tables. */
  function ScreenOrientation(screen: Screen): (r: int)
    ensures r in {SCREEN_ORIENTATION_LANDSCAPE, SCREEN_ORIENTATION_PORTRAIT,
                  SCREEN_ORIENTATION_REVERSE_LANDSCAPE, SCREEN_ORIENTATION_REVERSE_PORTRAIT}
    ensures screen.sdkInt < GINGERBREAD ==> r == SCREEN_ORIENTATION_LANDSCAPE
  {
    if screen.sdkInt < GINGERBREAD then SCREEN_ORIENTATION_LANDSCAPE
    else if NaturalPortrait(screen.rotation, screen.widthPixels, screen.heightPixels)
    then PortraitNaturalOrientation(screen.rotation)
    else LandscapeNaturalOrientation(screen.rotation)
  }

  /** The orientation with the screen's axes exchanged: portrait for landscape, reverse portrait for reverse landscape. */
  function SwapAxes(orientation: int): int {
    if orientation == SCREEN_ORIENTATION_PORTRAIT then SCREEN_ORIENTATION_LANDSCAPE
    else if orientation == SCREEN_ORIENTATION_LANDSCAPE then SCREEN_ORIENTATION_PORTRAIT
    else if orientation == SCREEN_ORIENTATION_REVERSE_PORTRAIT then SCREEN_ORIENTATION_REVERSE_LANDSCAPE
    else if orientation == SCREEN_ORIENTATION_REVERSE_LANDSCAPE then SCREEN_ORIENTATION_REVERSE_PORTRAIT
    else orientation
  }

  /** The two tables mirror each other: each entry of one is the other's with the axes exchanged, defaults included. */
  lemma TablesMirror(rotation: int)
    ensures LandscapeNaturalOrientation(rotation) == SwapAxes(PortraitNaturalOrientation(rotation))
    ensures PortraitNaturalOrientation(rotation) == SwapAxes(LandscapeNaturalOrientation(rotation))
  {
  }

  /** The portrait table's default is never taken: an unknown rotation code fails the natural-portrait test. */
  lemma PortraitDefaultUnreachable(rotation: int, width: int, height: int)
    requires NaturalPortrait(rotation, width, height)
    ensures ROTATION_0 <= rotation <= ROTATION_270
  {
  }

  predicate IsPortrait(orientation: int) {
    orientation == SCREEN_ORIENTATION_PORTRAIT || orientation == SCREEN_ORIENTATION_REVERSE_PORTRAIT
  }

  predicate IsReverse(orientation: int) {
    orientation == SCREEN_ORIENTATION_REVERSE_PORTRAIT || orientation == SCREEN_ORIENTATION_REVERSE_LANDSCAPE
  }

  /**
   * From API level 9, for a known rotation code and a screen that is not
   * square, the classifier reports a portrait orientation exactly when the
   * screen is taller than wide, and a reverse one exactly when the display is
   * turned by 180 or 270 degrees, whichever the natural orientation.
   */
  lemma ScreenOrientationMatchesScreen(screen: Screen)
    requires screen.sdkInt >= GINGERBREAD
    requires ROTATION_0 <= screen.rotation <= ROTATION_270
    ensures screen.widthPixels != screen.heightPixels ==>
              (IsPortrait(ScreenOrientation(screen)) <==> screen.heightPixels > screen.widthPixels)
    ensures IsReverse(ScreenOrientation(screen)) <==>
              (screen.rotation == ROTATION_180 || screen.rotation == ROTATION_270)
  {
  }

  /** lockScreenOrientation: request PORTRAIT exactly when the configuration is portrait, LANDSCAPE otherwise. */
  function LockedOrientation(configurationOrientation: int): (r: int)
    ensures r == SCREEN_ORIENTATION_PORTRAIT || r == SCREEN_ORIENTATION_LANDSCAPE
    ensures IsPortrait(r) <==> configurationOrientation == ORIENTATION_PORTRAIT
  {
    if configurationOrientation == ORIENTATION_PORTRAIT then SCREEN_ORIENTATION_PORTRAIT
    else SCREEN_ORIENTATION_LANDSCAPE
  }

  /**
   * The preview size setOptimalPreview asks for: the search, with the
   * classifier's constant passed as the display orientation.
   */
  function PreviewSizeFor(sizes: Option<seq<PreviewSizing.Size>>, width: int, height: int, screen: Screen)
    : (r: Option<PreviewSizing.Size>)
    ensures r.None? <==> sizes.None? || height == 0 || |sizes.value| == 0
    ensures r.Some? ==> sizes.Some? && r.value in sizes.value
  {
    PreviewSizing.OptimalPreviewSize(sizes, width, height, ScreenOrientation(screen))
  }

  /**
   * The classifier's constants are 0, 1, 8 and 9, never 90 or 270, so the
   * search here never turns the target ratio over: it behaves as if the
   * display orientation were 0.
   */
  lemma PreviewSizeNeverInverts(sizes: Option<seq<PreviewSizing.Size>>, width: int, height: int, screen: Screen)
    ensures PreviewSizeFor(sizes, width, height, screen) == PreviewSizing.OptimalPreviewSize(sizes, width, height, 0)
    ensures PreviewSizing.TargetRatio(width, height, ScreenOrientation(screen)) == PreviewSizing.Ratio(width, height)
  {
    PreviewSizing.OrientationMattersOnlyAtQuarterTurns(sizes, width, height, ScreenOrientation(screen), 0);
  }

  /** setCameraDisplayOrientation: apply the degree formula for the camera's info to the handle. */
  method SetCameraDisplayOrientation(camera: CameraSession.CameraHandle, rotation: int, info: DisplayRotation.CameraInfo)
    requires !camera.released
    modifies camera
    ensures camera.displayOrientation == DisplayRotation.DisplayOrientation(rotation, info)
    ensures 0 <= info.orientation < 360 ==> 0 <= camera.displayOrientation < 360
    ensures camera.released == old(camera.released) && camera.previewing == old(camera.previewing)
    ensures camera.hasPreviewCallback == old(camera.hasPreviewCallback)
  {
    var result := DisplayRotation.DisplayOrientation(rotation, info);
    camera.SetDisplayOrientation(result);
  }
}
