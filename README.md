# CameraStream: a verified model of the preview-sizing, orientation and camera-handle logic

CameraStream is an Android app with two near-identical screens, `MainActivity` and
`YuvImageActivity`. Each screen opens the device camera, shows a live preview and
converts every preview frame to a still bitmap. Nearly all of its code is platform
plumbing. This project models the small integer kernel that remains, and proves
properties of it:

- **The best-fit preview-size search** `getOptimalPreviewSize` (`preview_sizing.dfy`,
  module `PreviewSizing`). Both activities carry identical copies, so there is one
  model. It uses two scans over the supported sizes:
  - the first keeps the size whose height is closest to the target, among the sizes
    whose aspect ratio is within 0.1 of the target ratio;
  - the second runs only when the first kept nothing, and keeps the closest height
    over the whole list.
  - Both scans replace their choice only on a strictly smaller difference, so the
    first size wins a tie.
  - `GetOptimalPreviewSize` is the two loops, with `optimalSize` and `minDiff`
    updated in place. It is proved equal to the specification function
    `OptimalPreviewSize`.
  - The lemmas prove what that function promises. It returns null exactly for a null
    list, a zero height or an empty list. It returns a member of the list. That
    member is the first closest aspect-close size, or the first closest size overall
    when no size is aspect-close.
- **The camera display-orientation formula** (`display_rotation.dfy`, module
  `DisplayRotation`). Rotation codes 0..3 become 0/90/180/270 degrees. The front- and
  back-camera formulas are then reduced with Java's truncating `%`.
- **MainActivity's own functions** (`main_activity.dfy`):
  - the screen-orientation classifier, with its two mirrored rotation tables;
  - `lockScreenOrientation`;
  - `setCameraDisplayOrientation`;
  - the size `setOptimalPreview` asks for. That call passes the classifier's
    `ActivityInfo` constant as the display orientation. The constant is never 90 or
    270, so the ratio inversion can never fire from there.
- **YuvImageActivity's own functions** (`yuv_image_activity.dfy`):
  - `getScreenOrientation(activity, cameraId)`, which is the degree formula behind an
    API-level check. `setCameraDisplayOrientation` applies it as is;
  - the size `setOptimalPreview` asks for. Here the inversion can fire;
  - the preview callback, a class with the `elapsedTime` field and the frame-format
    gate (NV21, YUY2, NV16).
- **The camera-handle lifecycle** `startCamera`/`stopCamera` (`camera_session.dfy`),
  identical in both activities:
  - a `Session` class over the nullable `camera` field;
  - a `CameraHandle` class whose flags stand for the platform's camera state;
  - a ghost set of every handle ever opened. The invariant `Valid()` keeps at most one
    of those handles live.

`android.dfy` holds the platform constants with their SDK values. `option.dfy` holds
the `Option` type that stands for a nullable Java reference.

## Notes on the source

- The first frame is labelled "0 мс", not left blank. The label at
  YuvImageActivity.java:235 tests `elapsedTime`, and line 194 has already set
  it to the current time (`YuvImageActivity.DroppedFrameIsStillTimed`).
- A clock reading of 0 leaves `elapsedTime` at 0 (YuvImageActivity.java:191-194),
  so the next frame counts as a first frame again: frames at 0 and 1000 both report
  0 (`YuvImageActivity.ZeroClockRestartsTiming`).
- The rotation is read as a `Surface` rotation code 0..3 (MainActivity.java:245),
  and the switch at MainActivity.java:246-260 has no default, so any other code
  counts as 0 degrees.
- The classifier does not receive the device's natural orientation. It derives it
  from the rotation code and the display's size in pixels (MainActivity.java:282-290).
- The search returns null for a null list as well as for a zero height
  (MainActivity.java:210-211), and for an empty list, which neither scan fills.

## Model

| member | source | states |
|---|---|---|
| PreviewSizing.GetOptimalPreviewSize | app/src/main/java/com/example/camerastream/MainActivity.java:207-239 | The two-scan loop code, with `optimalSize` and `minDiff` (None for Double.MAX_VALUE) updated in place. It returns exactly `OptimalPreviewSize`. The copy at YuvImageActivity.java:244-276 is identical. |
| PreviewSizing.OptimalPreviewSize | app/src/main/java/com/example/camerastream/MainActivity.java:210-238 | The result is null exactly when the list is null, the height is 0 or the list is empty. Any size returned is a member of the list. |
| PreviewSizing.ScanIndex | app/src/main/java/com/example/camerastream/MainActivity.java:220-227 | One scan, as the loop performs it: any index kept lies within the part scanned and passes that scan's filter. |
| PreviewSizing.ScanFindsFirstClosest | app/src/main/java/com/example/camerastream/MainActivity.java:220-236 | A scan keeps nothing exactly when no size passes its filter. Otherwise it keeps the first of the eligible sizes whose height is closest to the target, because the updates use strict `<`. |
| PreviewSizing.FirstClosestUnique | app/src/main/java/com/example/camerastream/MainActivity.java:223 | Under strict-`<` tie-breaking, at most one index is the first closest. |
| PreviewSizing.OptimalIndex | app/src/main/java/com/example/camerastream/MainActivity.java:220-237 | The first scan's choice, else the fallback's. There is no index exactly when the list is empty. |
| PreviewSizing.OptimalWithinTolerance | app/src/main/java/com/example/camerastream/MainActivity.java:220-227 | If some size is within 0.1 of the target ratio, the result is such a size, and no such size is closer in height. |
| PreviewSizing.OptimalIsFirstAspectClose | app/src/main/java/com/example/camerastream/MainActivity.java:220-227 | If some size is within tolerance, the result is the first of the within-tolerance sizes closest in height. |
| PreviewSizing.OptimalFallback | app/src/main/java/com/example/camerastream/MainActivity.java:229-237 | If no size is within tolerance, the result is the first size of the whole list closest in height. |
| PreviewSizing.OrientationMattersOnlyAtQuarterTurns | app/src/main/java/com/example/camerastream/MainActivity.java:216-217 | The display orientation affects the result only through the test for 90 or 270. |
| PreviewSizing.AspectCloseByCrossMultiplying | app/src/main/java/com/example/camerastream/MainActivity.java:221-222 | With both denominators nonzero, the ratio test `abs(w/h - target) <= 0.1` is the exact integer comparison 10·abs(w·den − num·h) ≤ abs(h·den). |
| PreviewSizing.SquareTargetFallsBack | app/src/main/java/com/example/camerastream/MainActivity.java:229-237 | For sizes (320,240), (640,480), (800,600), target (200,200) and orientation 0, no ratio is within 0.1 of 1.0, and the fallback returns (320,240). |
| DisplayRotation.RotationDegrees | app/src/main/java/com/example/camerastream/MainActivity.java:245-260 | Rotation codes 0..3 give 90·code degrees. Any other code gives 0. |
| DisplayRotation.JavaRem | app/src/main/java/com/example/camerastream/MainActivity.java:272 | Java's `%`: a equals the truncated quotient times b plus the remainder, and the remainder lies strictly between −b and b and takes the dividend's sign; together these fix the value. |
| DisplayRotation.DisplayOrientation | app/src/main/java/com/example/camerastream/MainActivity.java:262-272 | The result lies in (−360, 360), and in [0, 360) whenever the sensor orientation is in [0, 360). A facing that is neither front nor back gives 0. |
| DisplayRotation.DisplayOrientationCompensates | app/src/main/java/com/example/camerastream/MainActivity.java:266-272 | For a sensor angle in [0, 360): a back camera turns the picture by (sensor − display) mod 360, and a front camera by −(sensor + display) mod 360. |
| DisplayRotation.BackCameraUpright | app/src/main/java/com/example/camerastream/MainActivity.java:268-272 | BACK camera, sensor 90, rotation 0 gives 90. |
| DisplayRotation.FrontCameraQuarterTurn | app/src/main/java/com/example/camerastream/MainActivity.java:266-272 | FRONT camera, sensor 270, rotation 90 gives (360−90)−270+360 = 360, which reduces to 0. |
| DisplayRotation.UnknownRotationIsZero | app/src/main/java/com/example/camerastream/MainActivity.java:246-260 | An unknown rotation code gives the same result as ROTATION_0. |
| MainActivity.ScreenOrientation | app/src/main/java/com/example/camerastream/MainActivity.java:278-336 | The classifier returns LANDSCAPE below API level 9. Otherwise it returns one of LANDSCAPE, PORTRAIT, REVERSE_LANDSCAPE, REVERSE_PORTRAIT (0, 1, 8, 9). |
| MainActivity.TablesMirror | app/src/main/java/com/example/camerastream/MainActivity.java:291-333 | The portrait-natural and landscape-natural tables are mirrors: each entry, defaults included, is the other table's entry with portrait and landscape exchanged. |
| MainActivity.PortraitDefaultUnreachable | app/src/main/java/com/example/camerastream/MainActivity.java:289-308 | The portrait table is entered only for rotation codes 0..3, so its default branch is dead. |
| MainActivity.ScreenOrientationMatchesScreen | app/src/main/java/com/example/camerastream/MainActivity.java:282-333 | From API level 9, with a known rotation code, the result is a portrait orientation exactly when the screen is taller than wide (for a non-square screen). It is a reverse orientation exactly when the rotation is 180 or 270. |
| MainActivity.LockedOrientation | app/src/main/java/com/example/camerastream/MainActivity.java:121-128 | lockScreenOrientation requests PORTRAIT exactly when the configuration is portrait, and LANDSCAPE otherwise. |
| MainActivity.PreviewSizeFor | app/src/main/java/com/example/camerastream/MainActivity.java:136-139 | The size setOptimalPreview asks for, with the classifier's constant as display orientation: none exactly when the list is null or empty or the height is 0, otherwise a member of the list. |
| MainActivity.PreviewSizeNeverInverts | app/src/main/java/com/example/camerastream/MainActivity.java:138-139 | The classifier's constant is passed as the display orientation, so the target ratio is always width/height. The search behaves exactly as with orientation 0. |
| MainActivity.SetCameraDisplayOrientation | app/src/main/java/com/example/camerastream/MainActivity.java:243-274 | The handle's display orientation becomes the degree formula's value, in [0, 360) for a proper sensor angle. Nothing else about the handle changes. |
| YuvImageActivity.ScreenOrientation | app/src/main/java/com/example/camerastream/YuvImageActivity.java:284-318 | Below API level 9 the result is the LANDSCAPE constant 0. Otherwise it is the degree formula, so it lies in [0, 360) for a sensor angle in [0, 360). |
| YuvImageActivity.SetCameraDisplayOrientation | app/src/main/java/com/example/camerastream/YuvImageActivity.java:279-281 | The handle's display orientation becomes exactly what getScreenOrientation computes. |
| YuvImageActivity.PreviewSizeFor | app/src/main/java/com/example/camerastream/YuvImageActivity.java:141-144 | The size setOptimalPreview asks for, with getScreenOrientation's degrees as display orientation: none exactly when the list is null or empty or the height is 0, otherwise a member of the list. |
| YuvImageActivity.QuarterTurnInvertsTarget | app/src/main/java/com/example/camerastream/YuvImageActivity.java:143-144 | Here the degree value reaches the search, so the ratio inversion fires. With a back camera at 90 degrees and target 640x480, the search over (640,480), (480,640) picks (480,640); with orientation 0 it picks (640,480). |
| YuvImageActivity.ElapsedTimes | app/src/main/java/com/example/camerastream/YuvImageActivity.java:190-194 | One time per frame: the first from the field's starting value, each later one from the previous frame's arrival (0 when that value is 0, otherwise the difference). |
| YuvImageActivity.ElapsedTimesTelescope | app/src/main/java/com/example/camerastream/YuvImageActivity.java:190-194 | While the clock never reads 0, the times add up to the last arrival minus the first (or minus the time already in the field). |
| YuvImageActivity.ZeroClockRestartsTiming | app/src/main/java/com/example/camerastream/YuvImageActivity.java:191-194 | Frames at 0 and 1000 report 0 and 0, because a field of 0 means "no previous frame". Frames at 1 and 1001 report 0 and 1000. |
| YuvImageActivity.PreviewCallback.constructor | app/src/main/java/com/example/camerastream/YuvImageActivity.java:35 | The `elapsedTime` field starts at 0. |
| YuvImageActivity.PreviewCallback.OnPreviewFrame | app/src/main/java/com/example/camerastream/YuvImageActivity.java:188-239 | After every frame the field equals the current time, dropped frames included. An update reaches the UI exactly when the format is NV21, YUY2 or NV16. The update carries the rotation from getScreenOrientation and a label holding the frame's time (0 on a first frame, otherwise current − previous). |
| YuvImageActivity.DroppedFrameIsStillTimed | app/src/main/java/com/example/camerastream/YuvImageActivity.java:190-235 | Frames at 1000 (NV21), 1500 (unknown format) and 1800 (YUY2) yield an update labelled 0, no update, and an update labelled 300. |
| YuvImageActivity.ReceiveFrames | app/src/main/java/com/example/camerastream/YuvImageActivity.java:188-235 | Frames delivered one after another: the field ends at the last arrival, and the i-th update is present exactly for a YUV format and carries the label for the i-th of ElapsedTimes, so the telescoping lemma speaks of what the callback shows. |
| CameraSession.Session.constructor | app/src/main/java/com/example/camerastream/MainActivity.java:30 | The `camera` field starts out null. |
| CameraSession.Session.AtMostOneLive | app/src/main/java/com/example/camerastream/MainActivity.java:70-102 | In a valid session no two distinct opened handles are unreleased at the same time. |
| CameraSession.Session.StartCamera | app/src/main/java/com/example/camerastream/MainActivity.java:70-91 | The result is true exactly when the device has a camera and the open succeeds. Without a camera, nothing changes: neither the session nor the handle it holds. With a camera, the previous handle is released before the open. On success the field holds a fresh, unreleased handle. On failure the field is not reassigned. At most one handle stays live. The copy at YuvImageActivity.java:75-96 is identical. |
| CameraSession.Session.StopCamera | app/src/main/java/com/example/camerastream/MainActivity.java:93-102 | Afterwards the field is null. A handle that was there has its preview callback cleared, its preview stopped and is released. With null already in the field nothing changes, so a second stop is a no-op. The copy at YuvImageActivity.java:98-107 is identical. |
| CameraSession.StaleHandleAfterFailedReopen | app/src/main/java/com/example/camerastream/MainActivity.java:72-83 | After a successful start, a start whose open fails leaves a released handle in the field, which stopCamera's platform calls cannot accept. |
| CameraSession.Session.StartCameraClearingReleased | app/src/main/java/com/example/camerastream/MainActivity.java:70-91 | startCamera with the field cleared after the release: the same result, the same release-before-open, nothing changed without a camera, and with a camera the field ends null or live. |
| CameraSession.NoStaleHandleWhenCleared | app/src/main/java/com/example/camerastream/MainActivity.java:72-83 | With the corrected start, the same two starts leave the field null, so stopCamera can be called. |

## Findings

| source | as written | input that shows it | evidently intended | confidence | as-written member | corrected member |
|---|---|---|---|---|---|---|
| app/src/main/java/com/example/camerastream/MainActivity.java:72-83 (same at YuvImageActivity.java:77-88) | `camera.release()` is called, but `camera` is reassigned only if `Camera.open()` succeeds. | `camera` holds an open handle, the device has a camera, and `Camera.open()` throws. The field is left holding the released handle. `finish()` then leads to `onPause` → `stopCamera`, which calls `setPreviewCallback`, `stopPreview` and `release` on that released handle. The platform rejects calls on a released camera. | Set `camera = null` right after `camera.release()`, so that a failed open leaves the field null. | medium; not executed | CameraSession.StaleHandleAfterFailedReopen (with CameraSession.Session.StartCamera) | CameraSession.Session.StartCameraClearingReleased (used by CameraSession.NoStaleHandleWhenCleared) |

## Left out

- PreviewSizing.GetOptimalPreviewSize: the ratio test uses exact real arithmetic, not IEEE-754 doubles. The model can differ from Java only when `abs(ratio - targetRatio)` lies at the 0.1 boundary. Zero denominators, where Java gets Infinity or NaN, are modelled: such a size is never within tolerance.
- PreviewSizing.GetOptimalPreviewSize: Java's 32-bit `int` overflow in `size.height - targetHeight` is not modelled. Integers are unbounded, which matters only for heights near ±2^31.
- DisplayRotation.DisplayOrientation: 32-bit overflow of `(360 - degrees) ± orientation` is not modelled. It matters only for sensor orientations near ±2^31; the platform reports 0..359.
- YuvImageActivity.PreviewCallback.OnPreviewFrame: `long` overflow of `currentTime - elapsedTime` is not modelled.
- YuvImageActivity.PreviewCallback.OnPreviewFrame: the label is modelled as the UI thread would write it at once. In the source the label reads `elapsedTime` later, on the UI thread (`runOnUiThread`), so a newer frame may already have changed the field. The thread handoff and the `synchronized` callback are not modelled.
- `System.currentTimeMillis()` is the `currentTime` parameter. `hasCamera` and the success of `Camera.open()` are parameters of `StartCamera`. The display's rotation, its size in pixels, the API level, the camera info and the configuration's orientation are parameters too.
- The image conversion is not modelled: `YuvImage.compressToJpeg`, `BitmapFactory.decodeByteArray`, `Matrix.postRotate` and `Bitmap.createBitmap` are platform codecs and float transforms. The model records only the rotation requested and whether an image is produced.
- The `Camera.Parameters` calls are not modelled: `setPreviewSize`, `setParameters` and its swallowed failure, `setPreviewDisplay`, `startPreview` and the preview-callback registration in `setOptimalPreview`. These are platform calls; only the size and orientation that `setOptimalPreview` computes are modelled. `CameraHandle`'s methods are abstract actions for the handle calls that `stopCamera` and `setCameraDisplayOrientation` make.
- `refreshCamera` and the activity and surface callbacks are not modelled: `onCreate`, `onResume`, `onPause` and `surfaceCreated`/`Changed`/`Destroyed`. This is framework glue; it only calls the modelled operations. Toasts, `finish()` and the window flags are left out for the same reason.
- MainActivity's own `onPreviewFrame` converts every frame, with no format gate and no timing. It is image conversion only, so it is not modelled.
- The commented-out SD-card writing in `YuvImageActivity.onPreviewFrame` is dead code.
