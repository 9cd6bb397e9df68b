/**
 * The Android platform constants the two activities compare against.
 * Their values are those of the Android SDK; the names keep the SDK's
 * spelling so that each use reads like the Java it models.
 */
module Android {
  // android.view.Surface: the display rotation codes.
  const ROTATION_0 := 0
  const ROTATION_90 := 1
  const ROTATION_180 := 2
  const ROTATION_270 := 3

  // android.content.pm.ActivityInfo: requested screen orientations.
  const SCREEN_ORIENTATION_LANDSCAPE := 0
  const SCREEN_ORIENTATION_PORTRAIT := 1
  const SCREEN_ORIENTATION_REVERSE_LANDSCAPE := 8
  const SCREEN_ORIENTATION_REVERSE_PORTRAIT := 9

  // android.hardware.Camera.CameraInfo: which way a camera faces.
  const CAMERA_FACING_BACK := 0
  const CAMERA_FACING_FRONT := 1

  // android.graphics.ImageFormat: the preview formats YuvImage accepts.
  const NV16 := 16
  const NV21 := 17
  const YUY2 := 20

  // android.content.res.Configuration: the configuration's orientation.
  const ORIENTATION_PORTRAIT := 1
  const ORIENTATION_LANDSCAPE := 2

  // android.os.Build.VERSION_CODES.GINGERBREAD: the first API level with
  // Display.getRotation and Camera.CameraInfo.
  const GINGERBREAD := 9
}
