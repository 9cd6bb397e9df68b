/**
 * The camera display-orientation formula that both activities compute:
 * MainActivity inside setCameraDisplayOrientation, YuvImageActivity inside
 * getScreenOrientation(activity, cameraId).
 *
 * The display's rotation code becomes an angle; a front camera's angle is
 * (360 - degrees) - orientation + 360, a back camera's (360 - degrees) +
 * orientation, any other facing's 0; the result is reduced with Java's %.
 */
module DisplayRotation {
  import opened Android

  /** What Camera.getCameraInfo reports about the camera: its facing and its sensor's mounting angle. */
  datatype CameraInfo = CameraInfo(facing: int, orientation: int)

  /**
   * The display rotation in degrees. The switch has no default branch and
   * `degrees` starts at 0, so a code other than the four Surface constants
   * counts as 0 degrees.
   */
  function RotationDegrees(rotation: int): (d: int)
    ensures ROTATION_0 <= rotation <= ROTATION_270 ==> d == 90 * rotation
    ensures !(ROTATION_0 <= rotation <= ROTATION_270) ==> d == 0
  {
    if rotation == ROTATION_0 then 0
    else if rotation == ROTATION_90 then 90
    else if rotation == ROTATION_180 then 180
    else if rotation == ROTATION_270 then 270
    else 0
  }

  /**
   * Java's % on int: the quotient truncates toward zero, so the remainder
   * takes the dividend's sign (Dafny's own % never goes negative).
   */
  function JavaRem(a: int, b: int): (r: int)
    requires b > 0
    ensures -b < r < b
    ensures a >= 0 ==> r >= 0
    ensures a <= 0 ==> r <= 0
    ensures a == (if a >= 0 then a / b else -((-a) / b)) * b + r
  {
    if a >= 0 then a % b else -((-a) % b)
  }

  /** The value the formula hands to Camera.setDisplayOrientation. */
  function DisplayOrientation(rotation: int, info: CameraInfo): (r: int)
    ensures -360 < r < 360
    ensures 0 <= info.orientation < 360 ==> 0 <= r < 360
    ensures info.facing != CAMERA_FACING_FRONT && info.facing != CAMERA_FACING_BACK ==> r == 0
  {
    var degrees := RotationDegrees(rotation);
    var result :=
      if info.facing == CAMERA_FACING_FRONT then (360 - degrees) - info.orientation + 360
      else if info.facing == CAMERA_FACING_BACK then (360 - degrees) + info.orientation
      else 0;
    JavaRem(result, 360)
  }

  /**
   * What the formula means when the sensor angle is a proper angle: a back
   * camera turns the picture by the sensor angle less the display rotation,
   * a front camera, whose picture is mirrored, by minus their sum (both
   * modulo 360).
   */
  lemma {:induction false} DisplayOrientationCompensates(rotation: int, info: CameraInfo)
    requires 0 <= info.orientation < 360
    ensures info.facing == CAMERA_FACING_BACK ==>
              DisplayOrientation(rotation, info) == (info.orientation - RotationDegrees(rotation)) % 360
    ensures info.facing == CAMERA_FACING_FRONT ==>
              DisplayOrientation(rotation, info) == (-(info.orientation + RotationDegrees(rotation))) % 360
  {
    var d := RotationDegrees(rotation);
    var o := info.orientation;
    if info.facing == CAMERA_FACING_BACK {
      SameRemainder(360 - d + o, o - d, 1);
    } else if info.facing == CAMERA_FACING_FRONT {
      SameRemainder(720 - d - o, -(o + d), 2);
    }
  }

  /** Adding whole turns does not change the Euclidean remainder. */
  lemma SameRemainder(a: int, b: int, turns: nat)
    requires a == b + 360 * turns
    requires a >= 0
    ensures JavaRem(a, 360) == b % 360
  {
  }

  /** Back camera, sensor at 90 degrees, display not rotated: turn by 90. */
  lemma BackCameraUpright()
    ensures DisplayOrientation(ROTATION_0, CameraInfo(CAMERA_FACING_BACK, 90)) == 90
  {
  }

  /** Front camera, sensor at 270 degrees, display a quarter turn: (360 - 90) - 270 + 360 = 360, reduced to 0. */
  lemma FrontCameraQuarterTurn()
    ensures DisplayOrientation(ROTATION_90, CameraInfo(CAMERA_FACING_FRONT, 270)) == 0
  {
  }

  /** An unknown rotation code behaves as ROTATION_0. */
  lemma UnknownRotationIsZero(rotation: int, info: CameraInfo)
    requires !(ROTATION_0 <= rotation <= ROTATION_270)
    ensures DisplayOrientation(rotation, info) == DisplayOrientation(ROTATION_0, info)
  {
  }
}
