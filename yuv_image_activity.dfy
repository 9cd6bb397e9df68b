/**
 * What YuvImageActivity adds to the shared models: its
 * getScreenOrientation(activity, cameraId), which is the degree formula
 * behind an API-level check, the value setCameraDisplayOrientation applies,
 * the preview size setOptimalPreview asks the search for, and the preview
 * callback with its per-frame elapsed-time field and its frame-format gate.
 */
module YuvImageActivity {
  import opened Wrappers
  import opened Android
  import PreviewSizing
  import DisplayRotation
  import CameraSession

  /**
   * getScreenOrientation(activity, cameraId): the LANDSCAPE constant, which
   * is 0, below API level 9, otherwise the degree formula for the camera.
   */
  function ScreenOrientation(sdkInt: int, rotation: int, info: DisplayRotation.CameraInfo): (r: int)
    ensures sdkInt < GINGERBREAD ==> r == SCREEN_ORIENTATION_LANDSCAPE
    ensures 0 <= info.orientation < 360 ==> 0 <= r < 360
  {
    if sdkInt < GINGERBREAD then SCREEN_ORIENTATION_LANDSCAPE
    else DisplayRotation.DisplayOrientation(rotation, info)
  }

  /** setCameraDisplayOrientation: apply exactly what getScreenOrientation computes. */
  method SetCameraDisplayOrientation(camera: CameraSession.CameraHandle, sdkInt: int, rotation: int,
                                     info: DisplayRotation.CameraInfo)
    requires !camera.released
    modifies camera
    ensures camera.displayOrientation == ScreenOrientation(sdkInt, rotation, info)
    ensures camera.released == old(camera.released) && camera.previewing == old(camera.previewing)
    ensures camera.hasPreviewCallback == old(camera.hasPreviewCallback)
  {
    camera.SetDisplayOrientation(ScreenOrientation(sdkInt, rotation, info));
  }

  /** The preview size setOptimalPreview asks for: the search, with the degree value as display orientation. */
  function PreviewSizeFor(sizes: Option<seq<PreviewSizing.Size>>, width: int, height: int,
                          sdkInt: int, rotation: int, info: DisplayRotation.CameraInfo)
    : (r: Option<PreviewSizing.Size>)
    ensures r.None? <==> sizes.None? || height == 0 || |sizes.value| == 0
    ensures r.Some? ==> sizes.Some? && r.value in sizes.value
  {
    PreviewSizing.OptimalPreviewSize(sizes, width, height, ScreenOrientation(sdkInt, rotation, info))
  }

  /**
   * Here the display orientation is in degrees, so the ratio inversion can
   * fire: a back camera mounted at 90 degrees on an upright display yields
   * 90, the 640x480 target becomes 3:4, and the portrait size wins where an
   * orientation of 0 would have picked the landscape one.
   */
  lemma QuarterTurnInvertsTarget()
    ensures var info := DisplayRotation.CameraInfo(CAMERA_FACING_BACK, 90);
            var sizes := [PreviewSizing.Size(640, 480), PreviewSizing.Size(480, 640)];
            && ScreenOrientation(GINGERBREAD, ROTATION_0, info) == 90
            && PreviewSizeFor(Some(sizes), 640, 480, GINGERBREAD, ROTATION_0, info) == Some(PreviewSizing.Size(480, 640))
            && PreviewSizing.OptimalPreviewSize(Some(sizes), 640, 480, 0) == Some(PreviewSizing.Size(640, 480))
  {
    var sizes := [PreviewSizing.Size(640, 480), PreviewSizing.Size(480, 640)];
    var turned := PreviewSizing.TargetRatio(640, 480, 90);
    var upright := PreviewSizing.TargetRatio(640, 480, 0);
    assert !PreviewSizing.AspectClose(sizes[0], turned);
    assert PreviewSizing.AspectClose(sizes[1], turned);
    assert PreviewSizing.IsFirstClosest(sizes, 2, 1, true, turned, 480);
    PreviewSizing.OptimalIsFirstAspectClose(sizes, 640, 480, 90, 1);
    assert PreviewSizing.AspectClose(sizes[0], upright);
    assert PreviewSizing.IsFirstClosest(sizes, 2, 0, true, upright, 480);
    PreviewSizing.OptimalIsFirstAspectClose(sizes, 640, 480, 0, 0);
  }

  /** The frame-format gate: only NV21, YUY2 and NV16 frames are converted. */
  predicate IsYuvFormat(format: int) {
    format == NV21 || format == YUY2 || format == NV16
  }

  /**
   * The `time` one callback computes from the field's previous value: when
   * the field is 0 it is first set to the current time, so the time is 0.
   */
  function FrameTime(previous: int, current: int): int {
    if previous == 0 then 0 else current - previous
  }

  /** The times successive callbacks compute for frames arriving at `arrivals`, starting from the field value `previous`. */
  function ElapsedTimes(previous: int, arrivals: seq<int>): (times: seq<int>)
    ensures |times| == |arrivals|
    ensures |arrivals| > 0 ==> times[0] == FrameTime(previous, arrivals[0])
    ensures forall i :: 0 < i < |arrivals| ==> times[i] == FrameTime(arrivals[i - 1], arrivals[i])
    decreases |arrivals|
  {
    if arrivals == [] then []
    else [FrameTime(previous, arrivals[0])] + ElapsedTimes(arrivals[0], arrivals[1..])
  }

  function Sum(xs: seq<int>): int {
    if xs == [] then 0 else xs[0] + Sum(xs[1..])
  }

  /**
   * While the clock never reads 0, the times shown add up to the span from
   * the first frame (or the time already in the field) to the last one.
   */
  lemma {:induction false} ElapsedTimesTelescope(previous: int, arrivals: seq<int>)
    requires |arrivals| > 0
    requires forall i :: 0 <= i < |arrivals| ==> arrivals[i] != 0
    ensures Sum(ElapsedTimes(previous, arrivals)) ==
              arrivals[|arrivals| - 1] - (if previous == 0 then arrivals[0] else previous)
    decreases |arrivals|
  {
    if |arrivals| > 1 {
      ElapsedTimesTelescope(arrivals[0], arrivals[1..]);
    }
  }

  /**
   * A frame at time 0 leaves the field at 0, so the next frame counts as a
   * first frame again: frames at 0 and 1000 show 0 and 0, not 0 and 1000.
   */
  lemma ZeroClockRestartsTiming()
    ensures ElapsedTimes(0, [0, 1000]) == [0, 0]
    ensures ElapsedTimes(0, [1, 1001]) == [0, 1000]
  {
  }

  /** The label text: "" when the field holds 0, otherwise the time and " мс". */
  datatype Label = Blank | Millis(ms: int)

  /** What a converted frame posts to the UI thread: the rotation applied to the bitmap, and the label. */
  datatype FrameUpdate = FrameUpdate(rotateBy: int, text: Label)

  /** The label for a frame, given the field's value when the label is written and the frame's time. */
  function LabelFor(elapsedField: int, time: int): Label {
    if elapsedField == 0 then Blank else Millis(time)
  }

  /**
   * The preview callback and the `elapsedTime` field it updates (the previous
   * frame's arrival time, 0 before any frame). In the source the field belongs
   * to the activity, not to the callback object; each activity holds exactly
   * one callback and nothing else touches the field, so keeping it here
   * changes no behaviour.
   */
  class PreviewCallback {
    var elapsedTime: int

    constructor ()
      ensures elapsedTime == 0
    {
      elapsedTime := 0;
    }

    /**
     * onPreviewFrame, with the clock reading as a parameter: the field is
     * updated for every frame, and only a frame in a YUV format produces an
     * update for the UI, rotated by getScreenOrientation and labelled with
     * the frame's time.
     */
    method OnPreviewFrame(currentTime: int, format: int, sdkInt: int, rotation: int,
                          info: DisplayRotation.CameraInfo)
      returns (update: Option<FrameUpdate>)
      modifies this
      ensures elapsedTime == currentTime
      ensures update.Some? <==> IsYuvFormat(format)
      ensures update.Some? ==>
                update.value.rotateBy == ScreenOrientation(sdkInt, rotation, info) &&
                update.value.text == LabelFor(currentTime, FrameTime(old(elapsedTime), currentTime))
    {
      if elapsedTime == 0 {
        elapsedTime := currentTime;
      }
      var time := currentTime - elapsedTime;
      elapsedTime := currentTime;

      if format == NV21 || format == YUY2 || format == NV16 {
        var rotateBy := ScreenOrientation(sdkInt, rotation, info);
        var text := if elapsedTime == 0 then Blank else Millis(time);
        update := Some(FrameUpdate(rotateBy, text));
      } else {
        update := None;
      }
    }
  }

  /**
   * Three frames, the second in an unsupported format: it is dropped but
   * still timed, so the third shows the time since the second. The first
   * frame shows "0 мс" rather than nothing, because the label tests the
   * field after it has been set to the current time.
   */
  method DroppedFrameIsStillTimed() returns (updates: seq<Option<FrameUpdate>>)
    ensures updates == [Some(FrameUpdate(90, Millis(0))), None, Some(FrameUpdate(90, Millis(300)))]
  {
    var callback := new PreviewCallback();
    var info := DisplayRotation.CameraInfo(CAMERA_FACING_BACK, 90);
    var first := callback.OnPreviewFrame(1000, NV21, GINGERBREAD, ROTATION_0, info);
    var second := callback.OnPreviewFrame(1500, 42, GINGERBREAD, ROTATION_0, info);
    var third := callback.OnPreviewFrame(1800, YUY2, GINGERBREAD, ROTATION_0, info);
    updates := [first, second, third];
  }

  /**
   * A run of frames delivered to the callback one after another, all in the
   * camera's preview format: the callback's labels are exactly the times
   * ElapsedTimes computes from the field's starting value, so what is proved
   * about ElapsedTimes holds for what the screen shows.
   */
  method ReceiveFrames(callback: PreviewCallback, arrivals: seq<int>, format: int, sdkInt: int,
                       rotation: int, info: DisplayRotation.CameraInfo)
    returns (updates: seq<Option<FrameUpdate>>)
    modifies callback
    ensures callback.elapsedTime == if arrivals == [] then old(callback.elapsedTime) else arrivals[|arrivals| - 1]
    ensures |updates| == |arrivals|
    ensures forall i :: 0 <= i < |arrivals| ==>
              updates[i] == if IsYuvFormat(format)
                            then Some(FrameUpdate(ScreenOrientation(sdkInt, rotation, info),
                                                  LabelFor(arrivals[i], ElapsedTimes(old(callback.elapsedTime), arrivals)[i])))
                            else None
  {
    ghost var times := ElapsedTimes(callback.elapsedTime, arrivals);
    ghost var previous := callback.elapsedTime;
    updates := [];
    for i := 0 to |arrivals|
      invariant |updates| == i
      invariant callback.elapsedTime == if i == 0 then previous else arrivals[i - 1]
      invariant forall j :: 0 <= j < i ==>
                  updates[j] == if IsYuvFormat(format)
                                then Some(FrameUpdate(ScreenOrientation(sdkInt, rotation, info),
                                                      LabelFor(arrivals[j], times[j])))
                                else None
    {
      var update := callback.OnPreviewFrame(arrivals[i], format, sdkInt, rotation, info);
      updates := updates + [update];
    }
  }
}
