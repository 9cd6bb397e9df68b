/**
 * The camera-handle lifecycle of startCamera and stopCamera, identical in
 * both activities: a nullable `camera` field, released and reopened on
 * start, stopped and cleared on stop.
 *
 * The platform's camera calls are abstract actions on a CameraHandle's flags.
 * Whether the device has a camera and whether Camera.open() succeeds are
 * parameters. Every handle the session has ever opened is recorded in the
 * ghost set `handles`; Valid() says that all of them except the one in the field
 * are released, so at most one handle is live at any time.
 */
module CameraSession {

  /** A handle returned by Camera.open(). */
  class CameraHandle {
    var released: bool
    var previewing: bool
    var hasPreviewCallback: bool
    var displayOrientation: int

    /** Camera.open() when it succeeds: a new handle, not yet previewing. */
    constructor Open()
      ensures !released && !previewing && !hasPreviewCallback && displayOrientation == 0
    {
      released, previewing, hasPreviewCallback, displayOrientation := false, false, false, 0;
    }

    /** Camera.setPreviewCallback; the platform refuses it on a released handle. */
    method SetPreviewCallback(install: bool)
      requires !released
      modifies this
      ensures hasPreviewCallback == install
      ensures released == old(released) && previewing == old(previewing)
      ensures displayOrientation == old(displayOrientation)
    {
      hasPreviewCallback := install;
    }

    /** Camera.stopPreview; the platform refuses it on a released handle. */
    method StopPreview()
      requires !released
      modifies this
      ensures !previewing
      ensures released == old(released) && hasPreviewCallback == old(hasPreviewCallback)
      ensures displayOrientation == old(displayOrientation)
    {
      previewing := false;
    }

    /** Camera.setDisplayOrientation; the platform refuses it on a released handle. */
    method SetDisplayOrientation(degrees: int)
      requires !released
      modifies this
      ensures displayOrientation == degrees
      ensures released == old(released) && previewing == old(previewing)
      ensures hasPreviewCallback == old(hasPreviewCallback)
    {
      displayOrientation := degrees;
    }

    /** Camera.release; releasing twice is harmless. */
    method Release()
      modifies this
      ensures released
      ensures previewing == old(previewing) && hasPreviewCallback == old(hasPreviewCallback)
      ensures displayOrientation == old(displayOrientation)
    {
      released := true;
    }
  }

  /** The activity's `camera` field and the handles it has held. */
  class Session {
    var camera: CameraHandle?
    ghost var handles: set<CameraHandle>

    /** Every handle ever opened, apart from the one in the field, is released. */
    ghost predicate Valid()
      reads this, handles
    {
      && (camera != null ==> camera in handles)
      && forall h :: h in handles && h != camera ==> h.released
    }

    /** The field is null or holds a handle that can still be used. */
    ghost predicate Live()
      reads this, handles
    {
      camera != null ==> camera in handles && !camera.released
    }

    /** The field starts out null. */
    constructor ()
      ensures Valid() && Live()
      ensures camera == null && handles == {}
    {
      camera := null;
      handles := {};
    }

    /** In a valid session no two distinct handles are live at once. */
    lemma AtMostOneLive(h1: CameraHandle, h2: CameraHandle)
      requires Valid()
      requires h1 in handles && h2 in handles && !h1.released && !h2.released
      ensures h1 == h2
    {
    }

    /**
     * startCamera as written. Without a camera it changes nothing and
     * returns false. Otherwise it releases the handle in the field, if any,
     * and opens a new one; when the open fails it returns false and the field
     * keeps the handle it just released.
     */
    method StartCamera(hasCamera: bool, openSucceeds: bool) returns (started: bool)
      requires Valid()
      modifies this, camera
      ensures Valid()
      ensures started <==> hasCamera && openSucceeds
      ensures !hasCamera ==> camera == old(camera) && handles == old(handles)
      ensures !hasCamera && old(camera) != null ==> old(camera).released == old(camera.released)
      ensures !hasCamera ==> unchanged(this) && (old(camera) != null ==> unchanged(old(camera)))
      ensures hasCamera && old(camera) != null ==> old(camera).released
      ensures started ==> camera != null && fresh(camera) && handles == old(handles) + {camera}
      ensures started ==> !camera.released && !camera.previewing && !camera.hasPreviewCallback
      ensures hasCamera && !openSucceeds ==> camera == old(camera) && handles == old(handles)
      ensures started ==> Live()
    {
      if hasCamera {
        if camera != null {
          camera.Release();
        }
        if openSucceeds {
          camera := new CameraHandle.Open();
          handles := handles + {camera};
        } else {
          return false;
        }
      } else {
        return false;
      }
      return true;
    }

    /**
     * startCamera with the released handle cleared from the field before the
     * open, so a failed open leaves null there instead of a dead handle.
     */
    method StartCameraClearingReleased(hasCamera: bool, openSucceeds: bool) returns (started: bool)
      requires Valid()
      modifies this, camera
      ensures Valid()
      ensures hasCamera ==> Live()
      ensures started <==> hasCamera && openSucceeds
      ensures !hasCamera ==> camera == old(camera) && handles == old(handles)
      ensures !hasCamera && old(camera) != null ==> old(camera).released == old(camera.released)
      ensures !hasCamera ==> unchanged(this) && (old(camera) != null ==> unchanged(old(camera)))
      ensures hasCamera && old(camera) != null ==> old(camera).released
      ensures started ==> camera != null && fresh(camera) && handles == old(handles) + {camera}
      ensures started ==> !camera.released && !camera.previewing && !camera.hasPreviewCallback
      ensures hasCamera && !openSucceeds ==> camera == null && handles == old(handles)
    {
      if hasCamera {
        if camera != null {
          camera.Release();
          camera := null;
        }
        if openSucceeds {
          camera := new CameraHandle.Open();
          handles := handles + {camera};
        } else {
          return false;
        }
      } else {
        return false;
      }
      return true;
    }

    /**
     * stopCamera: with a handle in the field, clear its preview callback,
     * stop its preview, release it and set the field to null; with null in
     * the field, do nothing.
     */
    method StopCamera()
      requires Valid() && Live()
      modifies this, camera
      ensures Valid() && Live()
      ensures camera == null && handles == old(handles)
      ensures old(camera) != null ==>
                old(camera).released && !old(camera).previewing && !old(camera).hasPreviewCallback
      ensures old(camera) == null ==> unchanged(this)
    {
      if camera != null {
        camera.SetPreviewCallback(false);
        camera.StopPreview();
        camera.Release();
        camera := null;
      }
    }
  }

  /**
   * The as-written startCamera leaves the session unusable: after a
   * successful start, a second start whose open fails keeps the released
   * handle in the field, and stopCamera would then call the platform on it.
   */
  method StaleHandleAfterFailedReopen() returns (session: Session)
    ensures session.Valid() && !session.Live()
  {
    session := new Session();
    var started := session.StartCamera(true, true);
    started := session.StartCamera(true, false);
  }

  /** With the field cleared first, the same two starts leave a session stopCamera accepts. */
  method NoStaleHandleWhenCleared() returns (session: Session)
    ensures session.Valid() && session.Live() && session.camera == null
  {
    session := new Session();
    var started := session.StartCameraClearingReleased(true, true);
    started := session.StartCameraClearingReleased(true, false);
  }
}
