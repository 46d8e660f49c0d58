/**
 * The shared camera handle (`CameraManager` in Face+Chat/shared/camera.py).
 *
 * OpenCV is outside the model: whether it imported (`OPENCV_OK`), what
 * `cv2.VideoCapture(index)` yields and what one `cap.read()` returns are
 * inputs. The colour conversion of a frame is not modelled; a frame is an
 * opaque value.
 */
module Camera {
  import opened Wrappers

  /** What acquiring the device yields: a handle that reports `isOpened()`, or an exception. */
  datatype Acquisition = Acquired(isOpened: bool) | Raised

  /** A capture handle held in `self.cap`; `isOpened` is what its `isOpened()` answers. */
  datatype Capture = Capture(isOpened: bool)

  /** An RGB frame; its pixels are opaque to the controller. */
  datatype Frame = Frame(pixels: seq<int>)

  /**
   * The observable state of a camera manager: whether OpenCV is available,
   * the handle slot, and how many times a device was released.
   */
  datatype Cam = Cam(opencvOk: bool, cap: Option<Capture>, releases: nat)

  /** `self.cap and self.cap.isOpened()`. */
  predicate IsOpen(cap: Option<Capture>)
  {
    cap.Some? && cap.value.isOpened
  }

  /** The state after `open()`. */
  function AfterOpen(c: Cam, acq: Acquisition): (r: Cam)
    ensures r.opencvOk == c.opencvOk && r.releases == c.releases
    ensures !c.opencvOk ==> r == c
    ensures IsOpen(c.cap) ==> r == c
    ensures IsOpen(r.cap) <==> IsOpen(c.cap) || (c.opencvOk && acq == Acquired(true))
    ensures c.opencvOk && !IsOpen(c.cap) && acq == Raised ==> r.cap == None
  {
    if !c.opencvOk then c
    else if IsOpen(c.cap) then c
    else
      match acq
      case Raised => c.(cap := None)
      case Acquired(o) => c.(cap := Some(Capture(o)))
  }

  /** The state after `release()`: the slot is empty and an open device was released once. */
  function AfterRelease(c: Cam): (r: Cam)
    ensures r.cap == None && r.opencvOk == c.opencvOk
    ensures r.releases == if IsOpen(c.cap) then c.releases + 1 else c.releases
  {
    c.(cap := None, releases := c.releases + if IsOpen(c.cap) then 1 else 0)
  }

  /** What `read_rgb_frame()` returns when the device read would give `read` (None when it is not ok). */
  function FrameFrom(c: Cam, read: Option<Frame>): (r: Option<Frame>)
    ensures r.Some? <==> IsOpen(c.cap) && read.Some?
    ensures r.Some? ==> r == read
  {
    if !IsOpen(c.cap) then None else read
  }

  /** Opening twice is opening once when the first attempt opened the device. */
  lemma OpenIdempotent(c: Cam, a1: Acquisition, a2: Acquisition)
    requires IsOpen(AfterOpen(c, a1).cap)
    ensures AfterOpen(AfterOpen(c, a1), a2) == AfterOpen(c, a1)
  {
  }

  /** Releasing twice is releasing once, and afterwards no frame can be read. */
  lemma ReleaseIdempotent(c: Cam, read: Option<Frame>)
    ensures AfterRelease(AfterRelease(c)) == AfterRelease(c)
    ensures FrameFrom(AfterRelease(c), read) == None
  {
  }

  class CameraManager {
    const index: int
    const width: int
    const height: int
    /** Whether `import cv2` succeeded (`OPENCV_OK`). */
    const opencvOk: bool
    /** `self.cap`. */
    var cap: Option<Capture>
    /** How many times a device handle was released. */
    var releases: nat

    function View(): Cam
      reads this
    {
      Cam(opencvOk, cap, releases)
    }

    /** `__init__` starts with an empty slot and immediately tries to open the device. */
    constructor (index: int, width: int, height: int, opencvOk: bool, acq: Acquisition)
      ensures this.index == index && this.width == width && this.height == height
      ensures View() == AfterOpen(Cam(opencvOk, None, 0), acq)
    {
      this.index, this.width, this.height := index, width, height;
      this.opencvOk := opencvOk;
      cap := None;
      releases := 0;
      new;
      Open(acq);
    }

    method Open(acq: Acquisition)
      modifies this
      ensures View() == AfterOpen(old(View()), acq)
    {
      if !opencvOk {
        return;
      }
      if cap.Some? && cap.value.isOpened {
        return;
      }
      match acq {
        case Raised =>
          cap := None;
        case Acquired(o) =>
          cap := Some(Capture(o));
      }
    }

    method ReadRgbFrame(read: Option<Frame>) returns (r: Option<Frame>)
      ensures r == FrameFrom(View(), read)
      ensures r.Some? <==> IsOpen(cap) && read.Some?
    {
      if cap.None? || !cap.value.isOpened {
        return None;
      }
      if read.None? {
        return None;
      }
      r := read;
    }

    method Release()
      modifies this
      ensures View() == AfterRelease(old(View()))
    {
      if cap.Some? && cap.value.isOpened {
        releases := releases + 1;
      }
      cap := None;
    }
  }
}
