/**
 * The photo capture screen (`CaptureScreen` in GUIproject/screens/capture.py):
 * the live preview loop, the capture counter, the one-time Space binding, and
 * where a captured photo is written.
 *
 * The camera is the application's shared `CameraManager`. The clock reading
 * taken at capture time, whether OpenCV wrote the file and what PIL's fallback
 * save does are inputs. Resizing and drawing the preview are not modelled; a
 * render tick only keeps the latest frame.
 */
module Capture {
  import opened Wrappers
  import opened Text
  import Clock
  import Camera

  const DefaultName := "Subject1"
  const DatasetFolder := "dataset"
  const NoFrameTitle := "No Frame"
  const NoFrameText := "No camera frame available yet."
  const SaveFailedTitle := "Save Failed"
  const SaveFailedPrefix := "Could not save image:\n"

  /** A message box the screen raised. */
  datatype Dialog = Warning(title: string, text: string) | ErrorBox(title: string, text: string)

  /**
   * What the screen owns and what it has done to the disk: the name entry,
   * the saved counter and its label, whether the preview loop runs, the last
   * frame grabbed, whether Space is bound and how many handlers it has, the
   * message boxes shown, the folders created and the photos written, in order.
   */
  datatype Shot = Shot(
    cam: Camera.Cam,
    nameEntry: string,
    saved: nat,
    countText: string,
    loopRunning: bool,
    lastFrame: Option<Camera.Frame>,
    spaceBound: bool,
    spaceHandlers: nat,
    dialogs: seq<Dialog>,
    folders: set<string>,
    written: seq<(string, Camera.Frame)>)

  /** The counter label's text. */
  function CountText(n: nat): string
  {
    "Saved: " + NatToString(n)
  }

  /** The entry's text stripped of surrounding whitespace, or the default subject when that is empty. */
  function CaptureName(entry: string): (r: string)
  {
    var s := Strip(entry);
    if s == [] then DefaultName else s
  }

  /** `strftime("%Y%m%d_%H%M%S")`. */
  function Stamp(dt: Clock.DateTime): string
    requires Clock.ValidDateTime(dt)
  {
    Pad4(dt.year) + Pad2(dt.month) + Pad2(dt.day) + "_" + Pad2(dt.hour) + Pad2(dt.minute) + Pad2(dt.second)
  }

  /** `f"{name}_{ts}.jpg"`. */
  function FileName(name: string, dt: Clock.DateTime): string
    requires Clock.ValidDateTime(dt)
  {
    name + "_" + Stamp(dt) + ".jpg"
  }

  /** `_ensure_folder(name)`: `<root>/dataset/<name>`. */
  function Folder(root: string, name: string): string
  {
    Join(Join(root, DatasetFolder), name)
  }

  function Initial(cam: Camera.Cam): Shot
  {
    Shot(cam, DefaultName, 0, CountText(0), false, None, false, 0, [], {}, [])
  }

  /** One pass of `_render_loop` with the device read giving `read`: nothing once the loop is stopped. */
  function AfterRender(s: Shot, read: Option<Camera.Frame>): Shot
  {
    if !s.loopRunning then s
    else
      var frame := Camera.FrameFrom(s.cam, read);
      if frame.Some? then s.(lastFrame := frame) else s
  }

  /** `on_show()`: open the camera, start the loop with its first pass, bind Space unless already bound. */
  function AfterShow(s: Shot, acq: Camera.Acquisition, read: Option<Camera.Frame>): Shot
  {
    var started := s.(cam := Camera.AfterOpen(s.cam, acq), loopRunning := true);
    var rendered := AfterRender(started, read);
    if s.spaceBound then rendered
    else rendered.(spaceBound := true, spaceHandlers := rendered.spaceHandlers + 1)
  }

  function AfterHide(s: Shot): Shot
  {
    s.(loopRunning := false)
  }

  /**
   * `capture()` at clock reading `dt`: `cvWrote` says whether OpenCV imported
   * and `imwrite` returned True; otherwise `pilError` is what PIL's save
   * raised, None when it saved.
   */
  function AfterCapture(s: Shot, root: string, dt: Clock.DateTime, cvWrote: bool, pilError: Option<string>): Shot
    requires Clock.ValidDateTime(dt)
  {
    var name := CaptureName(s.nameEntry);
    if s.lastFrame.None? then
      s.(dialogs := s.dialogs + [Warning(NoFrameTitle, NoFrameText)])
    else
      var folder := Folder(root, name);
      AfterSave(s.(folders := s.folders + {folder}), Join(folder, FileName(name, dt)), cvWrote, pilError)
  }

  /** Saving the last frame to `path`: counted when either library wrote it, an error box otherwise. */
  function AfterSave(s: Shot, path: string, cvWrote: bool, pilError: Option<string>): Shot
    requires s.lastFrame.Some?
  {
    if cvWrote || pilError.None? then
      s.(saved := s.saved + 1, countText := CountText(s.saved + 1), written := s.written + [(path, s.lastFrame.value)])
    else
      s.(dialogs := s.dialogs + [ErrorBox(SaveFailedTitle, SaveFailedPrefix + pilError.value)])
  }

  /**
   * The screen's invariant: the counter is the number of photos written, its
   * label shows it, and Space has a handler exactly when it is marked bound,
   * and never more than one.
   */
  predicate Consistent(s: Shot)
  {
    && s.saved == |s.written|
    && s.countText == CountText(s.saved)
    && s.spaceHandlers == (if s.spaceBound then 1 else 0)
  }

  /** A fresh screen is consistent. */
  lemma InitialConsistent(cam: Camera.Cam)
    ensures Consistent(Initial(cam))
  {
  }

  /** A render pass, hiding and showing keep the screen consistent. */
  lemma LifecycleConsistent(s: Shot, acq: Camera.Acquisition, read: Option<Camera.Frame>)
    requires Consistent(s)
    ensures Consistent(AfterRender(s, read)) && Consistent(AfterHide(s))
    ensures Consistent(AfterShow(s, acq, read))
  {
    var started := s.(cam := Camera.AfterOpen(s.cam, acq), loopRunning := true);
    assert Consistent(started);
    assert Consistent(AfterRender(started, read));
  }

  /** A capture keeps the screen consistent: the counter moves exactly when a photo is written. */
  lemma CaptureConsistent(s: Shot, root: string, dt: Clock.DateTime, cvWrote: bool, pilError: Option<string>)
    requires Consistent(s) && Clock.ValidDateTime(dt)
    ensures Consistent(AfterCapture(s, root, dt, cvWrote, pilError))
  {
    var r := AfterCapture(s, root, dt, cvWrote, pilError);
    if s.lastFrame.Some? && (cvWrote || pilError.None?) {
      assert |r.written| == |s.written| + 1;
    }
  }

  /** The subject name is never empty and carries no surrounding whitespace. */
  lemma NameTrimmed(entry: string)
    ensures CaptureName(entry) != []
    ensures Strip(CaptureName(entry)) == CaptureName(entry)
  {
    if Strip(entry) == [] {
      DefaultTrimmed();
    } else {
      StripIdempotent(entry);
    }
  }

  lemma DefaultTrimmed()
    ensures Strip(DefaultName) == DefaultName
  {
    assert DefaultName[0] == 'S' && DefaultName[|DefaultName| - 1] == '1';
    StripFixed(DefaultName);
  }

  /** A blank entry gives the default subject; an entry that is already trimmed and non-blank is used as it is. */
  lemma NameDefault(entry: string)
    ensures Blank(entry) <==> CaptureName(entry) == DefaultName && Strip(entry) == []
    ensures Strip(entry) == entry && entry != [] ==> CaptureName(entry) == entry
  {
    StripEmptyIffBlank(entry);
  }

  /** The time stamp is `YYYYmmdd_HHMMSS` and reads back to the clock reading it came from. */
  lemma StampRoundTrip(dt: Clock.DateTime)
    requires Clock.ValidDateTime(dt)
    ensures var t := Stamp(dt);
            && |t| == 15 && t[8] == '_'
            && DigitsValue(t[0..4]) == dt.year
            && DigitsValue(t[4..6]) == dt.month
            && DigitsValue(t[6..8]) == dt.day
            && DigitsValue(t[9..11]) == dt.hour
            && DigitsValue(t[11..13]) == dt.minute
            && DigitsValue(t[13..15]) == dt.second
  {
    var y, mo, d, h, mi, se := Pad4(dt.year), Pad2(dt.month), Pad2(dt.day), Pad2(dt.hour), Pad2(dt.minute), Pad2(dt.second);
    var t := y + mo + d + "_" + h + mi + se;
    assert t == Stamp(dt);
    assert t[0..4] == y;
    assert t[4..6] == mo;
    assert t[6..8] == d;
    assert t[9..11] == h;
    assert t[11..13] == mi;
    assert t[13..15] == se;
  }

  /** Two captures at different seconds get different time stamps. */
  lemma StampInjective(a: Clock.DateTime, b: Clock.DateTime)
    requires Clock.ValidDateTime(a) && Clock.ValidDateTime(b)
    requires Stamp(a) == Stamp(b)
    ensures a == b
  {
    StampRoundTrip(a);
    StampRoundTrip(b);
  }

  /** The file name is the subject, an underscore, the 15-character stamp and `.jpg`; the subject and the stamp can be read back from it. */
  lemma FileNameShape(name: string, dt: Clock.DateTime)
    requires Clock.ValidDateTime(dt)
    ensures var f := FileName(name, dt);
            var n := |name|;
            && |f| == n + 20
            && f[..n] == name && f[n] == '_'
            && f[n + 1..n + 16] == Stamp(dt)
            && f[n + 16..] == ".jpg"
  {
    StampRoundTrip(dt);
    var f := name + "_" + Stamp(dt) + ".jpg";
    assert f == FileName(name, dt);
    assert f[..|name|] == name;
    assert f[|name| + 1..|name| + 16] == Stamp(dt);
    assert f[|name| + 16..] == ".jpg";
  }

  /**
   * Without a frame a capture only warns; with one it makes the subject's
   * folder and either writes the last frame to `<folder>/<name>_<stamp>.jpg`
   * and counts it, or, when both OpenCV and PIL fail, shows PIL's error and
   * counts nothing. Nothing else changes.
   */
  lemma CaptureRule(s: Shot, root: string, dt: Clock.DateTime, cvWrote: bool, pilError: Option<string>)
    requires Clock.ValidDateTime(dt)
    ensures var r := AfterCapture(s, root, dt, cvWrote, pilError);
            var name := CaptureName(s.nameEntry);
            && r.cam == s.cam && r.nameEntry == s.nameEntry && r.lastFrame == s.lastFrame
            && r.loopRunning == s.loopRunning && r.spaceBound == s.spaceBound
            && (s.lastFrame.None? ==>
                  r.saved == s.saved && r.written == s.written && r.folders == s.folders
                  && r.dialogs == s.dialogs + [Warning(NoFrameTitle, NoFrameText)])
            && (s.lastFrame.Some? ==>
                  r.folders == s.folders + {Folder(root, name)}
                  && (r.saved == s.saved + 1 <==> cvWrote || pilError.None?)
                  && (cvWrote || pilError.None? ==>
                        r.written == s.written + [(Join(Folder(root, name), FileName(name, dt)), s.lastFrame.value)]
                        && r.dialogs == s.dialogs)
                  && (!cvWrote && pilError.Some? ==>
                        r.saved == s.saved && r.written == s.written
                        && r.dialogs == s.dialogs + [ErrorBox(SaveFailedTitle, SaveFailedPrefix + pilError.value)]))
  {
  }

  /** With a relative subject name under a root without a trailing slash, the photo lands at `<root>/dataset/<name>/<name>_<stamp>.jpg`. */
  lemma PhotoPath(root: string, name: string, dt: Clock.DateTime)
    requires Clock.ValidDateTime(dt)
    requires root != [] && root[|root| - 1] != '/'
    requires name != [] && name[0] != '/' && name[|name| - 1] != '/'
    ensures Join(Folder(root, name), FileName(name, dt)) == root + "/dataset/" + name + "/" + FileName(name, dt)
  {
    FolderPath(root, name);
    FileNameStart(name, dt);
  }

  /** Under a root without a trailing slash, a relative subject's folder is `<root>/dataset/<name>`, with no trailing slash. */
  lemma FolderPath(root: string, name: string)
    requires root != [] && root[|root| - 1] != '/'
    requires name != [] && name[0] != '/' && name[|name| - 1] != '/'
    ensures Folder(root, name) == root + "/dataset/" + name
    ensures Folder(root, name)[|Folder(root, name)| - 1] != '/'
  {
    assert Join(root, DatasetFolder) == root + "/dataset";
    assert (root + "/dataset")[|root + "/dataset"| - 1] == 't';
  }

  lemma FileNameStart(name: string, dt: Clock.DateTime)
    requires Clock.ValidDateTime(dt) && name != []
    ensures FileName(name, dt)[0] == name[0]
  {
  }

  /** A render pass only ever replaces the kept frame by a frame just read; a stopped loop, a closed camera or a failed read keeps it. */
  lemma RenderRule(s: Shot, read: Option<Camera.Frame>)
    ensures var r := AfterRender(s, read);
            && r.(lastFrame := s.lastFrame) == s
            && (r.lastFrame != s.lastFrame ==> s.loopRunning && r.lastFrame == read)
            && (!s.loopRunning || read.None? || !Camera.IsOpen(s.cam.cap) ==> r == s)
            && (s.loopRunning && Camera.IsOpen(s.cam.cap) && read.Some? ==> r.lastFrame == read)
  {
  }

  /** After `on_hide` the preview loop does nothing until the screen is shown again. */
  lemma HideStopsRender(s: Shot, read: Option<Camera.Frame>)
    ensures AfterRender(AfterHide(s), read) == AfterHide(s)
  {
  }

  /** Showing the screen again never adds a second Space handler. */
  lemma BindOnce(s: Shot, a1: Camera.Acquisition, r1: Option<Camera.Frame>, a2: Camera.Acquisition, r2: Option<Camera.Frame>)
    requires Consistent(s)
    ensures var once := AfterShow(s, a1, r1);
            var twice := AfterShow(once, a2, r2);
            && once.spaceBound && once.spaceHandlers == 1
            && twice.spaceHandlers == 1
  {
  }

  class CaptureScreen {
    /** The application's shared camera. */
    const camera: Camera.CameraManager
    /** The project root the dataset folder lives under. */
    const root: string
    var nameEntry: string
    var saved: nat
    var countText: string
    var loopRunning: bool
    var lastFrame: Option<Camera.Frame>
    var spaceBound: bool
    var spaceHandlers: nat
    var dialogs: seq<Dialog>
    var folders: set<string>
    var written: seq<(string, Camera.Frame)>

    function View(): Shot
      reads this, camera
    {
      Shot(camera.View(), nameEntry, saved, countText, loopRunning, lastFrame, spaceBound, spaceHandlers,
           dialogs, folders, written)
    }

    constructor (camera: Camera.CameraManager, root: string)
      ensures this.camera == camera && this.root == root
      ensures View() == Initial(camera.View())
    {
      this.camera := camera;
      this.root := root;
      nameEntry := DefaultName;
      saved := 0;
      countText := CountText(0);
      loopRunning := false;
      lastFrame := None;
      spaceBound := false;
      spaceHandlers := 0;
      dialogs := [];
      folders := {};
      written := [];
    }

    method RenderLoop(read: Option<Camera.Frame>)
      modifies this
      ensures View() == AfterRender(old(View()), read)
    {
      if !loopRunning {
        return;
      }
      var frame := camera.ReadRgbFrame(read);
      if frame.Some? {
        lastFrame := frame;
      }
    }

    method OnShow(acq: Camera.Acquisition, read: Option<Camera.Frame>)
      modifies this, camera
      ensures View() == AfterShow(old(View()), acq, read)
    {
      camera.Open(acq);
      loopRunning := true;
      RenderLoop(read);
      if !spaceBound {
        spaceHandlers := spaceHandlers + 1;
        spaceBound := true;
      }
    }

    method OnHide()
      modifies this
      ensures View() == AfterHide(old(View()))
    {
      loopRunning := false;
    }

    method EnsureFolder(name: string) returns (folder: string)
      modifies this
      ensures folder == Folder(root, name)
      ensures View() == old(View()).(folders := old(folders) + {folder})
    {
      folder := Join(Join(root, DatasetFolder), name);
      folders := folders + {folder};
    }

    method Capture(dt: Clock.DateTime, cvWrote: bool, pilError: Option<string>)
      requires Clock.ValidDateTime(dt)
      modifies this
      ensures View() == AfterCapture(old(View()), root, dt, cvWrote, pilError)
    {
      var name := CaptureName(nameEntry);
      if lastFrame.None? {
        Notify(Warning(NoFrameTitle, NoFrameText));
        return;
      }
      var folder := EnsureFolder(name);
      Save(Join(folder, FileName(name, dt)), cvWrote, pilError);
    }

    /** A message box is shown; nothing else changes. */
    method Notify(d: Dialog)
      modifies this
      ensures View() == old(View()).(dialogs := old(dialogs) + [d])
    {
      dialogs := dialogs + [d];
    }

    /** OpenCV's write, then PIL's as the fallback; the photo is counted only when one of them wrote it. */
    method Save(path: string, cvWrote: bool, pilError: Option<string>)
      requires lastFrame.Some?
      modifies this
      ensures View() == AfterSave(old(View()), path, cvWrote, pilError)
    {
      if !cvWrote && pilError.Some? {
        Notify(ErrorBox(SaveFailedTitle, SaveFailedPrefix + pilError.value));
        return;
      }
      written := written + [(path, lastFrame.value)];
      saved := saved + 1;
      countText := CountText(saved);
    }

    /** `_on_space`: the Space key captures like the button. */
    method OnSpace(dt: Clock.DateTime, cvWrote: bool, pilError: Option<string>)
      requires Clock.ValidDateTime(dt)
      modifies this
      ensures View() == AfterCapture(old(View()), root, dt, cvWrote, pilError)
    {
      Capture(dt, cvWrote, pilError);
    }
  }
}
