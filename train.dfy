/**
 * The face-training screen (`TrainFacesScreen` in
 * GUIproject/screens/train_faces.py): starting a background training run, the
 * run itself, and the UI-thread pump that drains its message queue into the
 * progress bar, the counter label, the log and the dialogs.
 *
 * The worker's libraries are outside the model: whether importing them and
 * listing the dataset raised, what each image yields when read and encoded,
 * whether the stop flag is seen before each image, and whether writing the
 * pickle raised are inputs. The file system is a set of existing directories
 * and a map from path to stored pickle.
 */
module TrainFaces {
  import opened Wrappers
  import opened Text
  import FaceId

  /** One queued message: `(kind, payload)` with kind total, prog, log, done or error. */
  datatype Msg =
    | Total(total: nat)
    | Prog(i: nat, of: nat)
    | Log(text: string)
    | Done(path: string)
    | Error(text: string)

  /** What `cv2.imread` and the encoder make of one listed image. */
  datatype ImageRead =
    | Unreadable                                  // `imread` returned None
    | Faces(encodings: seq<FaceId.Encoding>)      // the encodings of the faces found
    | Crashes(error: string)                      // conversion or encoding raised

  datatype ImageFile = ImageFile(path: string, read: ImageRead)

  /** A message box: `showinfo` or `showerror`. */
  datatype Dialog = InfoBox(title: string, text: string) | ErrorBox(title: string, text: string)

  const DefaultDataset := "dataset"
  const StartLine := "[INFO] start processing faces..."
  const DoneLine := "[INFO] Done."
  const ReloadedLine := "[INFO] Home recognizer reloaded."
  const IndexErrorText := "list index out of range"

  function ProcessingLine(i: nat, total: nat, path: string): string
  {
    "[INFO] processing image " + NatToString(i) + "/" + NatToString(total) + ": " + path
  }

  function WarnLine(path: string): string
  {
    "[WARN] cannot read image: " + path
  }

  function CompleteLine(out: string): string
  {
    "[INFO] Training complete. Encodings saved to '" + out + "'"
  }

  function Counter(i: nat, total: nat): string
  {
    NatToString(i) + " / " + NatToString(total)
  }

  function Max1(n: nat): (r: nat)
    ensures r >= 1 && r >= n && (n >= 1 ==> r == n)
  {
    if n >= 1 then n else 1
  }

  function Repeat<T>(x: T, n: nat): (r: seq<T>)
    ensures |r| == n && forall k :: 0 <= k < n ==> r[k] == x
  {
    seq(n, _ => x)
  }

  // ---------------------------------------------------------------------------
  // Starting a run

  /** `self.dataset_var.get().strip() or "dataset"`. */
  function DatasetDir(entry: string): (r: string)
  {
    if Strip(entry) == [] then DefaultDataset else Strip(entry)
  }

  /** The directory trained on is never empty and carries no surrounding whitespace; a blank entry means `dataset`. */
  lemma DatasetDirTrimmed(entry: string)
    ensures DatasetDir(entry) != []
    ensures !IsSpace(DatasetDir(entry)[0]) && !IsSpace(DatasetDir(entry)[|DatasetDir(entry)| - 1])
    ensures DatasetDir(entry) == DefaultDataset <==> Blank(entry) || Strip(entry) == DefaultDataset
  {
    StripEmptyIffBlank(entry);
    StripIdempotent(entry);
  }

  datatype StartResult = AlreadyRunning | NotFound(dir: string) | Started(dir: string)

  /** The widgets the pump and `start_training` write, plus the home screen's recogniser when it has one. */
  datatype Ui = Ui(log: seq<string>, value: nat, maximum: nat, countText: string,
                   dialogs: seq<Dialog>, home: Option<FaceId.Loaded>)

  /** The whole screen: the widgets, the dataset entry, the worker thread, the stop flag and the queue. */
  datatype Screen = Screen(ui: Ui, entry: string, workerAlive: bool, stopFlag: bool, queue: seq<Msg>)

  /** The screen after `start_training()` with `dirs` the existing directories. */
  function AfterStart(s: Screen, dirs: set<string>): (Screen, StartResult)
  {
    var dir := DatasetDir(s.entry);
    if s.workerAlive then
      (s.(ui := s.ui.(dialogs := s.ui.dialogs + [InfoBox("Training", "Training is already running.")])), AlreadyRunning)
    else if dir !in dirs then
      (s.(ui := s.ui.(dialogs := s.ui.dialogs + [ErrorBox("Not Found", "Folder not found: " + dir)])), NotFound(dir))
    else
      (s.(ui := s.ui.(log := [StartLine], value := 0, countText := "0 / 0"), stopFlag := false, workerAlive := true),
       Started(dir))
  }

  /**
   * A run starts only when none is alive and the folder exists; it then clears
   * the log down to the start line, zeroes the bar and counter and lowers the
   * stop flag. A refused start only adds a dialog, and no second run can
   * start while one is alive.
   */
  lemma StartRule(s: Screen, dirs: set<string>)
    ensures var (t, r) := AfterStart(s, dirs);
            && (r.Started? <==> !s.workerAlive && DatasetDir(s.entry) in dirs)
            && (r.Started? ==> r.dir == DatasetDir(s.entry) && t.workerAlive && !t.stopFlag
                               && t.ui.log == [StartLine] && t.ui.value == 0 && t.ui.countText == "0 / 0"
                               && t.ui.maximum == s.ui.maximum && t.queue == s.queue
                               && t.ui.dialogs == s.ui.dialogs)
            && (!r.Started? ==> t == s.(ui := s.ui.(dialogs := t.ui.dialogs))
                                && |t.ui.dialogs| == |s.ui.dialogs| + 1
                                && t.ui.dialogs[..|s.ui.dialogs|] == s.ui.dialogs)
            && (r.Started? ==> AfterStart(t, dirs).1 == AlreadyRunning)
  {
    var (t, r) := AfterStart(s, dirs);
    if !r.Started? {
      assert t.ui.dialogs[..|s.ui.dialogs|] == s.ui.dialogs;
    }
  }

  // ---------------------------------------------------------------------------
  // The worker

  /** `imagePath.split(os.path.sep)[-2]` on POSIX: None where the index raises. */
  function LabelOf(path: string): Option<string>
  {
    var parts := Split(path, '/');
    if |parts| >= 2 then Some(parts[|parts| - 2]) else None
  }

  lemma {:induction false} SplitNoSep(s: string, sep: char)
    requires sep !in s
    ensures Split(s, sep) == [s]
  {
    if s != [] {
      SplitNoSep(s[1..], sep);
      assert [s[0]] + s[1..] == s;
    }
  }

  /** Splitting `x + sep + b` with `b` free of `sep` is splitting `x` and adding `b` as the last piece. */
  lemma {:induction false} SplitLastPiece(x: string, b: string, sep: char)
    requires sep !in b
    ensures Split(x + [sep] + b, sep) == Split(x, sep) + [b]
  {
    var s := x + [sep] + b;
    if x == [] {
      assert s[1..] == b;
      SplitNoSep(b, sep);
    } else {
      assert s[1..] == x[1..] + [sep] + b;
      SplitLastPiece(x[1..], b, sep);
      var rest := Split(x[1..], sep);
      if x[0] != sep {
        assert (rest + [b])[0] == rest[0];
        assert (rest + [b])[1..] == rest[1..] + [b];
      }
    }
  }

  /** An image filed as `<dataset>/<person>/<file>` is labelled with the person's folder name. */
  lemma LabelIsParentFolder(dataset: string, person: string, file: string)
    requires '/' !in person && '/' !in file
    ensures LabelOf(dataset + "/" + person + "/" + file) == Some(person)
  {
    var folder := dataset + "/" + person;
    SplitLastPiece(folder, file, '/');
    SplitLastPiece(dataset, person, '/');
    var parts := Split(dataset, '/') + [person] + [file];
    assert Split(folder + "/" + file, '/') == parts;
    assert parts[|parts| - 2] == person;
  }

  /** An image lying directly in the dataset folder is labelled with the dataset folder's own last component. */
  lemma LabelAtDatasetRoot(dataset: string, file: string)
    requires '/' !in file
    ensures LabelOf(dataset + "/" + file) == Some(Split(dataset, '/')[|Split(dataset, '/')| - 1])
  {
    var front := Split(dataset, '/');
    SplitLastPiece(dataset, file, '/');
    assert (front + [file])[|front|  - 1] == front[|front| - 1];
  }

  datatype Outcome = Running | Stopped | Raised(error: string)

  /**
   * The loop's progress after some images: the messages it posted, the
   * encodings and names collected, how many images got a progress message, and
   * whether it is still going.
   */
  datatype Pass = Pass(msgs: seq<Msg>, encodings: seq<FaceId.Encoding>, names: seq<string>,
                       count: nat, outcome: Outcome)

  /** One iteration of the loop, on image number `i` of `total`; `stop` is the flag as read before it. */
  function Visit(p: Pass, i: nat, total: nat, img: ImageFile, stop: bool): Pass
  {
    if !p.outcome.Running? then p
    else if stop then p.(outcome := Stopped)
    else
      match LabelOf(img.path)
      case None => p.(outcome := Raised(IndexErrorText))
      case Some(name) =>
        var q := p.(msgs := p.msgs + [Log(ProcessingLine(i, total, img.path)), Prog(i, total)], count := p.count + 1);
        match img.read
        case Unreadable => q.(msgs := q.msgs + [Log(WarnLine(img.path))])
        case Crashes(e) => q.(outcome := Raised(e))
        case Faces(es) => q.(encodings := q.encodings + es, names := q.names + Repeat(name, |es|))
  }

  /** The loop after its first `k` iterations. */
  function Scan(images: seq<ImageFile>, stop: nat -> bool, k: nat): Pass
    requires k <= |images|
  {
    if k == 0 then Pass([], [], [], 0, Running)
    else Visit(Scan(images, stop, k - 1), k, |images|, images[k - 1], stop(k))
  }

  /** What a readable, labelled image adds to the training data. */
  function Contribution(img: ImageFile): FaceId.Store
  {
    match (LabelOf(img.path), img.read)
    case (Some(name), Faces(es)) => FaceId.Store(es, Repeat(name, |es|))
    case _ => FaceId.Store([], [])
  }

  function Plus(a: FaceId.Store, b: FaceId.Store): FaceId.Store
  {
    FaceId.Store(a.encodings + b.encodings, a.names + b.names)
  }

  /** The training data of a list of images: every encoding, each labelled with its image's folder. */
  function Harvest(imgs: seq<ImageFile>): FaceId.Store
  {
    if imgs == [] then FaceId.Store([], []) else Plus(Contribution(imgs[0]), Harvest(imgs[1..]))
  }

  lemma PlusAssoc(a: FaceId.Store, b: FaceId.Store, c: FaceId.Store)
    ensures Plus(Plus(a, b), c) == Plus(a, Plus(b, c))
  {
    assert a.encodings + b.encodings + c.encodings == a.encodings + (b.encodings + c.encodings);
    assert a.names + b.names + c.names == a.names + (b.names + c.names);
  }

  lemma {:induction false} HarvestSnoc(imgs: seq<ImageFile>, x: ImageFile)
    ensures Harvest(imgs + [x]) == Plus(Harvest(imgs), Contribution(x))
  {
    if imgs == [] {
      assert [x][1..] == [];
      assert Harvest([x]) == Plus(Contribution(x), FaceId.Store([], []));
      assert Contribution(x).encodings + [] == [] + Contribution(x).encodings;
      assert Contribution(x).names + [] == [] + Contribution(x).names;
    } else {
      assert (imgs + [x])[0] == imgs[0];
      assert (imgs + [x])[1..] == imgs[1..] + [x];
      HarvestSnoc(imgs[1..], x);
      PlusAssoc(Contribution(imgs[0]), Harvest(imgs[1..]), Contribution(x));
    }
  }

  /** The image numbers of the progress messages, in order. */
  function Progress(ms: seq<Msg>): seq<nat>
  {
    if ms == [] then [] else (if ms[0].Prog? then [ms[0].i] else []) + Progress(ms[1..])
  }

  lemma {:induction false} ProgressAppend(a: seq<Msg>, b: seq<Msg>)
    ensures Progress(a + b) == Progress(a) + Progress(b)
  {
    if a == [] {
      assert a + b == b;
    } else {
      assert (a + b)[0] == a[0];
      assert (a + b)[1..] == a[1..] + b;
      ProgressAppend(a[1..], b);
    }
  }

  function Upto(n: nat): (r: seq<nat>)
    ensures |r| == n && forall j :: 0 <= j < n ==> r[j] == j + 1
  {
    seq(n, j => j + 1)
  }

  /** Every message is a log line or a progress message against `total`. */
  predicate LogOrProg(ms: seq<Msg>, total: nat)
  {
    forall j :: 0 <= j < |ms| ==> ms[j].Log? || (ms[j].Prog? && ms[j].of == total)
  }

  /**
   * After `k` iterations: at most `k` images reported, all of them while the
   * loop keeps going, their progress numbered 1, 2, ... without gaps, only log
   * and progress messages, and encodings and names in step.
   */
  predicate Reported(p: Pass, k: nat, total: nat)
  {
    && p.count <= k
    && (p.outcome.Running? ==> p.count == k)
    && Progress(p.msgs) == Upto(p.count)
    && LogOrProg(p.msgs, total)
    && |p.encodings| == |p.names|
  }

  lemma VisitReported(p: Pass, i: nat, total: nat, img: ImageFile, stop: bool)
    requires i >= 1 && Reported(p, i - 1, total)
    ensures Reported(Visit(p, i, total, img, stop), i, total)
  {
    if p.outcome.Running? && !stop && LabelOf(img.path).Some? {
      var m := p.msgs + [Log(ProcessingLine(i, total, img.path)), Prog(i, total)];
      AnnouncedReported(p.msgs, i, total, img.path);
      if img.read.Unreadable? {
        WarnReported(m, i, total, img.path);
      }
    }
  }

  /** Posting an image's log line and progress extends the numbering by that image. */
  lemma AnnouncedReported(ms: seq<Msg>, i: nat, total: nat, path: string)
    requires i >= 1 && Progress(ms) == Upto(i - 1) && LogOrProg(ms, total)
    ensures var m := ms + [Log(ProcessingLine(i, total, path)), Prog(i, total)];
            Progress(m) == Upto(i) && LogOrProg(m, total)
  {
    var added := [Log(ProcessingLine(i, total, path)), Prog(i, total)];
    ProgressAppend(ms, added);
    assert Progress(added) == [i] by {
      var tail := [Prog(i, total)];
      assert added[1..] == tail;
      assert tail[1..] == [];
      assert Progress(tail) == [i] + Progress([]);
      assert Progress(added) == [] + Progress(tail);
    }
    assert Upto(i - 1) + [i] == Upto(i);
  }

  /** A warning line leaves the numbering as it was. */
  lemma WarnReported(ms: seq<Msg>, i: nat, total: nat, path: string)
    requires Progress(ms) == Upto(i) && LogOrProg(ms, total)
    ensures Progress(ms + [Log(WarnLine(path))]) == Upto(i) && LogOrProg(ms + [Log(WarnLine(path))], total)
  {
    var warn := [Log(WarnLine(path))];
    ProgressAppend(ms, warn);
    assert warn[1..] == [];
  }

  /**
   * The loop posts progress for images 1, 2, ... in order without gaps, each
   * against the full total, and only log and progress messages; it keeps
   * encodings and names in step; while it keeps going it has reported every
   * image it passed.
   */
  lemma {:induction false} ScanProgress(images: seq<ImageFile>, stop: nat -> bool, k: nat)
    requires k <= |images|
    ensures Reported(Scan(images, stop, k), k, |images|)
  {
    if k > 0 {
      ScanProgress(images, stop, k - 1);
      VisitReported(Scan(images, stop, k - 1), k, |images|, images[k - 1], stop(k));
    }
  }

  /** Once the loop has stopped or raised, later iterations change nothing. */
  lemma {:induction false} ScanAbsorbs(images: seq<ImageFile>, stop: nat -> bool, k: nat, n: nat)
    requires k <= n <= |images|
    requires !Scan(images, stop, k).outcome.Running?
    ensures Scan(images, stop, n) == Scan(images, stop, k)
    decreases n
  {
    if n > k {
      ScanAbsorbs(images, stop, k, n - 1);
    }
  }

  /** No image at or after the one before which the stop flag is seen is processed. */
  lemma {:induction false} StopHonoured(images: seq<ImageFile>, stop: nat -> bool, k: nat, j: nat)
    requires k <= |images| && 1 <= j <= k && stop(j)
    ensures Scan(images, stop, k).count < j
  {
    ScanProgress(images, stop, k - 1);
    if j < k {
      StopHonoured(images, stop, k - 1, j);
    }
  }

  /** The training data of the first `k` images is that of the first `k - 1` plus the `k`th's contribution. */
  lemma HarvestPrefix(images: seq<ImageFile>, k: nat)
    requires 1 <= k <= |images|
    ensures Harvest(images[..k]) == Plus(Harvest(images[..k - 1]), Contribution(images[k - 1]))
  {
    assert images[..k] == images[..k - 1] + [images[k - 1]];
    HarvestSnoc(images[..k - 1], images[k - 1]);
  }

  /** Unless it raised, the loop has collected exactly the training data of the images it reported. */
  predicate Harvested(p: Pass, images: seq<ImageFile>)
  {
    !p.outcome.Raised? ==> p.count <= |images| && FaceId.Store(p.encodings, p.names) == Harvest(images[..p.count])
  }

  /** One iteration keeps the collected data equal to the training data of the images reported. */
  lemma VisitHarvested(p: Pass, images: seq<ImageFile>, k: nat, stop: bool)
    requires 1 <= k <= |images| && Harvested(p, images)
    requires p.outcome.Running? ==> p.count == k - 1
    ensures Harvested(Visit(p, k, |images|, images[k - 1], stop), images)
  {
    if p.outcome.Running? && !stop && LabelOf(images[k - 1].path).Some? {
      HarvestPrefix(images, k);
    }
  }

  /** After any number of iterations the collected encodings and names are the training data of the images reported so far. */
  lemma {:induction false} ScanHarvest(images: seq<ImageFile>, stop: nat -> bool, k: nat)
    requires k <= |images|
    ensures Harvested(Scan(images, stop, k), images)
  {
    if k > 0 {
      ScanHarvest(images, stop, k - 1);
      ScanProgress(images, stop, k - 1);
      VisitHarvested(Scan(images, stop, k - 1), images, k, stop(k));
    }
  }

  /** The messages a run posts after the loop. */
  function Tail(outcome: Outcome, save: Option<string>, out: string): seq<Msg>
  {
    match outcome
    case Raised(e) => [Error(e)]
    case _ => if save.Some? then [Error(save.value)] else [Log(CompleteLine(out)), Done(out)]
  }

  /**
   * Every message `_train_worker` posts, given whether the imports and the
   * dataset listing raised (`setup`), the images, the stop flag before each
   * image, whether writing the pickle raised (`save`), and the output path.
   */
  function WorkerMsgs(setup: Option<string>, images: seq<ImageFile>, stop: nat -> bool,
                      save: Option<string>, out: string): seq<Msg>
  {
    if setup.Some? then [Error(setup.value)]
    else
      var p := Scan(images, stop, |images|);
      [Total(|images|)] + p.msgs + Tail(p.outcome, save, out)
  }

  /** The pickle a run writes, if it gets that far. */
  function WorkerSaved(setup: Option<string>, images: seq<ImageFile>, stop: nat -> bool,
                       save: Option<string>): Option<FaceId.Store>
  {
    if setup.Some? then None
    else
      var p := Scan(images, stop, |images|);
      if p.outcome.Raised? || save.Some? then None else Some(FaceId.Store(p.encodings, p.names))
  }

  /** Exactly one error or done message, and it is the last. */
  predicate EndsOnce(ms: seq<Msg>)
  {
    |ms| >= 1 && forall j :: 0 <= j < |ms| - 1 ==> !ms[j].Error? && !ms[j].Done?
  }

  /**
   * A run posts the total first (once set up), then only logs and progress,
   * and ends with exactly one final message: `done` with the output path when
   * the pickle was written, `error` otherwise. The pickle holds the training
   * data of every image reported, even after a stop.
   */
  lemma WorkerResult(setup: Option<string>, images: seq<ImageFile>, stop: nat -> bool,
                     save: Option<string>, out: string)
    ensures var ms := WorkerMsgs(setup, images, stop, save, out);
            var saved := WorkerSaved(setup, images, stop, save);
            && EndsOnce(ms)
            && (setup.None? ==> ms[0] == Total(|images|))
            && (ms[|ms| - 1] == Done(out) <==> saved.Some?)
            && (ms[|ms| - 1].Error? <==> saved.None?)
            && (saved.Some? ==> Scan(images, stop, |images|).count <= |images|)
            && (saved.Some? ==> saved.value == Harvest(images[..Scan(images, stop, |images|).count]))
  {
    if setup.None? {
      ScanProgress(images, stop, |images|);
      ScanHarvest(images, stop, |images|);
      var p := Scan(images, stop, |images|);
      var ms := WorkerMsgs(setup, images, stop, save, out);
      var t := Tail(p.outcome, save, out);
      assert ms == [Total(|images|)] + p.msgs + t;
      forall j | 0 <= j < |ms| - 1
        ensures !ms[j].Error? && !ms[j].Done?
      {
        if 1 <= j < 1 + |p.msgs| {
          assert ms[j] == p.msgs[j - 1];
        } else if j >= 1 + |p.msgs| {
          assert ms[j] == t[j - 1 - |p.msgs|];
        }
      }
    }
  }

  /**
   * The loop of `_train_worker`: for each image, unless the stop flag is seen,
   * take its folder as the label, post a log line and the progress, then skip
   * it when unreadable or add its encodings under that label; the first
   * exception ends the loop.
   */
  method ScanImages(images: seq<ImageFile>, stop: nat -> bool) returns (p: Pass)
    ensures p == Scan(images, stop, |images|)
  {
    p := Pass([], [], [], 0, Running);
    var i := 0;
    while i < |images|
      invariant 0 <= i <= |images|
      invariant p == Scan(images, stop, i) && p.outcome.Running? && p.count == i
    {
      p := VisitImage(p, i + 1, |images|, images[i], stop(i + 1));
      if !p.outcome.Running? {
        ScanAbsorbs(images, stop, i + 1, |images|);
        return;
      }
      i := i + 1;
    }
  }

  /** One pass of the loop body on image number `i` of `total`, with `stop` the flag as read before it. */
  method VisitImage(p: Pass, i: nat, total: nat, img: ImageFile, stop: bool) returns (q: Pass)
    requires p.outcome.Running?
    ensures q == Visit(p, i, total, img, stop)
  {
    if stop {
      return p.(outcome := Stopped);
    }
    var parts := Split(img.path, '/');
    if |parts| < 2 {
      return p.(outcome := Raised(IndexErrorText));
    }
    var name := parts[|parts| - 2];
    q := p.(msgs := p.msgs + [Log(ProcessingLine(i, total, img.path)), Prog(i, total)], count := p.count + 1);
    match img.read {
      case Unreadable =>
        q := q.(msgs := q.msgs + [Log(WarnLine(img.path))]);
      case Crashes(e) =>
        q := q.(outcome := Raised(e));
      case Faces(es) =>
        q := q.(encodings := q.encodings + es, names := q.names + Repeat(name, |es|));
    }
  }

  // ---------------------------------------------------------------------------
  // The pump

  /** One message applied by `_drain_logs`; `disk` is what the home recogniser's reload reads. */
  function Apply(u: Ui, m: Msg, disk: map<string, FaceId.Store>): Ui
  {
    match m
    case Log(t) => u.(log := u.log + [t])
    case Total(n) => u.(value := 0, maximum := Max1(n), countText := "0 / " + NatToString(n))
    case Prog(i, t) => u.(maximum := Max1(t), value := i, countText := Counter(i, t))
    case Done(p) =>
      if u.home.None? then u.(log := u.log + [DoneLine])
      else u.(log := u.log + [DoneLine, ReloadedLine], home := Some(FaceId.AfterReload(u.home.value, Some(p), disk)))
    case Error(e) => u.(log := u.log + ["[ERROR] " + e], dialogs := u.dialogs + [ErrorBox("Training Error", e)])
  }

  /** The widgets after pumping `ms` in queue order. */
  function ApplyAll(u: Ui, ms: seq<Msg>, disk: map<string, FaceId.Store>): Ui
    decreases |ms|
  {
    if ms == [] then u else ApplyAll(Apply(u, ms[0], disk), ms[1..], disk)
  }

  /** Pumping in two batches is pumping once: how the timer splits the queue does not matter. */
  lemma {:induction false} ApplyAllAppend(u: Ui, a: seq<Msg>, b: seq<Msg>, disk: map<string, FaceId.Store>)
    ensures ApplyAll(u, a + b, disk) == ApplyAll(ApplyAll(u, a, disk), b, disk)
    decreases |a|
  {
    if a == [] {
      assert a + b == b;
    } else {
      assert (a + b)[0] == a[0];
      assert (a + b)[1..] == a[1..] + b;
      ApplyAllAppend(Apply(u, a[0], disk), a[1..], b, disk);
    }
  }

  /** The log lines one message adds. */
  function Lines(m: Msg, home: bool): seq<string>
  {
    match m
    case Log(t) => [t]
    case Done(_) => if home then [DoneLine, ReloadedLine] else [DoneLine]
    case Error(e) => ["[ERROR] " + e]
    case _ => []
  }

  function AllLines(ms: seq<Msg>, home: bool): seq<string>
  {
    if ms == [] then [] else Lines(ms[0], home) + AllLines(ms[1..], home)
  }

  /** The error dialogs a list of messages raises, in order. */
  function ErrorDialogs(ms: seq<Msg>): seq<Dialog>
  {
    if ms == [] then [] else DialogOf(ms[0]) + ErrorDialogs(ms[1..])
  }

  /** The dialog one message raises: a "Training Error" box for an error, nothing otherwise. */
  function DialogOf(m: Msg): seq<Dialog>
  {
    if m.Error? then [ErrorBox("Training Error", m.text)] else []
  }

  /**
   * The pump appends to the log exactly the lines of the messages in queue
   * order, raises one "Training Error" dialog per error message, keeps the bar's
   * maximum at least 1 and never removes or adds the home recogniser.
   */
  lemma {:induction false} ApplyAllEffect(u: Ui, ms: seq<Msg>, disk: map<string, FaceId.Store>)
    requires u.maximum >= 1
    ensures var r := ApplyAll(u, ms, disk);
            && r.log == u.log + AllLines(ms, u.home.Some?)
            && r.dialogs == u.dialogs + ErrorDialogs(ms)
            && r.maximum >= 1
            && r.home.Some? == u.home.Some?
    decreases |ms|
  {
    if ms != [] {
      var home := u.home.Some?;
      ApplyEffect(u, ms[0], disk);
      ApplyAllEffect(Apply(u, ms[0], disk), ms[1..], disk);
      AppendAssoc(u.log, Lines(ms[0], home), AllLines(ms[1..], home));
      AppendAssoc(u.dialogs, DialogOf(ms[0]), ErrorDialogs(ms[1..]));
    }
  }

  /** One message adds its own lines and dialog, keeps the maximum at least 1 and keeps the home recogniser. */
  lemma ApplyEffect(u: Ui, m: Msg, disk: map<string, FaceId.Store>)
    requires u.maximum >= 1
    ensures var r := Apply(u, m, disk);
            && r.log == u.log + Lines(m, u.home.Some?)
            && r.dialogs == u.dialogs + DialogOf(m)
            && r.maximum >= 1
            && r.home.Some? == u.home.Some?
  {
  }

  lemma AppendAssoc<T>(a: seq<T>, b: seq<T>, c: seq<T>)
    ensures a + b + c == a + (b + c)
  {
  }

  lemma {:induction false} ErrorDialogsAppend(a: seq<Msg>, b: seq<Msg>)
    ensures ErrorDialogs(a + b) == ErrorDialogs(a) + ErrorDialogs(b)
  {
    if a == [] {
      assert a + b == b;
    } else {
      assert (a + b)[0] == a[0];
      assert (a + b)[1..] == a[1..] + b;
      ErrorDialogsAppend(a[1..], b);
    }
  }

  lemma {:induction false} NoErrorDialogs(ms: seq<Msg>)
    requires forall j :: 0 <= j < |ms| ==> !ms[j].Error?
    ensures ErrorDialogs(ms) == []
  {
    if ms != [] {
      NoErrorDialogs(ms[1..]);
    }
  }

  /** A list ending in its only error or done message raises one dialog when that message is an error, none otherwise. */
  lemma FinalDialog(ms: seq<Msg>)
    requires EndsOnce(ms)
    ensures ErrorDialogs(ms) == if ms[|ms| - 1].Error? then [ErrorBox("Training Error", ms[|ms| - 1].text)] else []
  {
    var last := ms[|ms| - 1];
    var front := ms[..|ms| - 1];
    assert ms == front + [last];
    assert forall j :: 0 <= j < |front| ==> !front[j].Error? by {
      forall j | 0 <= j < |front| ensures !front[j].Error? {
        assert front[j] == ms[j];
      }
    }
    NoErrorDialogs(front);
    ErrorDialogsAppend(front, [last]);
    assert [last][1..] == [];
  }

  /** Pumping a whole run shows exactly one error dialog, with the exception's text, when the pickle was not written, and none when it was. */
  lemma WorkerDialogs(setup: Option<string>, images: seq<ImageFile>, stop: nat -> bool,
                      save: Option<string>, out: string)
    ensures var ms := WorkerMsgs(setup, images, stop, save, out);
            && (WorkerSaved(setup, images, stop, save).Some? ==> ErrorDialogs(ms) == [])
            && (WorkerSaved(setup, images, stop, save).None? ==>
                  ErrorDialogs(ms) == [ErrorBox("Training Error", ms[|ms| - 1].text)])
  {
    WorkerResult(setup, images, stop, save, out);
    FinalDialog(WorkerMsgs(setup, images, stop, save, out));
  }

  /** The pumped progress messages set the counter to `i / total` and the bar to `i` out of at least 1. */
  lemma PumpProgress(u: Ui, i: nat, total: nat, ms: seq<Msg>, disk: map<string, FaceId.Store>)
    requires forall j :: 0 <= j < |ms| ==> ms[j].Log?
    ensures var r := ApplyAll(Apply(u, Prog(i, total), disk), ms, disk);
            r.value == i && r.maximum == Max1(total) && r.countText == Counter(i, total)
    ensures ApplyAll(u, [Total(total)], disk).countText == Counter(0, total)
  {
    QuietKeepsProgress(Apply(u, Prog(i, total), disk), ms, disk);
  }

  lemma {:induction false} QuietKeepsProgress(u: Ui, ms: seq<Msg>, disk: map<string, FaceId.Store>)
    requires forall j :: 0 <= j < |ms| ==> ms[j].Log?
    ensures var r := ApplyAll(u, ms, disk);
            r.value == u.value && r.maximum == u.maximum && r.countText == u.countText
    decreases |ms|
  {
    if ms != [] {
      QuietKeepsProgress(Apply(u, ms[0], disk), ms[1..], disk);
    }
  }

  // ---------------------------------------------------------------------------
  // The screen object

  /** Messages other than `done` leave the home recogniser as it was. */
  lemma {:induction false} NoDoneKeepsHome(u: Ui, ms: seq<Msg>, disk: map<string, FaceId.Store>)
    requires forall j :: 0 <= j < |ms| ==> !ms[j].Done?
    ensures ApplyAll(u, ms, disk).home == u.home
    decreases |ms|
  {
    if ms != [] {
      NoDoneKeepsHome(Apply(u, ms[0], disk), ms[1..], disk);
    }
  }

  /**
   * A run that wrote its pickle to `out`, once pumped, leaves the home
   * recogniser, when there is one, loaded with exactly the training data the
   * run saved.
   */
  lemma PickleReachesHome(u: Ui, setup: Option<string>, images: seq<ImageFile>, stop: nat -> bool,
                          save: Option<string>, out: string, disk: map<string, FaceId.Store>)
    requires WorkerSaved(setup, images, stop, save).Some? && u.home.Some?
    requires out != [] && out in disk && disk[out] == WorkerSaved(setup, images, stop, save).value
    ensures ApplyAll(u, WorkerMsgs(setup, images, stop, save, out), disk).home ==
            Some(FaceId.Loaded(u.home.value.root, disk[out].encodings, disk[out].names, true))
  {
    ScanProgress(images, stop, |images|);
    var front := [Total(|images|)] + Scan(images, stop, |images|).msgs + [Log(CompleteLine(out))];
    assert WorkerMsgs(setup, images, stop, save, out) == front + [Done(out)];
    ApplyAllAppend(u, front, [Done(out)], disk);
    NoDoneKeepsHome(u, front, disk);
  }

  class TrainFacesScreen {
    /** The project root the pickle is written under. */
    const root: string
    /** The home screen's recogniser, or null when the home screen has none. */
    const home: FaceId.FaceIdentifier?
    var entry: string
    var workerAlive: bool
    var stopFlag: bool
    var queue: seq<Msg>
    var log: seq<string>
    var value: nat
    var maximum: nat
    var countText: string
    var dialogs: seq<Dialog>

    function UiView(): Ui
      reads this, home
    {
      Ui(log, value, maximum, countText, dialogs, if home == null then None else Some(home.View()))
    }

    function View(): Screen
      reads this, home
    {
      Screen(UiView(), entry, workerAlive, stopFlag, queue)
    }

    ghost predicate Valid()
      reads this, home
    {
      maximum >= 1 && (home != null ==> home.Valid())
    }

    /** `__init__`: the entry reads `dataset`, the counter `0 / 0`, no worker, an empty queue. */
    constructor (root: string, home: FaceId.FaceIdentifier?)
      requires home != null ==> home.Valid()
      ensures Valid() && this.root == root && this.home == home
      ensures View() == Screen(Ui([], 0, 100, "0 / 0", [], if home == null then None else Some(home.View())),
                               DefaultDataset, false, false, [])
    {
      this.root := root;
      this.home := home;
      entry := DefaultDataset;
      workerAlive, stopFlag := false, false;
      queue := [];
      log := [];
      value, maximum := 0, 100;
      countText := "0 / 0";
      dialogs := [];
    }

    /** `start_training()`, with `dirs` the directories that exist. */
    method StartTraining(dirs: set<string>) returns (r: StartResult)
      requires Valid()
      modifies this
      ensures Valid()
      ensures (View(), r) == AfterStart(old(View()), dirs)
    {
      var dir := DatasetDir(entry);
      if workerAlive {
        Notify(InfoBox("Training", "Training is already running."));
        return AlreadyRunning;
      }
      if dir !in dirs {
        Notify(ErrorBox("Not Found", "Folder not found: " + dir));
        return NotFound(dir);
      }
      Begin();
      r := Started(dir);
    }

    /** A run begins: the log is down to the start line, the bar and counter are zeroed, the stop flag lowered. */
    method Begin()
      modifies this
      ensures View() == old(View()).(ui := old(UiView()).(log := [StartLine], value := 0, countText := "0 / 0"),
                                    stopFlag := false, workerAlive := true)
    {
      value := 0;
      countText := "0 / 0";
      stopFlag := false;
      workerAlive := true;
      log := [StartLine];
    }

    /** A message box is shown; nothing else changes. */
    method Notify(d: Dialog)
      modifies this
      ensures View() == old(View()).(ui := old(UiView()).(dialogs := old(dialogs) + [d]))
    {
      dialogs := dialogs + [d];
    }

    /**
     * `_train_worker(dataset_dir)`, run to completion: posts its messages to the
     * queue and returns the pickle it wrote. The worker thread ends afterwards.
     */
    method TrainWorker(setup: Option<string>, images: seq<ImageFile>, stop: nat -> bool, save: Option<string>)
      returns (saved: Option<FaceId.Store>)
      requires workerAlive
      modifies this
      ensures View() == old(View()).(workerAlive := false,
                                    queue := old(queue) + WorkerMsgs(setup, images, stop, save, Join(root, FaceId.PickleName)))
      ensures saved == WorkerSaved(setup, images, stop, save)
    {
      var out := Join(root, FaceId.PickleName);
      if setup.Some? {
        queue := queue + [Error(setup.value)];
        workerAlive := false;
        return None;
      }
      var p := ScanImages(images, stop);
      var posted := [Total(|images|)] + p.msgs;
      match p.outcome {
        case Raised(e) =>
          posted := posted + [Error(e)];
          saved := None;
        case _ =>
          if save.Some? {
            posted := posted + [Error(save.value)];
            saved := None;
          } else {
            posted := posted + [Log(CompleteLine(out)), Done(out)];
            saved := Some(FaceId.Store(p.encodings, p.names));
          }
      }
      queue := queue + posted;
      workerAlive := false;
    }

    /** `_drain_logs()`: one timer tick empties the queue into the widgets. */
    method DrainLogs(disk: map<string, FaceId.Store>)
      requires Valid()
      modifies this, home
      ensures Valid()
      ensures View() == old(View()).(ui := ApplyAll(old(UiView()), old(queue), disk), queue := [])
    {
      while queue != []
        invariant Valid()
        invariant ApplyAll(UiView(), queue, disk) == ApplyAll(old(UiView()), old(queue), disk)
        invariant entry == old(entry) && workerAlive == old(workerAlive) && stopFlag == old(stopFlag)
        decreases |queue|
      {
        var m := queue[0];
        queue := queue[1..];
        Handle(m, disk);
      }
    }

    /** One message of the pump's loop, by kind. */
    method Handle(m: Msg, disk: map<string, FaceId.Store>)
      requires Valid()
      modifies this, home
      ensures Valid()
      ensures UiView() == Apply(old(UiView()), m, disk)
      ensures entry == old(entry) && workerAlive == old(workerAlive) && stopFlag == old(stopFlag)
      ensures queue == old(queue)
    {
      match m {
        case Log(t) =>
          log := log + [t];
        case Total(n) =>
          value := 0;
          maximum := Max1(n);
          countText := "0 / " + NatToString(n);
        case Prog(i, t) =>
          maximum := Max1(t);
          value := i;
          countText := Counter(i, t);
        case Done(path) =>
          if home != null {
            home.Reload(Some(path), disk);
            log := log + [DoneLine, ReloadedLine];
          } else {
            log := log + [DoneLine];
          }
        case Error(e) =>
          log := log + ["[ERROR] " + e];
          dialogs := dialogs + [ErrorBox("Training Error", e)];
      }
    }
  }
}
