/**
 * Face labelling around an opaque recogniser (`FaceIdentifier` in
 * GUIproject/shared/faceid.py).
 *
 * The `face_recognition` library is outside the model: whether it imported
 * (`FACE_LIB_OK`), the boxes and encodings it detects in the downscaled frame,
 * and its per-pair match flag and distance are inputs. The pickle files on disk
 * are a map from path to the store it holds.
 */
module FaceId {
  import opened Wrappers
  import opened Text
  import Camera

  /** A face encoding; its 128 components are opaque here. */
  type Encoding = seq<real>

  /** The pickled training result: `{"encodings": [...], "names": [...]}`. */
  datatype Store = Store(encodings: seq<Encoding>, names: seq<string>)

  /** A detected face's box, `(top, right, bottom, left)`. */
  datatype Box = Box(top: int, right: int, bottom: int, left: int)

  const Unknown := "Unknown"
  const PickleName := "encodings.pickle"

  /** Python's `int(x)` on a float: truncation toward zero. */
  function Trunc(x: real): (r: int)
    ensures x >= 0.0 ==> r as real <= x < r as real + 1.0
    ensures x < 0.0 ==> r as real - 1.0 < x <= r as real
  {
    if x >= 0.0 then x.Floor else -((-x).Floor)
  }

  /** `max(1, int(scaler))`. */
  function ClampScaler(s: real): (r: int)
  {
    if Trunc(s) >= 1 then Trunc(s) else 1
  }

  /** The stored scaler is at least 1, and it is the requested one whenever that is a whole number of at least 1. */
  lemma ClampScalerBounds(s: real)
    ensures ClampScaler(s) >= 1
    ensures s >= 1.0 ==> ClampScaler(s) as real <= s < ClampScaler(s) as real + 1.0
    ensures s < 1.0 ==> ClampScaler(s) == 1
  {
  }

  /** `np.argmin`: the first index holding the smallest distance. */
  function ArgMin(ds: seq<real>): (k: nat)
    requires |ds| > 0
    ensures k < |ds|
    ensures forall j :: 0 <= j < |ds| ==> ds[k] <= ds[j]
    ensures forall j :: 0 <= j < k ==> ds[k] < ds[j]
  {
    if |ds| == 1 then 0
    else
      var k := ArgMin(ds[..|ds| - 1]);
      if ds[|ds| - 1] < ds[k] then |ds| - 1 else k
  }

  /** An index is the first minimum of `ds` exactly when it is `ArgMin(ds)`. */
  lemma FirstMinUnique(ds: seq<real>, k: nat)
    requires k < |ds|
    requires forall j :: 0 <= j < |ds| ==> ds[k] <= ds[j]
    requires forall j :: 0 <= j < k ==> ds[k] < ds[j]
    ensures k == ArgMin(ds)
  {
    var a := ArgMin(ds);
    assert ds[a] <= ds[k] && ds[k] <= ds[a];
    assert !(a < k);
    assert !(k < a);
  }

  /** `face_distance(known, e)`. */
  function Distances(known: seq<Encoding>, e: Encoding, distance: (Encoding, Encoding) -> real): (ds: seq<real>)
    ensures |ds| == |known|
    ensures forall k :: 0 <= k < |known| ==> ds[k] == distance(known[k], e)
  {
    seq(|known|, k requires 0 <= k < |known| => distance(known[k], e))
  }

  /**
   * The label of one detected face: "Unknown" without known encodings;
   * otherwise the name at the first closest known encoding when that one
   * matches, and "Unknown" when it does not. None where `names[best]` raises.
   */
  function NameFor(known: Store, e: Encoding,
                   isMatch: (Encoding, Encoding) -> bool,
                   distance: (Encoding, Encoding) -> real): Option<string>
  {
    if known.encodings == [] then Some(Unknown)
    else
      var best := ArgMin(Distances(known.encodings, e, distance));
      if !isMatch(known.encodings[best], e) then Some(Unknown)
      else if best < |known.names| then Some(known.names[best])
      else None
  }

  /**
   * A face is named after a known encoding `k` exactly when `k` is the first
   * closest known encoding and it matches; every other face is "Unknown".
   */
  lemma NameRule(known: Store, e: Encoding,
                 isMatch: (Encoding, Encoding) -> bool,
                 distance: (Encoding, Encoding) -> real, k: nat)
    requires |known.encodings| == |known.names| && k < |known.encodings|
    requires forall j :: 0 <= j < |known.encodings| ==> distance(known.encodings[k], e) <= distance(known.encodings[j], e)
    requires forall j :: 0 <= j < k ==> distance(known.encodings[k], e) < distance(known.encodings[j], e)
    ensures isMatch(known.encodings[k], e) ==> NameFor(known, e, isMatch, distance) == Some(known.names[k])
    ensures !isMatch(known.encodings[k], e) ==> NameFor(known, e, isMatch, distance) == Some(Unknown)
  {
    var ds := Distances(known.encodings, e, distance);
    FirstMinUnique(ds, k);
  }

  /** With no known encodings every face is "Unknown"; with matching lengths a name is always found. */
  lemma NameTotal(known: Store, e: Encoding,
                  isMatch: (Encoding, Encoding) -> bool,
                  distance: (Encoding, Encoding) -> real)
    ensures known.encodings == [] ==> NameFor(known, e, isMatch, distance) == Some(Unknown)
    ensures |known.encodings| <= |known.names| ==> NameFor(known, e, isMatch, distance).Some?
    ensures NameFor(known, e, isMatch, distance).Some? ==>
              NameFor(known, e, isMatch, distance).value == Unknown
              || NameFor(known, e, isMatch, distance).value in known.names
  {
  }

  /** Box coordinates scaled back from the downscaled frame to the original resolution. */
  function Upscale(boxes: seq<Box>, scale: int): (r: seq<Box>)
    ensures |r| == |boxes|
  {
    seq(|boxes|, k requires 0 <= k < |boxes| =>
      Box(boxes[k].top * scale, boxes[k].right * scale, boxes[k].bottom * scale, boxes[k].left * scale))
  }

  /** Upscaling multiplies every coordinate by the scaler, so dividing by it gives the detected box back. */
  lemma UpscaleInverts(boxes: seq<Box>, scale: int, k: nat)
    requires scale >= 1 && k < |boxes|
    ensures Upscale(boxes, scale)[k].top == boxes[k].top * scale
    ensures Upscale(boxes, scale)[k].left == boxes[k].left * scale
    ensures Upscale(boxes, scale)[k].top / scale == boxes[k].top
    ensures Upscale(boxes, scale)[k].right / scale == boxes[k].right
    ensures Upscale(boxes, scale)[k].bottom / scale == boxes[k].bottom
    ensures Upscale(boxes, scale)[k].left / scale == boxes[k].left
  {
    var b := boxes[k];
    DivMul(b.top, scale);
    DivMul(b.right, scale);
    DivMul(b.bottom, scale);
    DivMul(b.left, scale);
  }

  lemma DivMul(x: int, s: int)
    requires s >= 1
    ensures (x * s) / s == x
  {
    var q, r := (x * s) / s, (x * s) % s;
    assert x * s == q * s + r && 0 <= r < s;
    assert (x - q) * s == r by {
      assert (x - q) * s == x * s - q * s;
    }
    if x - q >= 1 {
      MulAtLeast(x - q, s);
    } else if x - q <= -1 {
      MulAtLeast(q - x, s);
    }
  }

  lemma MulAtLeast(a: int, s: int)
    requires a >= 1 && s >= 1
    ensures a * s >= s
  {
    assert a * s == (a - 1) * s + s;
    assert (a - 1) * s >= 0;
  }

  /** What a recogniser holds: the project root it falls back to, the store, and whether a pickle was loaded. */
  datatype Loaded = Loaded(root: string, encodings: seq<Encoding>, names: seq<string>, loadOk: bool)

  /** The file `reload(path)` reads: a non-empty `path`, or `encodings.pickle` under the project root. */
  function ReloadPath(root: string, path: Option<string>): string
  {
    if path.Some? && path.value != "" then path.value else Join(root, PickleName)
  }

  /** The recogniser after `reload(path)`. */
  function AfterReload(l: Loaded, path: Option<string>, disk: map<string, Store>): (r: Loaded)
  {
    var p := ReloadPath(l.root, path);
    if p in disk then Loaded(l.root, disk[p].encodings, disk[p].names, true)
    else Loaded(l.root, [], [], false)
  }

  /**
   * A reload replaces the whole store: it succeeds exactly when the file exists,
   * then holds that file's store; it forgets what was loaded before, so reloading
   * twice is reloading once; no path and an empty path both mean the default file.
   */
  lemma ReloadReplaces(l: Loaded, l2: Loaded, path: Option<string>, disk: map<string, Store>)
    requires l2.root == l.root
    ensures AfterReload(l, path, disk).loadOk <==> ReloadPath(l.root, path) in disk
    ensures ReloadPath(l.root, path) in disk ==>
              Store(AfterReload(l, path, disk).encodings, AfterReload(l, path, disk).names) == disk[ReloadPath(l.root, path)]
    ensures ReloadPath(l.root, path) !in disk ==> AfterReload(l, path, disk).encodings == []
    ensures AfterReload(l2, path, disk) == AfterReload(l, path, disk)
    ensures AfterReload(AfterReload(l, path, disk), path, disk) == AfterReload(l, path, disk)
    ensures AfterReload(l, None, disk) == AfterReload(l, Some(""), disk)
    ensures AfterReload(l, None, disk) == AfterReload(l, Some(Join(l.root, PickleName)), disk)
  {
  }

  /** What `annotate_pil` returns when the library, the encodings or the image is missing. */
  predicate Disabled(libOk: bool, loadOk: bool, image: Option<Camera.Frame>)
  {
    !(libOk && loadOk && image.Some?)
  }

  class FaceIdentifier {
    /** Whether `import face_recognition` succeeded (`FACE_LIB_OK`). */
    const libOk: bool
    /** The project root `reload()` falls back to. */
    const root: string
    const model: string
    var scaler: int
    var encodings: seq<Encoding>
    var names: seq<string>
    var loadOk: bool

    ghost predicate Valid()
      reads this
    {
      scaler >= 1
    }

    /** The part of the recogniser that `reload()` rewrites. */
    function View(): Loaded
      reads this
    {
      Loaded(root, encodings, names, loadOk)
    }

    /** `__init__`: clamp the scaler and load the pickle when the library is there and the file exists. */
    constructor (encodingsPath: string, scaler: real, model: string, libOk: bool, root: string,
                 disk: map<string, Store>)
      ensures Valid() && this.scaler == ClampScaler(scaler)
      ensures this.libOk == libOk && this.root == root && this.model == model
      ensures loadOk == (libOk && encodingsPath in disk)
      ensures loadOk ==> encodings == disk[encodingsPath].encodings && names == disk[encodingsPath].names
      ensures !loadOk ==> encodings == [] && names == []
    {
      this.scaler := ClampScaler(scaler);
      this.model := model;
      this.libOk := libOk;
      this.root := root;
      if libOk && encodingsPath in disk {
        encodings := disk[encodingsPath].encodings;
        names := disk[encodingsPath].names;
        loadOk := true;
      } else {
        encodings := [];
        names := [];
        loadOk := false;
      }
    }

    /**
     * `annotate_pil`: given the boxes and encodings the library detects in the
     * downscaled frame, the upscaled boxes and one name per encoding; empty
     * lists when disabled; a failure where `names[best]` raises `IndexError`.
     */
    method AnnotatePil(image: Option<Camera.Frame>, boxes: seq<Box>, encs: seq<Encoding>,
                       isMatch: (Encoding, Encoding) -> bool,
                       distance: (Encoding, Encoding) -> real)
      returns (r: Result<(seq<Box>, seq<string>)>)
      requires Valid()
      ensures Disabled(libOk, loadOk, image) ==> r == Success(([], []))
      ensures !Disabled(libOk, loadOk, image) ==>
                (r.Success? <==> forall k :: 0 <= k < |encs| ==> NameFor(Store(encodings, names), encs[k], isMatch, distance).Some?)
      ensures !Disabled(libOk, loadOk, image) && r.Success? ==>
                && r.value.0 == Upscale(boxes, scaler)
                && |r.value.1| == |encs|
                && forall k :: 0 <= k < |encs| ==> Some(r.value.1[k]) == NameFor(Store(encodings, names), encs[k], isMatch, distance)
    {
      if !(libOk && loadOk && image.Some?) {
        return Success(([], []));
      }
      var known := Store(encodings, names);
      var labels: seq<string> := [];
      var i := 0;
      while i < |encs|
        invariant 0 <= i <= |encs| && |labels| == i
        invariant forall k :: 0 <= k < i ==> Some(labels[k]) == NameFor(known, encs[k], isMatch, distance)
      {
        var e := encs[i];
        if encodings == [] {
          labels := labels + [Unknown];
        } else {
          var dists := Distances(encodings, e, distance);
          var best := ArgMin(dists);
          if best >= 0 && isMatch(encodings[best], e) {
            if best >= |names| {
              return Failure("list index out of range");
            }
            labels := labels + [names[best]];
          } else {
            labels := labels + [Unknown];
          }
        }
        i := i + 1;
      }
      r := Success((Upscale(boxes, scaler), labels));
    }

    /**
     * `reload(path)`: read the given pickle, or the project root's default one;
     * a missing file empties the store and marks it not loaded. The library
     * flag is not consulted.
     */
    method Reload(path: Option<string>, disk: map<string, Store>)
      requires Valid()
      modifies this
      ensures Valid() && scaler == old(scaler)
      ensures View() == AfterReload(old(View()), path, disk)
    {
      var p := ReloadPath(root, path);
      if p in disk {
        encodings := disk[p].encodings;
        names := disk[p].names;
        loadOk := true;
      } else {
        encodings, names := [], [];
        loadOk := false;
      }
    }
  }
}
