/** The face-detection screen: the camera frame's orientation is derived from
    the device orientation, the detector's faces are drawn as red rectangles
    (subviews tagged 100) over the camera preview, and each new detection result
    replaces the rectangles of the previous one. */
module FaceDetection {
  import opened Detection

  // ---------------------------------------------------------------------------
  // Orientation mapping

  datatype DeviceOrientation =
    | Unknown | Portrait | PortraitUpsideDown | LandscapeLeft | LandscapeRight | FaceUp | FaceDown

  datatype CameraPosition = Unspecified | Back | Front

  datatype ImageOrientation =
    | Up | Down | Left | Right | UpMirrored | DownMirrored | LeftMirrored | RightMirrored

  /** The four orientations in which the device stands upright on an edge. */
  predicate IsUpright(d: DeviceOrientation) {
    d.Portrait? || d.PortraitUpsideDown? || d.LandscapeLeft? || d.LandscapeRight?
  }

  predicate IsMirrored(o: ImageOrientation) {
    o.UpMirrored? || o.DownMirrored? || o.LeftMirrored? || o.RightMirrored?
  }

  /** The orientation the detector is told the camera image has. Only `Back`
      selects the mirrored column; `Front` and `Unspecified` both take the other. */
  function ImageOrientationFor(d: DeviceOrientation, camera: CameraPosition): ImageOrientation {
    match d
    case Portrait => if camera == Back then LeftMirrored else Right
    case LandscapeLeft => if camera == Back then DownMirrored else Up
    case PortraitUpsideDown => if camera == Back then RightMirrored else Left
    case LandscapeRight => if camera == Back then UpMirrored else Down
    case FaceDown | FaceUp | Unknown => Up
  }

  /** Reference encoding of an upright device orientation as a number of
      quarter turns, in the cyclic order portrait, landscape right, upside down,
      landscape left. */
  function DeviceTurns(d: DeviceOrientation): (t: nat)
    requires IsUpright(d)
    ensures t < 4
  {
    match d
    case Portrait => 0
    case LandscapeRight => 1
    case PortraitUpsideDown => 2
    case LandscapeLeft => 3
  }

  /** Reference encoding of image orientations: quarter turns in the cyclic
      order up, right, down, left, plus a mirror flag. */
  function Oriented(turns: nat, mirrored: bool): (o: ImageOrientation)
    requires turns < 4
    ensures IsMirrored(o) == mirrored
  {
    if !mirrored then [Up, Right, Down, Left][turns]
    else [UpMirrored, RightMirrored, DownMirrored, LeftMirrored][turns]
  }

  /** The table is a rotation: the front (or unspecified) camera is one quarter
      turn ahead of the device, unmirrored; the back camera three quarter turns
      ahead, mirrored. */
  lemma UprightOrientationIsRotation(d: DeviceOrientation, camera: CameraPosition)
    requires IsUpright(d)
    ensures ImageOrientationFor(d, camera) ==
              if camera == Back then Oriented((DeviceTurns(d) + 3) % 4, true)
              else Oriented((DeviceTurns(d) + 1) % 4, false)
  {
  }

  /** Lying flat or unknown gives `Up`, whatever the camera. */
  lemma FlatOrientationIsUp(d: DeviceOrientation, camera: CameraPosition)
    requires !IsUpright(d)
    ensures ImageOrientationFor(d, camera) == Up
  {
  }

  /** For an upright device the result is mirrored exactly for the back camera. */
  lemma MirroredIffBackCamera(d: DeviceOrientation, camera: CameraPosition)
    requires IsUpright(d)
    ensures IsMirrored(ImageOrientationFor(d, camera)) <==> camera == Back
  {
    UprightOrientationIsRotation(d, camera);
  }

  lemma BackCameraTable()
    ensures ImageOrientationFor(Portrait, Back) == LeftMirrored
    ensures ImageOrientationFor(LandscapeLeft, Back) == DownMirrored
    ensures ImageOrientationFor(PortraitUpsideDown, Back) == RightMirrored
    ensures ImageOrientationFor(LandscapeRight, Back) == UpMirrored
  {
  }

  /** The front camera is the position the capture callback passes. */
  lemma FrontCameraTable(camera: CameraPosition)
    requires camera != Back
    ensures ImageOrientationFor(Portrait, camera) == Right
    ensures ImageOrientationFor(LandscapeLeft, camera) == Up
    ensures ImageOrientationFor(PortraitUpsideDown, camera) == Left
    ensures ImageOrientationFor(LandscapeRight, camera) == Down
  {
  }

  /** For a fixed camera the four upright orientations give four distinct
      image orientations. */
  lemma UprightOrientationsDistinct(d1: DeviceOrientation, d2: DeviceOrientation, camera: CameraPosition)
    requires IsUpright(d1) && IsUpright(d2) && d1 != d2
    ensures ImageOrientationFor(d1, camera) != ImageOrientationFor(d2, camera)
  {
    UprightOrientationIsRotation(d1, camera);
    UprightOrientationIsRotation(d2, camera);
  }

  // ---------------------------------------------------------------------------
  // Face overlays

  /** The tag that marks a face rectangle among the root view's subviews. */
  const OverlayTag := 100

  /** A subview, reduced to what the screen's logic looks at. */
  datatype View = View(tag: int, frame: Rect)

  /** A detected face, reduced to its bounding frame. */
  datatype Face = Face(frame: Rect)

  predicate IsOverlay(v: View) {
    v.tag == OverlayTag
  }

  /** The rectangle drawn for one face. */
  function OverlayFor(face: Face): View {
    View(OverlayTag, face.frame)
  }

  /** The subviews of `s` that are not face overlays, in their order. */
  function NonOverlays(s: seq<View>): (r: seq<View>)
    ensures |r| <= |s|
    ensures forall k :: 0 <= k < |r| ==> !IsOverlay(r[k])
  {
    if s == [] then []
    else
      var init, last := s[..|s| - 1], s[|s| - 1];
      assert s == init + [last];
      NonOverlays(init) + (if IsOverlay(last) then [] else [last])
  }

  /** The face overlays among the subviews `s`, in their order. */
  function Overlays(s: seq<View>): (r: seq<View>)
    ensures |r| <= |s|
    ensures forall k :: 0 <= k < |r| ==> IsOverlay(r[k])
  {
    if s == [] then []
    else
      var init, last := s[..|s| - 1], s[|s| - 1];
      assert s == init + [last];
      Overlays(init) + (if IsOverlay(last) then [last] else [])
  }

  /** One overlay per face, in face order. */
  function FaceOverlays(faces: seq<Face>): (r: seq<View>)
    ensures |r| == |faces|
  {
    if faces == [] then []
    else FaceOverlays(faces[..|faces| - 1]) + [OverlayFor(faces[|faces| - 1])]
  }

  /** The overlays added are one per face, the k-th carrying the k-th face's
      frame. */
  lemma {:induction false} FaceOverlaysAt(faces: seq<Face>)
    ensures forall k :: 0 <= k < |faces| ==> FaceOverlays(faces)[k] == OverlayFor(faces[k])
  {
    if faces != [] {
      FaceOverlaysAt(faces[..|faces| - 1]);
    }
  }

  /** Adding the overlay of face `j` extends the overlays of the faces before it. */
  lemma FaceOverlaysStep(faces: seq<Face>, j: nat)
    requires j < |faces|
    ensures FaceOverlays(faces[..j + 1]) == FaceOverlays(faces[..j]) + [OverlayFor(faces[j])]
  {
    assert faces[..j + 1][..j] == faces[..j];
  }

  /** The subviews after one detection result with `faces` has been handled. */
  function AfterFaces(subviews: seq<View>, faces: seq<Face>): seq<View> {
    NonOverlays(subviews) + FaceOverlays(faces)
  }

  lemma {:induction false} NonOverlaysAppend(a: seq<View>, b: seq<View>)
    ensures NonOverlays(a + b) == NonOverlays(a) + NonOverlays(b)
  {
    if b != [] {
      var init := b[..|b| - 1];
      assert (a + b)[..|a + b| - 1] == a + init;
      assert (a + b)[|a + b| - 1] == b[|b| - 1];
      NonOverlaysAppend(a, init);
    } else {
      assert a + b == a;
    }
  }

  lemma {:induction false} OverlaysAppend(a: seq<View>, b: seq<View>)
    ensures Overlays(a + b) == Overlays(a) + Overlays(b)
  {
    if b != [] {
      var init := b[..|b| - 1];
      assert (a + b)[..|a + b| - 1] == a + init;
      assert (a + b)[|a + b| - 1] == b[|b| - 1];
      OverlaysAppend(a, init);
    } else {
      assert a + b == a;
    }
  }

  /** A sequence with no overlay keeps all of itself under NonOverlays. */
  lemma {:induction false} NonOverlaysOfPlain(s: seq<View>)
    requires forall k :: 0 <= k < |s| ==> !IsOverlay(s[k])
    ensures NonOverlays(s) == s
    ensures Overlays(s) == []
  {
    if s != [] {
      NonOverlaysOfPlain(s[..|s| - 1]);
      assert s == s[..|s| - 1] + [s[|s| - 1]];
    }
  }

  /** A sequence of overlays only keeps all of itself under Overlays. */
  lemma {:induction false} OverlaysOfOverlays(s: seq<View>)
    requires forall k :: 0 <= k < |s| ==> IsOverlay(s[k])
    ensures Overlays(s) == s
    ensures NonOverlays(s) == []
  {
    if s != [] {
      OverlaysOfOverlays(s[..|s| - 1]);
      assert s == s[..|s| - 1] + [s[|s| - 1]];
    }
  }

  /** NonOverlays keeps every subview that is not an overlay and invents none. */
  lemma {:induction false} NonOverlaysMembers(s: seq<View>, v: View)
    ensures v in NonOverlays(s) <==> v in s && !IsOverlay(v)
  {
    if s != [] {
      var init := s[..|s| - 1];
      NonOverlaysMembers(init, v);
      assert s == init + [s[|s| - 1]];
    }
  }

  /** Splitting the subviews into overlays and the rest loses and invents nothing. */
  lemma {:induction false} OverlaySplitIsPartition(s: seq<View>)
    ensures multiset(NonOverlays(s)) + multiset(Overlays(s)) == multiset(s)
  {
    if s != [] {
      var init := s[..|s| - 1];
      OverlaySplitIsPartition(init);
      assert s == init + [s[|s| - 1]];
    }
  }

  /** After handling `faces`, the overlays present are exactly one per face,
      in face order, each with its face's frame: there are `|faces|` of them. */
  lemma OverlaysAfterFaces(subviews: seq<View>, faces: seq<Face>)
    ensures Overlays(AfterFaces(subviews, faces)) == FaceOverlays(faces)
    ensures |Overlays(AfterFaces(subviews, faces))| == |faces|
  {
    var kept := NonOverlays(subviews);
    NonOverlaysOfPlain(kept);
    FaceOverlaysAt(faces);
    OverlaysOfOverlays(FaceOverlays(faces));
    OverlaysAppend(kept, FaceOverlays(faces));
  }

  /** Subviews that are not overlays survive, in their original relative order. */
  lemma NonOverlaysAfterFaces(subviews: seq<View>, faces: seq<Face>)
    ensures NonOverlays(AfterFaces(subviews, faces)) == NonOverlays(subviews)
  {
    var kept := NonOverlays(subviews);
    NonOverlaysOfPlain(kept);
    FaceOverlaysAt(faces);
    OverlaysOfOverlays(FaceOverlays(faces));
    NonOverlaysAppend(kept, FaceOverlays(faces));
  }

  /** No overlay from before the call remains: every overlay in the result sits
      after the kept subviews and is the rectangle of the matching face. */
  lemma OldOverlaysGone(subviews: seq<View>, faces: seq<Face>)
    ensures forall k :: 0 <= k < |AfterFaces(subviews, faces)| ==>
              (IsOverlay(AfterFaces(subviews, faces)[k]) <==> k >= |NonOverlays(subviews)|)
    ensures forall k :: |NonOverlays(subviews)| <= k < |AfterFaces(subviews, faces)| ==>
              AfterFaces(subviews, faces)[k] == OverlayFor(faces[k - |NonOverlays(subviews)|])
  {
    FaceOverlaysAt(faces);
  }

  /** Handling a second result discards everything the first one drew: the
      overlays do not accumulate from one result to the next. */
  lemma AfterFacesReplaces(subviews: seq<View>, first: seq<Face>, second: seq<Face>)
    ensures AfterFaces(AfterFaces(subviews, first), second) == AfterFaces(subviews, second)
  {
    NonOverlaysAfterFaces(subviews, first);
  }

  /** One step of the clearing walk over a snapshot: with the first `i`
      snapshot entries visited, the live list is the kept ones followed by the
      unvisited rest, and visiting entry `i` keeps it in that form. */
  lemma ClearStep(snapshot: seq<View>, i: nat)
    requires i < |snapshot|
    ensures var live := NonOverlays(snapshot[..i]) + snapshot[i..];
            NonOverlays(snapshot[..i + 1]) + snapshot[i + 1..] ==
              if IsOverlay(snapshot[i]) then RemoveFirst(live, snapshot[i]) else live
  {
    var x, kept, rest := snapshot[i], NonOverlays(snapshot[..i]), snapshot[i + 1..];
    assert snapshot[..i + 1][..i] == snapshot[..i];
    assert snapshot[i..] == [x] + rest;
    if IsOverlay(x) {
      assert NonOverlays(snapshot[..i + 1]) == kept;
      RemoveFirstBehind(kept, x, rest);
    } else {
      assert NonOverlays(snapshot[..i + 1]) == kept + [x];
      assert (kept + [x]) + rest == kept + ([x] + rest);
    }
  }

  /** The root view of the screen, reduced to its list of subviews. */
  class ContainerView {
    var subviews: seq<View>

    constructor (initial: seq<View>)
      ensures subviews == initial
    {
      subviews := initial;
    }

    /** `addSubview(v)` for a view that is not yet a subview: it goes on top. */
    method AddSubview(v: View)
      modifies this
      ensures subviews == old(subviews) + [v]
    {
      subviews := subviews + [v];
    }

    /** `v.removeFromSuperview()` where this view is `v`'s superview. */
    method RemoveSubview(v: View)
      modifies this
      ensures subviews == RemoveFirst(old(subviews), v)
    {
      subviews := RemoveFirst(subviews, v);
    }
  }

  /** The face-detection view controller. */
  class FaceDetectionController {
    const view: ContainerView
    var hasFaceDetector: bool

    /** The controller once its view is loaded, before its detector is set up. */
    constructor (root: ContainerView)
      ensures view == root && !hasFaceDetector
    {
      view := root;
      hasFaceDetector := false;
    }

    /** `setupFaceDetector`: the options and the detector itself are foreign;
        what the rest of the controller sees is that a detector now exists. */
    method SetupFaceDetector()
      modifies this
      ensures hasFaceDetector
    {
      hasFaceDetector := true;
    }

    /** `captureOutput`: without a detector nothing happens; otherwise the frame
        goes to the detector with the front-camera orientation for the current
        device orientation, and the detector's answer goes to the completion
        handler. `detect` stands for the detector run on this frame. */
    method CaptureOutput(device: DeviceOrientation, detect: ImageOrientation -> DetectorOutput<Face>)
      modifies view
      ensures !hasFaceDetector ==> view.subviews == old(view.subviews)
      ensures hasFaceDetector ==>
        var out := detect(ImageOrientationFor(device, Front));
        view.subviews == if AcceptedFaces(out).Some?
                         then AfterFaces(old(view.subviews), AcceptedFaces(out).value)
                         else old(view.subviews)
    {
      if !hasFaceDetector {
        return;
      }
      var orientation := ImageOrientationFor(device, Front);
      FacesDetected(detect(orientation));
    }

    /** The detector's completion handler: an error, a missing list or an empty
        list leaves the overlays as they are; otherwise the faces are handled. */
    method FacesDetected(out: DetectorOutput<Face>)
      modifies view
      ensures AcceptedFaces(out).None? ==> view.subviews == old(view.subviews)
      ensures AcceptedFaces(out).Some? ==> view.subviews == AfterFaces(old(view.subviews), out.faces.value)
    {
      var accepted := AcceptedFaces(out);
      if accepted.None? {
        return;
      }
      HandleFaces(accepted.value);
    }

    /** `handleFaces`: clears the previous overlays, then adds one overlay
        per face. */
    method HandleFaces(faces: seq<Face>)
      modifies view
      ensures view.subviews == AfterFaces(old(view.subviews), faces)
    {
      ClearOverlays();
      AddFaceOverlays(faces);
    }

    /** The first loop of `handleFaces`: walks a snapshot of the subviews,
        removing every overlay from the live list. */
    method ClearOverlays()
      modifies view
      ensures view.subviews == NonOverlays(old(view.subviews))
    {
      var snapshot := view.subviews;
      for i := 0 to |snapshot|
        invariant view.subviews == NonOverlays(snapshot[..i]) + snapshot[i..]
      {
        var subview := snapshot[i];
        ClearStep(snapshot, i);
        if IsOverlay(subview) {
          view.RemoveSubview(subview);
        }
      }
      assert snapshot[..|snapshot|] == snapshot;
    }

    /** The second loop of `handleFaces`: adds the overlay of each face, in
        face order, on top of the subviews. */
    method AddFaceOverlays(faces: seq<Face>)
      modifies view
      ensures view.subviews == old(view.subviews) + FaceOverlays(faces)
    {
      ghost var start := view.subviews;
      for j := 0 to |faces|
        invariant view.subviews == start + FaceOverlays(faces[..j])
      {
        var faceView := OverlayFor(faces[j]);
        FaceOverlaysStep(faces, j);
        view.AddSubview(faceView);
      }
      assert faces[..|faces|] == faces;
    }
  }
}
