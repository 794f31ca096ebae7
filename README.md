# ARTreckingDemo: face overlays and face-anchor glasses, in Dafny

ARTreckingDemo is an iOS demonstration app with two face screens. The
face-detection screen sends camera frames to an on-device face detector. It
draws a red rectangle (a subview tagged 100) over each detected face, and each
new result replaces the previous rectangles. The face-tracking screen runs an
AR face-tracking session. It gives every face anchor a scene node carrying a
glasses model. On each detection result it rebuilds the glasses under the node
of the current frame's first anchor, one per detected face.

The camera, the detector, AR tracking and rendering all belong to Apple's and
Google's frameworks. What the app adds is small:

- the orientation table it gives the detector;
- the guard in front of every UI update;
- the replace-all logic for overlays and for glasses nodes.

This project models those parts.

- `detection.dfy`, module `Detection`: the detector's answer (an optional error
  and an optional face list), the guard `error == nil, let faces = faces,
  !faces.isEmpty` that both screens use, and the removal of one child from a
  parent's child list.
- `face_detection.dfy`, module `FaceDetection`: the orientation table as a
  total function. Beside it sits a reference definition as quarter-turn
  rotations, and lemmas tie the two together. The root view is a class
  `ContainerView` holding `subviews: seq<View>`, where a `View` is a tag and an
  opaque frame. The controller is a class whose `HandleFaces` runs the source's
  two loops, one method each. `ClearOverlays` walks a fixed snapshot of the
  subviews and removes overlays from the live list. `AddFaceOverlays` appends
  one overlay per face.
  `HandleFaces` is proved against the function `AfterFaces`. Lemmas show:
  - the overlays afterwards are exactly one per face, in face order;
  - the other subviews are kept in their order;
  - no earlier overlay remains;
  - a second result replaces the first rather than adding to it.
- `face_tracking.dfy`, module `FaceTracking`: anchors are values with an
  is-face-anchor flag. A scene node is a class with a name, a position and a
  `seq` of child nodes. The view's node lookup is a `map` from anchors to nodes,
  passed in as a parameter. `NodeFor` models `renderer(_:nodeFor:)`.
  `UpdateARScene` clears and refills the target node, and its `modifies` clause
  is exactly that node.

Behaviour that the code shows and that the model keeps:

- The orientation ternaries test only `.back`. So `.front` and `.unspecified`
  both get the unmirrored column.
- In `updateARScene` the optional chaining sits only on `node?`. So when the
  view has no node for the face anchor, a glasses node is still created for
  each face and then dropped. `UpdateARScene` does the same: it allocates and
  changes nothing.
- `view.subviews` and `node.childNodes` return copies. So each removal loop
  walks a snapshot while the live list shrinks.

## Model

| member | source | states |
|---|---|---|
| `FaceDetection.ImageOrientationFor` | ARTreckingDemo/FaceDetectionViewController.swift:101-114 | the orientation table itself, as a total function over every device orientation and camera position; the lemmas below state its properties |
| `FaceDetection.UprightOrientationIsRotation` | ARTreckingDemo/FaceDetectionViewController.swift:101-110 | for an upright device, the image orientation is the device's quarter turn plus one, unmirrored, for a non-back camera; for the back camera it is plus three, mirrored (the turn counts are those of the reference encoding `DeviceTurns`) |
| `FaceDetection.FlatOrientationIsUp` | ARTreckingDemo/FaceDetectionViewController.swift:111-112 | face up, face down and unknown give `.up`, whatever the camera position |
| `FaceDetection.MirroredIffBackCamera` | ARTreckingDemo/FaceDetectionViewController.swift:103-110 | for an upright device, the result is mirrored if and only if the camera is the back one |
| `FaceDetection.BackCameraTable` | ARTreckingDemo/FaceDetectionViewController.swift:103-110 | back camera: portrait → leftMirrored, landscapeLeft → downMirrored, upside down → rightMirrored, landscapeRight → upMirrored |
| `FaceDetection.FrontCameraTable` | ARTreckingDemo/FaceDetectionViewController.swift:103-110 | front or unspecified camera: portrait → right, landscapeLeft → up, upside down → left, landscapeRight → down |
| `FaceDetection.UprightOrientationsDistinct` | ARTreckingDemo/FaceDetectionViewController.swift:103-110 | for a fixed camera, two different upright device orientations give two different image orientations |
| `FaceDetection.Oriented` | ARTreckingDemo/FaceDetectionViewController.swift:103-110 | the reference encoding of image orientations is mirrored exactly when its mirror flag is set |
| `FaceDetection.NonOverlays` | ARTreckingDemo/FaceDetectionViewController.swift:118-122 | the subviews left by the clearing loop are no longer than the input and contain no tag-100 view |
| `FaceDetection.Overlays` | ARTreckingDemo/FaceDetectionViewController.swift:118-122 | the subviews the clearing loop takes out are no longer than the input and all carry tag 100 |
| `FaceDetection.NonOverlaysMembers` | ARTreckingDemo/FaceDetectionViewController.swift:118-122 | a view survives clearing if and only if it was a subview and is not tagged 100 |
| `FaceDetection.OverlaySplitIsPartition` | ARTreckingDemo/FaceDetectionViewController.swift:118-122 | the kept views and the removed overlays together are exactly the original subviews, as a multiset |
| `FaceDetection.NonOverlaysAppend` | ARTreckingDemo/FaceDetectionViewController.swift:118-122 | clearing a concatenation gives the concatenation of the two cleared parts |
| `FaceDetection.FaceOverlaysAt` | ARTreckingDemo/FaceDetectionViewController.swift:124-133 | the k-th overlay added is the one drawn for the k-th face (`OverlayFor`: tag 100 and that face's frame) |
| `FaceDetection.OverlaysAfterFaces` | ARTreckingDemo/FaceDetectionViewController.swift:118-133 | after handling, the tag-100 subviews are exactly `FaceOverlays(faces)`: one per face, in face order, with each face's frame; there are `faces.count` of them. `FaceOverlays` is defined as the list of `OverlayFor` of each face, and `OverlayFor(face)` as the view with tag 100 and the face's frame |
| `FaceDetection.NonOverlaysAfterFaces` | ARTreckingDemo/FaceDetectionViewController.swift:118-133 | after handling, the subviews not tagged 100 are those from before, in their original relative order |
| `FaceDetection.OldOverlaysGone` | ARTreckingDemo/FaceDetectionViewController.swift:118-133 | after handling, a subview is tagged 100 exactly when it sits after the kept views, and there it is the overlay of the matching face; no earlier overlay remains |
| `FaceDetection.AfterFacesReplaces` | ARTreckingDemo/FaceDetectionViewController.swift:116-133 | handling a second result after a first gives what the second alone gives: overlays do not accumulate |
| `FaceDetection.ClearStep` | ARTreckingDemo/FaceDetectionViewController.swift:118-122 | one step of the walk over the snapshot keeps the live list equal to the kept prefix followed by the unvisited rest |
| `FaceDetection.ContainerView.AddSubview` | ARTreckingDemo/FaceDetectionViewController.swift:133 | the new view goes last and nothing else changes |
| `FaceDetection.ContainerView.RemoveSubview` | ARTreckingDemo/FaceDetectionViewController.swift:120 | the first subview equal to the given one is taken out of the live list |
| `FaceDetection.FaceDetectionController.SetupFaceDetector` | ARTreckingDemo/FaceDetectionViewController.swift:67-76 | afterwards a detector exists |
| `FaceDetection.FaceDetectionController.CaptureOutput` | ARTreckingDemo/FaceDetectionViewController.swift:78-98 | without a detector nothing changes; otherwise the detector is run with the front-camera orientation for the device orientation, and its answer is handled as by the completion handler |
| `FaceDetection.FaceDetectionController.FacesDetected` | ARTreckingDemo/FaceDetectionViewController.swift:87-98 | when the guard rejects the answer, the subviews are unchanged; otherwise they become `AfterFaces` of the old ones. The guard is the function `AcceptedFaces`, defined to pass the faces only when there is no error and the list is present and non-empty |
| `FaceDetection.FaceDetectionController.HandleFaces` | ARTreckingDemo/FaceDetectionViewController.swift:116-142 | the new subviews are `AfterFaces` of the old ones, by definition the old non-overlay subviews in order followed by `FaceOverlays(faces)` |
| `FaceDetection.FaceDetectionController.ClearOverlays` | ARTreckingDemo/FaceDetectionViewController.swift:118-122 | walking the snapshot and removing each tag-100 view leaves exactly `NonOverlays` of the old subviews |
| `FaceDetection.FaceDetectionController.AddFaceOverlays` | ARTreckingDemo/FaceDetectionViewController.swift:124-133 | the old subviews stay, followed by `FaceOverlays(faces)` |
| `Detection.RemoveFirst` | ARTreckingDemo/FaceDetectionViewController.swift:120 | removing a child that is absent changes nothing; removing one that is present shortens the list by one and takes exactly one copy out of its multiset |
| `Detection.RemoveFirstAt` | ARTreckingDemo/FaceDetectionViewController.swift:120 | when the child first occurs at index k, exactly the element at k goes and the rest keep their order |
| `Detection.RemoveFirstBehind` | ARTreckingDemo/FaceTrackingViewController.swift:118 | removing a child that follows a prefix not holding it leaves the prefix and the rest |
| `FaceTracking.SceneNode.AddChildNode` | ARTreckingDemo/FaceTrackingViewController.swift:81 | the child goes last and the node's position stays |
| `FaceTracking.SceneNode.RemoveChildNode` | ARTreckingDemo/FaceTrackingViewController.swift:118 | the child is taken out of the parent's live child list and the position stays |
| `FaceTracking.SceneNode.constructor` | ARTreckingDemo/FaceTrackingViewController.swift:77 | `SCNNode()` is unnamed, at the origin, with no children |
| `FaceTracking.SceneNode.Loaded` | ARTreckingDemo/FaceTrackingViewController.swift:87-88 | the node found in a loaded asset has the requested name and no modelled children; its position is left to the asset |
| `FaceTracking.CreateGlassesNode` | ARTreckingDemo/FaceTrackingViewController.swift:86-91 | the result is a new node named "glasses" at position (0, 0, 0.1) |
| `FaceTracking.NodeFor` | ARTreckingDemo/FaceTrackingViewController.swift:75-84 | nil for an anchor that is not a face anchor; for a face anchor, a new unnamed node at the origin whose only child is a new glasses node |
| `FaceTracking.UpdateARScene` | ARTreckingDemo/FaceTrackingViewController.swift:115-124 | only the objects in `Targets` may change; the target ends with exactly `faces.count` children, all new, distinct glasses nodes, none of its old children, and its position unchanged; without a target nothing changes. `TargetNode` is defined as the node the view keeps for the anchor `FaceAnchorOf` gives, when it keeps one; `FaceAnchorOf` gives the current frame's first anchor when there is a frame, it has an anchor and that anchor is a face anchor; `Targets` is the set of that target node, empty when there is none |
| `FaceTracking.RemoveAllChildren` | ARTreckingDemo/FaceTrackingViewController.swift:118 | walking the snapshot of the children and removing each leaves the node childless, its position unchanged |
| `FaceTracking.AddGlassesPerFace` | ARTreckingDemo/FaceTrackingViewController.swift:120-123 | the existing children stay in front, followed by one new, distinct glasses node per face; with no node nothing changes |
| `FaceTracking.FacesDetected` | ARTreckingDemo/FaceTrackingViewController.swift:101-113 | when `AcceptedFaces` rejects the answer (an error, a missing list or an empty list), the target node is unchanged, so the existing glasses stay; otherwise the scene is updated as by `UpdateARScene` |

## Left out

- Camera session setup (`setupCamera` in both controllers) and its early returns: capture-device configuration only, with no state the model reads.
- The face detectors' construction options and their `process` calls: a foreign ML model. The detector's answer is an input (`DetectorOutput`), built from an abstract face list.
- `captureOutput` of the tracking screen (the pixel-buffer guard and the fixed `.rightTop` orientation): it only hands a frame to the detector, so the model starts at the completion handler.
- The `[weak self]` guard in the detection screen's completion handler: the model assumes a live controller.
- The `DispatchQueue.main.async` handoff and the background video queue: concurrency. The main-thread update is a plain sequential call.
- ARKit session run and pause, and the anchor tracking itself. The current frame and the view's node lookup are parameters.
- Face frames (`CGRect`) and detector errors: opaque types. The face geometry is floating point and is never inspected.
- Border colour, border width and background colour of the overlays: rendering attributes with no logic attached.
- Logging: the print of whether the detector was created (FaceDetectionViewController.swift:75), the print on a missing detector (:80), and the prints of smiling and eye-open probabilities (:135-140). None of them affects state.
- The glasses asset's own subtree, and the crash on a missing asset from the force-unwraps. A loaded glasses node has no modelled children.
- `ContainerView.RemoveSubview`: UIKit removes a view by object identity. The model removes the first equal value. The two agree for the clearing loop, which removes only tag-100 views and walks the snapshot in order (`ClearStep`).
- Parent back-pointers of scene nodes: removal is modelled on the parent's child list only. `addChildNode` in SceneKit first detaches a child from its previous parent. The glasses node still has a parent inside its loaded asset, and that detachment is not modelled.
- ARTreckingDemo/ViewController.swift is not part of this model. It holds hit testing, float transforms, animation and random colours.
