/** The face-tracking screen: the AR session supplies anchors and the scene
    nodes attached to them; every face anchor gets a node carrying a glasses
    model, and each detection result rebuilds the glasses under the node of the
    current frame's first anchor, one per detected face. */
module FaceTracking {
  import opened Detection

  /** The identity of an anchor, as the AR session hands it out. */
  type AnchorId(==, !new)

  /** An anchor of the AR session; only whether it tracks a face matters here. */
  datatype Anchor = Anchor(id: AnchorId, isFaceAnchor: bool)

  /** The session's current frame, reduced to its anchors in session order. */
  datatype ARFrame = ARFrame(anchors: seq<Anchor>)

  /** A face found by the vision detector; its contents are never looked at. */
  datatype VisionFace = VisionFace(frame: Rect)

  datatype Vector3 = Vector3(x: real, y: real, z: real)

  const Origin := Vector3(0.0, 0.0, 0.0)

  /** Where the glasses sit relative to the face node. */
  const GlassesPosition := Vector3(0.0, 0.0, 0.1)

  /** The name of the glasses node inside the glasses scene asset. */
  const GlassesName := "glasses"

  /** A node of the scene graph: its name, its position and its children. */
  class SceneNode {
    const name: Option<string>
    var position: Vector3
    var childNodes: seq<SceneNode>

    /** `SCNNode()`: unnamed, at the origin, without children. */
    constructor ()
      ensures name == None && position == Origin && childNodes == []
    {
      name := None;
      position := Origin;
      childNodes := [];
    }

    /** The node named `nodeName` in a freshly loaded scene asset. Its position
        is whatever the asset holds, so nothing is promised about it; the
        asset's own subtree below that node is not modelled. */
    constructor Loaded(nodeName: string)
      ensures name == Some(nodeName) && childNodes == []
    {
      name := Some(nodeName);
      childNodes := [];
    }

    /** `addChildNode(child)`: the child goes last. SceneKit first detaches the
        child from any previous parent; that parent is not modelled. */
    method AddChildNode(child: SceneNode)
      modifies this
      ensures childNodes == old(childNodes) + [child]
      ensures position == old(position)
    {
      childNodes := childNodes + [child];
    }

    /** `child.removeFromParentNode()` where this node is `child`'s parent. */
    method RemoveChildNode(child: SceneNode)
      modifies this
      ensures childNodes == RemoveFirst(old(childNodes), child)
      ensures position == old(position)
    {
      childNodes := RemoveFirst(childNodes, child);
    }
  }

  /** A glasses node as `createGlassesNode` leaves it. */
  ghost predicate IsGlassesNode(n: SceneNode)
    reads n
  {
    n.name == Some(GlassesName) && n.position == GlassesPosition && n.childNodes == []
  }

  /** `createGlassesNode`: loads the glasses node from its asset and moves it
      to the glasses position. Every call loads the asset anew, so every call
      yields a new node. */
  method CreateGlassesNode() returns (glasses: SceneNode)
    ensures fresh(glasses) && IsGlassesNode(glasses)
  {
    glasses := new SceneNode.Loaded(GlassesName);
    glasses.position := GlassesPosition;
  }

  /** `renderer(_:nodeFor:)`: no node for an anchor that does not track a
      face; for a face anchor a new unnamed node whose only child is a new
      glasses node. */
  method NodeFor(anchor: Anchor) returns (node: SceneNode?)
    ensures !anchor.isFaceAnchor ==> node == null
    ensures anchor.isFaceAnchor ==>
              node != null && fresh(node) && node.name == None && node.position == Origin &&
              |node.childNodes| == 1 && fresh(node.childNodes[0]) && IsGlassesNode(node.childNodes[0])
  {
    if !anchor.isFaceAnchor {
      return null;
    }
    node := new SceneNode();
    var glasses := CreateGlassesNode();
    node.AddChildNode(glasses);
  }

  /** `currentFrame?.anchors.first as? ARFaceAnchor`: the current frame's first
      anchor, when there is a frame, it has an anchor and that anchor tracks a face. */
  function FaceAnchorOf(frame: Option<ARFrame>): Option<Anchor> {
    match frame
    case None => None
    case Some(f) => if |f.anchors| > 0 && f.anchors[0].isFaceAnchor then Some(f.anchors[0]) else None
  }

  /** The node `updateARScene` works on: the one the view keeps for the face
      anchor, if the view keeps one. */
  function TargetNode(frame: Option<ARFrame>, nodes: map<Anchor, SceneNode>): Option<SceneNode> {
    match FaceAnchorOf(frame)
    case None => None
    case Some(anchor) => if anchor in nodes then Some(nodes[anchor]) else None
  }

  /** The objects `updateARScene` may change: the target node and nothing else. */
  function Targets(frame: Option<ARFrame>, nodes: map<Anchor, SceneNode>): set<SceneNode> {
    match TargetNode(frame, nodes)
    case None => {}
    case Some(node) => {node}
  }

  /** The children of `node` are `count` distinct glasses nodes. */
  ghost predicate HoldsGlasses(node: SceneNode, count: nat)
    reads node, node.childNodes
  {
    && |node.childNodes| == count
    && (forall k :: 0 <= k < count ==> IsGlassesNode(node.childNodes[k]))
    && (forall i, j :: 0 <= i < j < count ==> node.childNodes[i] != node.childNodes[j])
  }

  /** `updateARScene(with:)`: when the first anchor of the current frame tracks
      a face and the view keeps a node for it, every previous child of that node
      is removed and one new glasses node per face is added; the node's own
      position is kept and no other object changes. Without a face anchor
      nothing happens; without a node for it the glasses nodes are still
      created, one per face, and dropped. */
  method UpdateARScene(frame: Option<ARFrame>, nodes: map<Anchor, SceneNode>, faces: seq<VisionFace>)
    modifies Targets(frame, nodes)
    ensures TargetNode(frame, nodes).Some? ==>
              var node := TargetNode(frame, nodes).value;
              && HoldsGlasses(node, |faces|)
              && (forall k :: 0 <= k < |faces| ==> fresh(node.childNodes[k]))
              && (forall c :: c in old(node.childNodes) ==> c !in node.childNodes)
              && node.position == old(node.position)
  {
    var anchor := FaceAnchorOf(frame);
    if anchor.None? {
      return;
    }
    var node: SceneNode? := if anchor.value in nodes then nodes[anchor.value] else null;
    if node != null {
      RemoveAllChildren(node);
    }
    AddGlassesPerFace(node, faces);
  }

  /** `node.childNodes.forEach { $0.removeFromParentNode() }`: walks a
      snapshot of the children, taking each out of the live list. */
  method RemoveAllChildren(node: SceneNode)
    modifies node
    ensures node.childNodes == []
    ensures node.position == old(node.position)
  {
    var snapshot := node.childNodes;
    for i := 0 to |snapshot|
      invariant node.childNodes == snapshot[i..]
      invariant node.position == old(node.position)
    {
      RemoveFirstBehind([], snapshot[i], snapshot[i + 1..]);
      assert snapshot[i..] == [] + ([snapshot[i]] + snapshot[i + 1..]);
      node.RemoveChildNode(snapshot[i]);
    }
  }

  /** `for face in faces { node?.addChildNode(createGlassesNode()) }`: a new
      glasses node per face, added under `node` when there is one. */
  method AddGlassesPerFace(node: SceneNode?, faces: seq<VisionFace>)
    modifies if node != null then {node} else {}
    ensures node != null ==>
              && |node.childNodes| == |old(node.childNodes)| + |faces|
              && node.childNodes[..|old(node.childNodes)|] == old(node.childNodes)
              && (forall k :: |old(node.childNodes)| <= k < |node.childNodes| ==>
                    fresh(node.childNodes[k]) && IsGlassesNode(node.childNodes[k]))
              && (forall i, j :: |old(node.childNodes)| <= i < j < |node.childNodes| ==>
                    node.childNodes[i] != node.childNodes[j])
              && node.position == old(node.position)
  {
    ghost var before := if node != null then node.childNodes else [];
    for j := 0 to |faces|
      invariant node != null ==>
                  && |node.childNodes| == |before| + j
                  && node.childNodes[..|before|] == before
                  && (forall k :: |before| <= k < |node.childNodes| ==>
                        fresh(node.childNodes[k]) && IsGlassesNode(node.childNodes[k]))
                  && (forall i, k :: |before| <= i < k < |node.childNodes| ==>
                        node.childNodes[i] != node.childNodes[k])
                  && node.position == old(node.position)
    {
      var glasses := CreateGlassesNode();
      if node != null {
        node.AddChildNode(glasses);
      }
    }
  }

  /** The detector's completion handler: an error, a missing list or an empty
      list leaves the scene as it is; otherwise the scene is updated. */
  method FacesDetected(out: DetectorOutput<VisionFace>, frame: Option<ARFrame>, nodes: map<Anchor, SceneNode>)
    modifies Targets(frame, nodes)
    ensures AcceptedFaces(out).None? ==> unchanged(Targets(frame, nodes))
    ensures AcceptedFaces(out).Some? && TargetNode(frame, nodes).Some? ==>
              var node := TargetNode(frame, nodes).value;
              && HoldsGlasses(node, |out.faces.value|)
              && (forall k :: 0 <= k < |out.faces.value| ==> fresh(node.childNodes[k]))
              && (forall c :: c in old(node.childNodes) ==> c !in node.childNodes)
              && node.position == old(node.position)
  {
    var accepted := AcceptedFaces(out);
    if accepted.None? {
      return;
    }
    UpdateARScene(frame, nodes, accepted.value);
  }
}
