/** Definitions shared by the two view controllers: the shape of a face
    detector's answer, the guard that both completion handlers put in front of
    their UI update, and removal of one child from a parent's child list. */
module Detection {

  datatype Option<+T> = None | Some(value: T)

  /** A face frame (a rectangle in view coordinates); its geometry is floating
      point and is never inspected, so it is kept opaque. */
  type Rect(==, !new)

  /** The error a detector may report; never inspected either. */
  type DetectorError

  /** What a detector hands to its completion handler: an optional error and an
      optional list of faces, exactly as the Objective-C callback delivers them. */
  datatype DetectorOutput<F> = DetectorOutput(error: Option<DetectorError>, faces: Option<seq<F>>)

  /** The guard `error == nil, let faces = faces, !faces.isEmpty` of both
      completion handlers: the faces that reach the UI update, if any. */
  function AcceptedFaces<F>(out: DetectorOutput<F>): Option<seq<F>> {
    match out
    case DetectorOutput(None, Some(faces)) => if |faces| > 0 then Some(faces) else None
    case _ => None
  }

  /** The list `s` once the first element equal to `x` has been taken out;
      removing a view from its superview or a node from its parent does this to
      the parent's child list. */
  function RemoveFirst<T(==)>(s: seq<T>, x: T): (r: seq<T>)
    ensures x !in s ==> r == s
    ensures x in s ==> |r| == |s| - 1
    ensures multiset(r) == multiset(s) - multiset{x}
  {
    if s == [] then []
    else if s[0] == x then
      assert s == [s[0]] + s[1..];
      s[1..]
    else
      assert s == [s[0]] + s[1..];
      [s[0]] + RemoveFirst(s[1..], x)
  }

  /** When `x` first occurs at index `k`, exactly that element goes. */
  lemma {:induction false} RemoveFirstAt<T>(s: seq<T>, x: T, k: nat)
    requires k < |s| && s[k] == x
    requires forall j :: 0 <= j < k ==> s[j] != x
    ensures RemoveFirst(s, x) == s[..k] + s[k + 1..]
  {
    if k == 0 {
      assert s[..0] + s[1..] == s[1..];
    } else {
      var t := s[1..];
      assert s[0] != x;
      assert RemoveFirst(s, x) == [s[0]] + RemoveFirst(t, x);
      forall j | 0 <= j < k - 1 ensures t[j] != x {
        assert t[j] == s[j + 1];
      }
      RemoveFirstAt(t, x, k - 1);
      SplitAfterHead(s, k);
    }
  }

  /** Cutting out index `k` of `s` is keeping its head and cutting out index
      `k - 1` of its tail. */
  lemma SplitAfterHead<T>(s: seq<T>, k: nat)
    requires 0 < k < |s|
    ensures s[..k] + s[k + 1..] == [s[0]] + (s[1..][..k - 1] + s[1..][k..])
  {
    assert s[..k] == [s[0]] + s[1..][..k - 1];
  }

  /** Removing `x` from behind a prefix that does not hold it leaves the prefix
      and the rest, and nothing else. */
  lemma RemoveFirstBehind<T>(front: seq<T>, x: T, rest: seq<T>)
    requires x !in front
    ensures RemoveFirst(front + ([x] + rest), x) == front + rest
  {
    var s := front + ([x] + rest);
    forall j | 0 <= j < |front| ensures s[j] != x {
      assert s[j] == front[j] && front[j] in front;
    }
    RemoveFirstAt(s, x, |front|);
    assert s[..|front|] == front && s[|front| + 1..] == rest;
  }
}
