/** Parent chains of canvas frames. A layout is a map from frame id to an optional
    parent id; merged edits may leave it with missing parents and with cycles, so
    nothing here assumes either away.

    Ids are strings in the source, compared by code unit; only their order matters,
    and any finite set of strings embeds in the naturals keeping that order. */
module FrameForest {
  import opened Wrappers

  type Id = nat
  type Parents = map<Id, Option<Id>>

  ghost predicate Linked(p: Parents, x: Id) {
    x in p && p[x].Some?
  }

  /** The k-th frame up from x. A parent that is not a frame ends the chain after it. */
  ghost function Up(p: Parents, x: Id, k: nat): Option<Id>
    decreases k
  {
    if k == 0 then Some(x)
    else if Linked(p, x) then Up(p, p[x].value, k - 1)
    else None
  }

  ghost predicate OnCycle(p: Parents, x: Id) {
    exists k: nat :: k > 0 && Up(p, x, k) == Some(x)
  }

  /** The least frame of its cycle: the one whose link every peer cuts. */
  ghost predicate CycleRoot(p: Parents, x: Id) {
    OnCycle(p, x) && forall k: nat :: Up(p, x, k).Some? ==> x <= Up(p, x, k).value
  }

  ghost predicate Grounded(p: Parents, x: Id) {
    exists k: nat :: Up(p, x, k) == None
  }

  ghost predicate Closed(p: Parents) {
    forall x {:trigger Linked(p, x)} :: Linked(p, x) ==> p[x].value in p
  }

  ghost predicate Forest(p: Parents) {
    Closed(p) && forall x :: x in p ==> Grounded(p, x)
  }

  /** q keeps only links of p. */
  ghost predicate SubForest(q: Parents, p: Parents) {
    q.Keys == p.Keys && forall x :: x in q ==> q[x] == p[x] || q[x] == None
  }

  lemma {:induction false} UpCompose(p: Parents, x: Id, a: nat, b: nat)
    ensures Up(p, x, a) == None ==> Up(p, x, a + b) == None
    ensures Up(p, x, a).Some? ==> Up(p, x, a + b) == Up(p, Up(p, x, a).value, b)
    decreases a
  {
    if a == 0 || !Linked(p, x) {
    } else {
      UpCompose(p, p[x].value, a - 1, b);
    }
  }

  lemma {:induction false} UpInKeys(p: Parents, x: Id, k: nat)
    requires Closed(p) && x in p
    ensures Up(p, x, k).Some? ==> Up(p, x, k).value in p
    decreases k
  {
    if k == 0 || !Linked(p, x) {
    } else {
      UpInKeys(p, p[x].value, k - 1);
    }
  }

  lemma {:induction false} UpAgrees(q: Parents, p: Parents, x: Id, k: nat)
    requires SubForest(q, p)
    ensures Up(q, x, k).Some? ==> Up(p, x, k) == Up(q, x, k)
    decreases k
  {
    if k == 0 || !Linked(q, x) {
    } else {
      UpAgrees(q, p, q[x].value, k - 1);
    }
  }

  lemma GroundedInSubForest(q: Parents, p: Parents, x: Id)
    requires SubForest(q, p) && Grounded(p, x)
    ensures Grounded(q, x)
  {
    var k: nat :| Up(p, x, k) == None;
    UpAgrees(q, p, x, k);
  }

  /** Going round a cycle of length n only repeats its first n steps. */
  lemma {:induction false} UpRoundCycle(p: Parents, x: Id, n: nat, k: nat) returns (j: nat)
    requires n > 0 && Up(p, x, n) == Some(x)
    ensures j < n && Up(p, x, k) == Up(p, x, j) && Up(p, x, j).Some?
    decreases k
  {
    if k < n {
      UpCompose(p, x, k, n - k);
      j := k;
    } else {
      UpCompose(p, x, n, k - n);
      j := UpRoundCycle(p, x, n, k - n);
    }
  }

  lemma CycleNeverGrounded(p: Parents, x: Id)
    requires OnCycle(p, x)
    ensures !Grounded(p, x)
    ensures forall k: nat :: Up(p, x, k).Some?
  {
    var n: nat :| n > 0 && Up(p, x, n) == Some(x);
    forall k: nat ensures Up(p, x, k).Some? {
      var _ := UpRoundCycle(p, x, n, k);
    }
  }

  /** Whatever a cycle member reaches reaches it back. */
  lemma CycleReturns(p: Parents, x: Id, k: nat) returns (back: nat)
    requires OnCycle(p, x)
    ensures back > 0 && Up(p, x, k).Some? && Up(p, Up(p, x, k).value, back) == Some(x)
  {
    var n: nat :| n > 0 && Up(p, x, n) == Some(x);
    var j := UpRoundCycle(p, x, n, k);
    back := n - j;
    UpCompose(p, x, j, back);
  }

  /** One cycle has one root, so the cut is the same wherever a walk enters it. */
  lemma CycleRootUnique(p: Parents, x: Id, y: Id, k: nat)
    requires CycleRoot(p, x) && CycleRoot(p, y) && Up(p, x, k) == Some(y)
    ensures x == y
  {
    var back := CycleReturns(p, x, k);
    assert Up(p, y, back) == Some(x);
  }

  /** The ids passed in the first k steps. */
  ghost function Trail(p: Parents, x: Id, k: nat): (trail: seq<Id>)
    requires forall i: nat :: i < k ==> Up(p, x, i).Some?
    ensures |trail| == k
    ensures forall i: nat :: i < k ==> trail[i] == Up(p, x, i).value
  {
    seq(k, i requires 0 <= i < k => Up(p, x, i).value)
  }

  ghost function Elements(s: seq<Id>): set<Id> {
    set x | x in s
  }

  lemma {:induction false} DistinctCount(s: seq<Id>)
    requires forall i, j :: 0 <= i < j < |s| ==> s[i] != s[j]
    ensures |Elements(s)| == |s|
  {
    if |s| > 0 {
      var t := s[..|s| - 1];
      DistinctCount(t);
      assert Elements(s) == Elements(t) + {s[|s| - 1]};
    } else {
      assert Elements(s) == {};
    }
  }

  /** Pigeonhole: distinct ids of a layout are no more than its frames. */
  lemma DistinctFit(s: seq<Id>, keys: set<Id>)
    requires forall i, j :: 0 <= i < j < |s| ==> s[i] != s[j]
    requires forall i :: 0 <= i < |s| ==> s[i] in keys
    ensures |s| <= |keys|
  {
    DistinctCount(s);
    SubsetCount(Elements(s), keys);
  }

  lemma {:induction false} SubsetCount(a: set<Id>, b: set<Id>)
    requires a <= b
    ensures |a| <= |b|
  {
    if a == {} {
    } else {
      var x :| x in a;
      SubsetCount(a - {x}, b - {x});
    }
  }

  /** A chain that outlasts the number of frames has met a cycle. */
  lemma LongChainMeetsCycle(p: Parents, x: Id)
    requires Closed(p) && x in p
    requires Up(p, x, |p|).Some?
    ensures exists k: nat :: Up(p, x, k).Some? && OnCycle(p, Up(p, x, k).value)
  {
    var n := |p|;
    forall i: nat | i <= n ensures Up(p, x, i).Some? && Up(p, x, i).value in p {
      UpCompose(p, x, i, n - i);
      UpInKeys(p, x, i);
    }
    var trail := Trail(p, x, n + 1);
    if forall i, j :: 0 <= i < j < |trail| ==> trail[i] != trail[j] {
      DistinctFit(trail, p.Keys);
      assert false;
    }
    var i, j :| 0 <= i < j < |trail| && trail[i] == trail[j];
    UpCompose(p, x, i, j - i);
    assert Up(p, trail[i], j - i) == Some(trail[i]);
    assert Up(p, x, i).Some? && OnCycle(p, Up(p, x, i).value);
  }

  /** Every cycle has a root, reached from each of its members. */
  lemma CycleHasRoot(p: Parents, x: Id) returns (k: nat)
    requires OnCycle(p, x)
    ensures Up(p, x, k).Some? && CycleRoot(p, Up(p, x, k).value)
  {
    CycleNeverGrounded(p, x);
    k := 0;
    while exists m: nat :: Up(p, x, m).value < Up(p, x, k).value
      decreases Up(p, x, k).value
    {
      var m: nat :| Up(p, x, m).value < Up(p, x, k).value;
      k := m;
    }
    var root := Up(p, x, k).value;
    var back := CycleReturns(p, x, k);
    UpCompose(p, root, back, k);
    assert Up(p, root, back + k) == Some(root);
    forall m: nat | Up(p, root, m).Some? ensures root <= Up(p, root, m).value {
      UpCompose(p, x, k, m);
    }
  }
}
