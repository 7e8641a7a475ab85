/** normalizeFrameNesting: the repair pass every fleet member runs on a merged layout. */
module FrameNesting {
  import opened Wrappers
  import opened FrameForest
  import Sorting

  datatype Rect = Rect(x: real, y: real, width: real, height: real)

  datatype Frame = Frame(id: Id, title: string, color: string, parentId: Option<Id>, box: Rect)

  ghost predicate UniqueIds(frames: seq<Frame>) {
    forall i, j :: 0 <= i < j < |frames| ==> frames[i].id != frames[j].id
  }

  /** The source's lookup table from id to frame. */
  function IndexById(frames: seq<Frame>): map<Id, nat>
    requires UniqueIds(frames)
  {
    map i | 0 <= i < |frames| :: frames[i].id := i
  }

  /** The layout a list of frames spells. */
  ghost function ParentsOf(frames: seq<Frame>): Parents
    requires UniqueIds(frames)
  {
    map i | 0 <= i < |frames| :: frames[i].id := frames[i].parentId
  }

  /** p is the layout of these frames, and byId finds each frame's place. */
  ghost predicate Spells(frames: seq<Frame>, p: Parents, byId: map<Id, nat>) {
    && byId.Keys == p.Keys
    && (forall i {:trigger frames[i]} :: 0 <= i < |frames| ==>
          frames[i].id in p && byId[frames[i].id] == i && p[frames[i].id] == frames[i].parentId)
    && (forall x {:trigger byId[x]} :: x in p ==> byId[x] < |frames| && frames[byId[x]].id == x)
  }

  lemma InputSpells(input: seq<Frame>)
    requires UniqueIds(input)
    ensures Spells(input, ParentsOf(input), IndexById(input))
  {
  }

  /** What the repair promises of one frame: a missing parent is dropped, the least frame
      of a cycle loses its parent, and every other link stays. */
  ghost function RepairedParent(p: Parents, x: Id): Option<Id>
    requires x in p
  {
    if p[x].Some? && p[x].value !in p then None
    else if CycleRoot(p, x) then None
    else p[x]
  }

  ghost function Repaired(p: Parents): Parents {
    map x | x in p :: RepairedParent(p, x)
  }

  /** q is p after some of the links the repair cuts were cut, no missing parent left. */
  ghost predicate PartlyRepaired(q: Parents, p: Parents) {
    && Closed(q) && q.Keys == p.Keys
    && forall x :: x in p ==> q[x] == p[x] || (q[x] == None && RepairedParent(p, x) == None)
  }

  lemma CycleRootLifts(q: Parents, p: Parents, x: Id)
    requires SubForest(q, p) && CycleRoot(q, x)
    ensures CycleRoot(p, x)
  {
    CycleNeverGrounded(q, x);
    forall k: nat ensures Up(p, x, k) == Up(q, x, k) {
      UpAgrees(q, p, x, k);
    }
    var n: nat :| n > 0 && Up(q, x, n) == Some(x);
    assert Up(p, x, n) == Some(x);
  }

  /** Once every chain of a partly repaired layout ends, nothing is left to cut. */
  lemma GroundedIsRepaired(q: Parents, p: Parents)
    requires PartlyRepaired(q, p)
    requires forall x :: x in q ==> Grounded(q, x)
    ensures q == Repaired(p)
  {
    forall x | x in p ensures q[x] == RepairedParent(p, x) {
      if q[x] == p[x] && CycleRoot(p, x) {
        forall k: nat ensures Up(q, x, k).Some? {
          UncutCycle(q, p, x, k);
        }
        assert false;
      }
    }
  }

  /** While its root keeps its link, a cycle is intact. */
  lemma {:induction false} UncutCycle(q: Parents, p: Parents, x: Id, k: nat)
    requires PartlyRepaired(q, p) && x in p && q[x] == p[x] && CycleRoot(p, x)
    ensures Up(q, x, k).Some? && Up(q, x, k) == Up(p, x, k)
    decreases k
  {
    CycleNeverGrounded(p, x);
    if k == 0 {
    } else {
      UncutCycle(q, p, x, k - 1);
      UpCompose(q, x, k - 1, 1);
      UpCompose(p, x, k - 1, 1);
      var y := Up(p, x, k - 1).value;
      assert Up(p, x, k).Some?;
      assert Up(p, y, 1).Some?;
      if q[y] == None {
        CycleReachesKeys(p, x, k);
        CycleRootUnique(p, x, y, k - 1);
      }
    }
  }

  lemma CycleReachesKeys(p: Parents, x: Id, k: nat)
    requires OnCycle(p, x)
    ensures Up(p, x, k).Some? && Up(p, x, k).value in p
  {
    CycleNeverGrounded(p, x);
    UpCompose(p, x, k, 1);
    assert Up(p, x, k + 1).Some?;
  }

  /** A walk: distinct frames met in turn from x, each with a parent to go on to. */
  ghost predicate Walk(p: Parents, x: Id, order: seq<Id>) {
    && (forall i :: 0 <= i < |order| ==> Up(p, x, i) == Some(order[i]) && Linked(p, order[i]))
    && (forall i, j :: 0 <= i < j < |order| ==> order[i] != order[j])
  }

  /** A walk back to its c-th frame has closed a cycle, rooted at the least frame since. */
  lemma ClosedWalkRoot(p: Parents, x: Id, order: seq<Id>, c: nat, j: nat)
    requires Walk(p, x, order) && c <= j < |order|
    requires Up(p, x, |order|) == Some(order[c])
    requires forall i :: c <= i < |order| ==> order[j] <= order[i]
    ensures CycleRoot(p, order[j])
  {
    var y, n := order[j], |order| - c;
    UpCompose(p, x, c, n);
    UpCompose(p, x, c, j - c);
    UpCompose(p, x, j, |order| - j);
    UpCompose(p, y, |order| - j, j - c);
    assert Up(p, y, n) == Some(y);
    forall k: nat | Up(p, y, k).Some? ensures y <= Up(p, y, k).value {
      var r := UpRoundCycle(p, y, n, k);
      UpCompose(p, x, j, r);
      if j + r >= |order| {
        UpCompose(p, x, |order|, j + r - |order|);
        UpCompose(p, x, c, j + r - |order|);
      }
    }
  }

  /** Cutting the walk at its j-th frame ends it there. */
  lemma {:induction false} CutWalkEnds(p: Parents, x: Id, order: seq<Id>, j: nat, i: nat)
    requires Walk(p, x, order) && i <= j < |order|
    ensures Up(p[order[j] := None], x, i) == Some(order[i])
    ensures i == j ==> Up(p[order[j] := None], x, i + 1) == None
  {
    var q := p[order[j] := None];
    if i > 0 {
      CutWalkEnds(p, x, order, j, i - 1);
      UpCompose(q, x, i - 1, 1);
      UpCompose(p, x, i - 1, 1);
    }
    UpCompose(q, x, i, 1);
  }

  /** The inner loop of the repair: follow the chain from a start until it ends, or
      until it repeats a frame and so closes a cycle at that place of the walk. */
  method FollowChain(ghost p: Parents, frames: seq<Frame>, byId: map<Id, nat>, start: nat)
    returns (order: seq<Id>, cycleAt: Option<nat>)
    requires Spells(frames, p, byId) && Closed(p) && start < |frames|
    ensures Walk(p, frames[start].id, order)
    ensures cycleAt.Some? ==>
      cycleAt.value < |order| && Up(p, frames[start].id, |order|) == Some(order[cycleAt.value])
    ensures cycleAt.None? ==> Grounded(p, frames[start].id)
  {
    ghost var x := frames[start].id;
    order := [];
    var seen: map<Id, nat> := map[];
    var current: nat := start;
    while frames[current].parentId.Some?
      invariant current < |frames|
      invariant Walk(p, x, order)
      invariant Up(p, x, |order|) == Some(frames[current].id)
      invariant forall i :: 0 <= i < |order| ==> order[i] in seen
      invariant forall y :: y in seen ==> seen[y] < |order| && order[seen[y]] == y
      invariant |order| <= |p|
      decreases |p| - |order|
    {
      var id := frames[current].id;
      if id in seen {
        cycleAt := Some(seen[id]);
        return;
      }
      WalkOn(p, x, order, id);
      seen := seen[id := |order|];
      order := order + [id];
      current := byId[frames[current].parentId.value];
    }
    UpCompose(p, x, |order|, 1);
    assert Up(p, x, |order| + 1) == None;
    cycleAt := None;
  }

  /** One more frame on the walk. */
  lemma WalkOn(p: Parents, x: Id, order: seq<Id>, id: Id)
    requires Walk(p, x, order) && Up(p, x, |order|) == Some(id)
    requires Linked(p, id) && id !in order
    ensures Walk(p, x, order + [id]) && |order| < |p|
    ensures Up(p, x, |order| + 1) == p[id]
  {
    DistinctFit(order + [id], p.Keys);
    UpCompose(p, x, |order|, 1);
    assert Up(p, id, 1) == p[id];
  }

  /** What one outer turn does to the layout: only a cycle root on the start's own chain may
      lose its parent, and that chain now ends. */
  ghost predicate CycleBroken(q: Parents, r: Parents, start: Id) {
    && SubForest(r, q)
    && (forall x :: x in q ==> r[x] == q[x] || (CycleRoot(q, x) && exists k: nat :: Up(q, start, k) == Some(x)))
    && Grounded(r, start)
  }

  lemma CutBreaksCycle(q: Parents, start: Id, order: seq<Id>, c: nat, j: nat)
    requires Walk(q, start, order) && c <= j < |order|
    requires Up(q, start, |order|) == Some(order[c])
    requires forall i :: c <= i < |order| ==> order[j] <= order[i]
    ensures order[j] in q && CycleBroken(q, q[order[j] := None], start)
  {
    assert Linked(q, order[j]);
    ClosedWalkRoot(q, start, order, c, j);
    CutWalkEnds(q, start, order, j, j);
  }

  ghost predicate SameButParents(frames: seq<Frame>, input: seq<Frame>) {
    && |frames| == |input|
    && forall i :: 0 <= i < |input| ==> frames[i] == input[i].(parentId := frames[i].parentId)
  }

  lemma CutSpells(frames: seq<Frame>, q: Parents, byId: map<Id, nat>, x: Id)
    requires Spells(frames, q, byId) && x in q
    ensures var cut := frames[byId[x] := frames[byId[x]].(parentId := None)];
            SameButParents(cut, frames) && Spells(cut, q[x := None], byId)
  {
  }

  /** One outer turn of the repair: cut the least frame of the cycle met from a start. */
  method BreakCycleFrom(before: seq<Frame>, ghost q: Parents, byId: map<Id, nat>, start: nat)
    returns (frames: seq<Frame>, ghost r: Parents)
    requires Spells(before, q, byId) && Closed(q) && start < |before|
    ensures SameButParents(frames, before) && Spells(frames, r, byId)
    ensures CycleBroken(q, r, before[start].id)
  {
    frames, r := before, q;
    var order, cycleAt := FollowChain(q, frames, byId, start);
    if cycleAt.Some? {
      var cycle := Sorting.Sort((a: Id, b: Id) => a < b, order[cycleAt.value..]);
      ghost var j := LeastOfCycle(order, cycleAt.value);
      CutBreaksCycle(q, before[start].id, order, cycleAt.value, j);
      CutSpells(frames, q, byId, order[j]);
      var root := byId[cycle[0]];
      frames := frames[root := frames[root].(parentId := None)];
      r := q[order[j] := None];
    }
  }

  /** The head of the sorted cycle is its least frame. */
  lemma LeastOfCycle(order: seq<Id>, c: nat) returns (j: nat)
    requires c < |order|
    ensures Sorting.Sort((a: Id, b: Id) => a < b, order[c..]) != []
    ensures c <= j < |order| && Sorting.Sort((a: Id, b: Id) => a < b, order[c..])[0] == order[j]
    ensures forall i :: c <= i < |order| ==> order[j] <= order[i]
  {
    var first := Sorting.SortHead((a: Id, b: Id) => a < b, order[c..]);
    j := c + first;
    forall i | c <= i < |order| ensures order[j] <= order[i] {
      assert order[i] == order[c..][i - c];
    }
  }

  function WithoutMissingParent(frame: Frame, ids: set<Id>): Frame {
    if frame.parentId.Some? && frame.parentId.value !in ids then frame.(parentId := None) else frame
  }

  /** The loop that drops missing parents. */
  method DropMissingParents(input: seq<Frame>, byId: map<Id, nat>) returns (frames: seq<Frame>)
    ensures |frames| == |input|
    ensures forall i :: 0 <= i < |input| ==> frames[i] == WithoutMissingParent(input[i], byId.Keys)
  {
    frames := input;
    for k := 0 to |input|
      invariant |frames| == |input|
      invariant forall i :: k <= i < |input| ==> frames[i] == input[i]
      invariant forall i :: 0 <= i < k ==> frames[i] == WithoutMissingParent(input[i], byId.Keys)
    {
      if frames[k].parentId.Some? && frames[k].parentId.value !in byId {
        frames := frames[k := frames[k].(parentId := None)];
      }
    }
  }

  ghost function WithoutMissing(p: Parents): Parents {
    map x | x in p :: if p[x].Some? && p[x].value !in p then None else p[x]
  }

  lemma DroppedSpells(frames: seq<Frame>, input: seq<Frame>, p: Parents, byId: map<Id, nat>)
    requires Spells(input, p, byId) && |frames| == |input|
    requires forall i :: 0 <= i < |input| ==> frames[i] == WithoutMissingParent(input[i], byId.Keys)
    ensures SameButParents(frames, input) && Spells(frames, WithoutMissing(p), byId)
    ensures PartlyRepaired(WithoutMissing(p), p)
  {
    forall i {:trigger frames[i]} | 0 <= i < |frames|
      ensures frames[i].id == input[i].id && WithoutMissing(p)[frames[i].id] == frames[i].parentId
    {
    }
  }

  lemma TurnRepairsMore(q: Parents, r: Parents, start: Id, p: Parents)
    requires PartlyRepaired(q, p) && CycleBroken(q, r, start)
    ensures PartlyRepaired(r, p)
  {
    forall x | x in p ensures r[x] == p[x] || (r[x] == None && RepairedParent(p, x) == None) {
      if r[x] != q[x] {
        CycleRootLifts(q, p, x);
      }
    }
    forall x {:trigger Linked(r, x)} | Linked(r, x) ensures r[x].value in r {
      assert Linked(q, x);
    }
  }

  /** The starts visited so far have chains that end. */
  ghost predicate StartsGrounded(q: Parents, input: seq<Frame>, starts: seq<nat>)
  {
    forall j :: 0 <= j < |starts| && starts[j] < |input| ==> Grounded(q, input[starts[j]].id)
  }

  lemma TurnGroundsStart(q: Parents, r: Parents, input: seq<Frame>, starts: seq<nat>, k: nat)
    requires k < |starts| && starts[k] < |input| && StartsGrounded(q, input, starts[..k])
    requires CycleBroken(q, r, input[starts[k]].id)
    ensures StartsGrounded(r, input, starts[..k + 1])
  {
    forall j | 0 <= j < k + 1 && starts[j] < |input| ensures Grounded(r, input[starts[j]].id) {
      if j < k {
        assert starts[..k][j] == starts[j];
        GroundedInSubForest(r, q, input[starts[j]].id);
      }
    }
  }

  /** The frames the repair returns, in input order. */
  ghost function RepairedFrames(input: seq<Frame>): (out: seq<Frame>)
    requires UniqueIds(input)
    ensures |out| == |input|
  {
    seq(|input|, i requires 0 <= i < |input| =>
      input[i].(parentId := RepairedParent(ParentsOf(input), input[i].id)))
  }

  lemma RepairedSpelled(frames: seq<Frame>, input: seq<Frame>, byId: map<Id, nat>)
    requires UniqueIds(input) && SameButParents(frames, input)
    requires Spells(frames, Repaired(ParentsOf(input)), byId)
    ensures frames == RepairedFrames(input)
  {
    InputSpells(input);
  }

  lemma AllStartsGrounded(q: Parents, input: seq<Frame>, byId: map<Id, nat>, starts: seq<nat>)
    requires UniqueIds(input) && Spells(input, ParentsOf(input), byId)
    requires q.Keys == ParentsOf(input).Keys && StartsGrounded(q, input, starts)
    requires forall i: nat :: i in starts <==> i < |input|
    ensures forall x :: x in q ==> Grounded(q, x)
  {
    forall x | x in q ensures Grounded(q, x) {
      assert byId[x] in starts;
      var j :| 0 <= j < |starts| && starts[j] == byId[x];
    }
  }

  /** normalizeFrameNesting. `starts` is the order the outer loop visits the frames in,
      a locale sort in the source: any order at all gives the same repair. */
  method NormalizeFrameNesting(input: seq<Frame>, starts: seq<nat>) returns (frames: seq<Frame>)
    requires UniqueIds(input)
    requires forall i: nat :: i in starts <==> i < |input|
    ensures frames == RepairedFrames(input)
  {
    var byId := IndexById(input);
    InputSpells(input);
    ghost var p := ParentsOf(input);
    frames := DropMissingParents(input, byId);
    DroppedSpells(frames, input, p, byId);
    ghost var q := WithoutMissing(p);
    for k := 0 to |starts|
      invariant SameButParents(frames, input) && Spells(frames, q, byId)
      invariant PartlyRepaired(q, p) && StartsGrounded(q, input, starts[..k])
    {
      assert starts[k] in starts && frames[starts[k]].id == input[starts[k]].id;
      ghost var r;
      frames, r := BreakCycleFrom(frames, q, byId, starts[k]);
      TurnRepairsMore(q, r, input[starts[k]].id, p);
      TurnGroundsStart(q, r, input, starts, k);
      q := r;
    }
    assert starts[..|starts|] == starts;
    AllStartsGrounded(q, input, byId, starts);
    GroundedIsRepaired(q, p);
    RepairedSpelled(frames, input, byId);
  }

  // What the repair guarantees of every merged layout

  /** The repair always leaves a forest. */
  lemma RepairedIsForest(p: Parents)
    ensures Forest(Repaired(p))
  {
    var n := Repaired(p);
    forall x | x in n ensures Grounded(n, x) {
      if !Grounded(n, x) {
        LongChainMeetsCycle(n, x);
        var k: nat :| Up(n, x, k).Some? && OnCycle(n, Up(n, x, k).value);
        var y := Up(n, x, k).value;
        var m := CycleHasRoot(n, y);
        var root := Up(n, y, m).value;
        CycleRootLifts(n, p, root);
        CycleReachesKeys(n, y, m);
        var next := Up(n, root, 1);
        CycleNeverGrounded(n, root);
      }
    }
  }

  /** It changes nothing exactly when there was nothing to repair. */
  lemma RepairedFixpoint(p: Parents)
    ensures Repaired(p) == p <==> Forest(p)
  {
    if Forest(p) {
      forall x | x in p ensures RepairedParent(p, x) == p[x] {
        assert Linked(p, x) || p[x] == None;
        if CycleRoot(p, x) {
          CycleNeverGrounded(p, x);
        }
      }
    } else {
      RepairedIsForest(p);
    }
  }

  lemma RepairIdempotent(p: Parents)
    ensures Repaired(Repaired(p)) == Repaired(p)
  {
    RepairedIsForest(p);
    RepairedFixpoint(Repaired(p));
  }

  /** A cycle loses one link and no more: that of its least frame, wherever it is entered. */
  lemma CycleLosesOneLink(p: Parents, x: Id) returns (k: nat)
    requires OnCycle(p, x)
    ensures Up(p, x, k).Some? && Up(p, x, k).value in p && Repaired(p)[Up(p, x, k).value] != p[Up(p, x, k).value]
    ensures forall m: nat :: Up(p, x, m).Some? && Up(p, x, m).value in p ==>
      && Up(p, x, k).value <= Up(p, x, m).value
      && (Up(p, x, m) == Up(p, x, k) || Repaired(p)[Up(p, x, m).value] == p[Up(p, x, m).value])
  {
    CycleNeverGrounded(p, x);
    k := CycleHasRoot(p, x);
    var root := Up(p, x, k).value;
    CycleReachesKeys(p, x, k);
    UpCompose(p, x, k, 1);
    assert Up(p, x, k + 1).Some?;
    forall m: nat | Up(p, x, m).Some? && Up(p, x, m).value in p
      ensures root <= Up(p, x, m).value
      ensures Up(p, x, m) == Up(p, x, k) || Repaired(p)[Up(p, x, m).value] == p[Up(p, x, m).value]
    {
      var back := CycleReturns(p, x, k);
      UpCompose(p, root, back, m);
      var y := Up(p, x, m).value;
      assert Up(p, root, back + m) == Some(y);
      UpCompose(p, x, m, 1);
      CycleReachesKeys(p, x, m + 1);
      if CycleRoot(p, y) {
        CycleRootUnique(p, root, y, back + m);
      }
    }
  }

  /** Members that hold the same frames in any order spell the same layout, and so
      repair it alike. */
  lemma LayoutIgnoresOrder(a: seq<Frame>, b: seq<Frame>)
    requires UniqueIds(a) && UniqueIds(b) && multiset(a) == multiset(b)
    ensures ParentsOf(a) == ParentsOf(b)
    ensures forall i, j :: 0 <= i < |a| && 0 <= j < |b| && a[i].id == b[j].id ==>
      RepairedFrames(a)[i] == RepairedFrames(b)[j]
  {
    SameLinks(a, b);
    SameLinks(b, a);
    forall i, j | 0 <= i < |a| && 0 <= j < |b| && a[i].id == b[j].id ensures a[i] == b[j] {
      assert a[i] in multiset(b);
    }
  }

  lemma SameLinks(a: seq<Frame>, b: seq<Frame>)
    requires UniqueIds(a) && UniqueIds(b) && multiset(a) == multiset(b)
    ensures forall x :: x in ParentsOf(a) ==> x in ParentsOf(b) && ParentsOf(a)[x] == ParentsOf(b)[x]
  {
    forall x | x in ParentsOf(a) ensures x in ParentsOf(b) && ParentsOf(a)[x] == ParentsOf(b)[x] {
      var i :| 0 <= i < |a| && a[i].id == x;
      assert a[i] in multiset(b);
      var j :| 0 <= j < |b| && b[j] == a[i];
    }
  }
}
