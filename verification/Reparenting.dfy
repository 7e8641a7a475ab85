/** descendantsOf and containingFrame: choosing a dropped frame's new parent. */
module Reparenting {
  import opened Wrappers
  import opened FrameForest
  import opened FrameNesting
  import Sorting

  /** y's parent chain reaches id. The layout may be cyclic, and id need not be a frame. */
  ghost predicate Below(p: Parents, id: Id, y: Id) {
    y != id && exists k: nat :: Up(p, y, k) == Some(id)
  }

  ghost function Descendants(p: Parents, id: Id): set<Id> {
    set y | y in p && Below(p, id, y)
  }

  /** A frame joins when its parent is the root asked for, or already joined. */
  predicate Joins(frame: Frame, id: Id, found: set<Id>) {
    && frame.id != id && frame.id !in found
    && frame.parentId.Some? && (frame.parentId.value == id || frame.parentId.value in found)
  }

  lemma JoinerIsBelow(frames: seq<Frame>, p: Parents, byId: map<Id, nat>, i: nat, id: Id, found: set<Id>)
    requires Spells(frames, p, byId) && i < |frames| && Joins(frames[i], id, found)
    requires found <= Descendants(p, id)
    ensures frames[i].id in Descendants(p, id)
  {
    var y, parent := frames[i].id, frames[i].parentId.value;
    assert Up(p, parent, 0) == Some(parent);
    var k: nat :| Up(p, parent, k) == Some(id);
    assert Up(p, y, k + 1) == Some(id);
  }

  /** Once no frame joins, every frame whose chain reaches the root has joined. */
  lemma {:induction false} SettledIsAll(frames: seq<Frame>, p: Parents, byId: map<Id, nat>, id: Id, found: set<Id>,
      y: Id, k: nat)
    requires Spells(frames, p, byId)
    requires forall i :: 0 <= i < |frames| ==> !Joins(frames[i], id, found)
    requires y in p && y != id && Up(p, y, k) == Some(id)
    ensures y in found
    decreases k
  {
    var i := byId[y];
    assert frames[i].id == y;
    var parent := frames[i].parentId.value;
    if parent != id {
      assert k > 1;
      assert Linked(p, parent) by { assert Up(p, parent, k - 1) == Some(id); }
      SettledIsAll(frames, p, byId, id, found, parent, k - 1);
    }
  }

  /** One pass over the frames; grew says whether any joined. */
  method GrowOnce(frames: seq<Frame>, ghost p: Parents, ghost byId: map<Id, nat>, id: Id, before: set<Id>)
    returns (found: set<Id>, grew: bool)
    requires Spells(frames, p, byId) && before <= Descendants(p, id)
    ensures before <= found <= Descendants(p, id)
    ensures grew ==> before != found
    ensures !grew ==> found == before && forall i :: 0 <= i < |frames| ==> !Joins(frames[i], id, found)
  {
    found, grew := before, false;
    for k := 0 to |frames|
      invariant before <= found <= Descendants(p, id)
      invariant grew ==> before != found
      invariant !grew ==> found == before && forall i :: 0 <= i < k ==> !Joins(frames[i], id, found)
    {
      if Joins(frames[k], id, found) {
        JoinerIsBelow(frames, p, byId, k, id, found);
        found := found + {frames[k].id};
        grew := true;
      }
    }
  }

  /** descendantsOf: exactly the frames whose chain reaches id, cyclic layout or not. */
  method DescendantsOf(id: Id, frames: seq<Frame>) returns (found: set<Id>)
    requires UniqueIds(frames)
    ensures found == Descendants(ParentsOf(frames), id)
  {
    ghost var p, byId := ParentsOf(frames), IndexById(frames);
    InputSpells(frames);
    found := {};
    var grew := true;
    while grew
      invariant found <= Descendants(p, id)
      invariant !grew ==> forall i :: 0 <= i < |frames| ==> !Joins(frames[i], id, found)
      decreases grew, Descendants(p, id) - found
    {
      found, grew := GrowOnce(frames, p, byId, id, found);
    }
    forall y | y in Descendants(p, id) ensures y in found {
      var k: nat :| Up(p, y, k) == Some(id);
      SettledIsAll(frames, p, byId, id, found, y, k);
    }
  }

  function Contains(outer: Rect, inner: Rect, padding: real): bool {
    && inner.x >= outer.x + padding
    && inner.y >= outer.y + padding
    && inner.x + inner.width <= outer.x + outer.width - padding
    && inner.y + inner.height <= outer.y + outer.height - padding
  }

  function Area(frame: Frame): real {
    frame.box.width * frame.box.height
  }

  ghost predicate InBox(px: real, py: real, box: Rect) {
    box.x <= px <= box.x + box.width && box.y <= py <= box.y + box.height
  }

  predicate Near(p: real, q: real, margin: real) {
    p - margin <= q <= p + margin
  }

  /** Every point of the one, moved by up to the margin on each axis, lies in the other. */
  ghost predicate HoldsWithMargin(outer: Rect, inner: Rect, margin: real) {
    forall px, py, qx, qy :: InBox(px, py, inner) && Near(px, qx, margin) && Near(py, qy, margin) ==>
      InBox(qx, qy, outer)
  }

  lemma ContainsIsMargin(outer: Rect, inner: Rect, margin: real)
    requires inner.width >= 0.0 && inner.height >= 0.0 && margin >= 0.0
    ensures Contains(outer, inner, margin) <==> HoldsWithMargin(outer, inner, margin)
  {
    if HoldsWithMargin(outer, inner, margin) {
      assert InBox(inner.x, inner.y, inner) && InBox(inner.x + inner.width, inner.y + inner.height, inner);
      assert Near(inner.x, inner.x - margin, margin) && Near(inner.y, inner.y - margin, margin);
      assert InBox(inner.x - margin, inner.y - margin, outer);
      var right, bottom := inner.x + inner.width, inner.y + inner.height;
      assert Near(right, right + margin, margin) && Near(bottom, bottom + margin, margin);
      assert InBox(right + margin, bottom + margin, outer);
    }
  }

  /** A frame that may take the subject in: it holds it with a margin of 18, and is
      neither the subject nor one of the frames to leave out. */
  predicate Eligible(frame: Frame, subject: Rect, subjectId: Option<Id>, excluded: set<Id>) {
    Some(frame.id) != subjectId && frame.id !in excluded && Contains(frame.box, subject, 18.0)
  }

  function EligibleFrames(frames: seq<Frame>, subject: Rect, subjectId: Option<Id>, excluded: set<Id>): (r: seq<Frame>)
    ensures forall f :: f in r <==> f in frames && Eligible(f, subject, subjectId, excluded)
  {
    if frames == [] then []
    else
      var rest := EligibleFrames(frames[1..], subject, subjectId, excluded);
      if Eligible(frames[0], subject, subjectId, excluded) then [frames[0]] + rest else rest
  }

  function ByArea(a: Frame, b: Frame): bool {
    Area(a) < Area(b)
  }

  /** containingFrame: the tightest eligible frame. */
  function ContainingFrame(subject: Rect, subjectId: Option<Id>, frames: seq<Frame>, excluded: set<Id>): Option<Id> {
    var sorted := Sorting.Sort(ByArea, EligibleFrames(frames, subject, subjectId, excluded));
    if sorted == [] then None else Some(sorted[0].id)
  }

  ghost predicate Tightest(f: Frame, subject: Rect, subjectId: Option<Id>, frames: seq<Frame>, excluded: set<Id>) {
    && f in frames && Eligible(f, subject, subjectId, excluded)
    && forall g :: g in frames && Eligible(g, subject, subjectId, excluded) ==>
         f.box.width * f.box.height <= g.box.width * g.box.height
  }

  /** What makes a frame eligible: it is neither the subject nor left out, and holds every point
      within 18 of the subject's box. */
  lemma EligibleHolds(frame: Frame, subject: Rect, subjectId: Option<Id>, excluded: set<Id>)
    requires subject.width >= 0.0 && subject.height >= 0.0
    ensures Eligible(frame, subject, subjectId, excluded) <==>
      subjectId != Some(frame.id) && frame.id !in excluded && HoldsWithMargin(frame.box, subject, 18.0)
  {
    ContainsIsMargin(frame.box, subject, 18.0);
  }

  /** It finds a frame exactly when one is eligible, and then the smallest. */
  lemma ContainingFrameIsTightest(subject: Rect, subjectId: Option<Id>, frames: seq<Frame>, excluded: set<Id>)
    ensures var found := ContainingFrame(subject, subjectId, frames, excluded);
            && (found.Some? <==> exists f :: f in frames && Eligible(f, subject, subjectId, excluded))
            && (found.Some? ==>
                  exists f: Frame :: f.id == found.value && Tightest(f, subject, subjectId, frames, excluded))
  {
    var eligible := EligibleFrames(frames, subject, subjectId, excluded);
    if eligible != [] {
      var i := Sorting.SortHead(ByArea, eligible);
      assert eligible[i] in eligible;
      forall g | g in eligible ensures Area(eligible[i]) <= Area(g) {
        var j :| 0 <= j < |eligible| && eligible[j] == g;
        assert !ByArea(eligible[j], eligible[i]);
      }
      assert Tightest(eligible[i], subject, subjectId, frames, excluded);
    } else {
      assert forall f :: f in frames && Eligible(f, subject, subjectId, excluded) ==> f in eligible;
    }
  }

  // Reparenting and cycles

  /** Away from x, chains are those of the old layout. */
  lemma {:induction false} AttachAgrees(p: Parents, x: Id, y: Id, z: Id, k: nat)
    requires x in p && forall i: nat :: i < k ==> Up(p, z, i) != Some(x)
    ensures Up(p[x := Some(y)], z, k) == Up(p, z, k)
    decreases k
  {
    if k == 0 {
    } else {
      AttachAgrees(p, x, y, z, k - 1);
      UpCompose(p, z, k - 1, 1);
      UpCompose(p[x := Some(y)], z, k - 1, 1);
    }
  }

  lemma {:induction false} AttachGrounds(p: Parents, x: Id, y: Id, z: Id, k: nat)
    requires x in p && Up(p, z, k) == None && Grounded(p[x := Some(y)], y)
    ensures Grounded(p[x := Some(y)], z)
    decreases k
  {
    var q := p[x := Some(y)];
    if z == x {
      var m: nat :| Up(q, y, m) == None;
      assert Up(q, x, m + 1) == None;
    } else if Linked(p, z) {
      AttachGrounds(p, x, y, p[z].value, k - 1);
      var m: nat :| Up(q, p[z].value, m) == None;
      assert Up(q, z, m + 1) == None;
    } else {
      assert Up(q, z, 1) == None;
    }
  }

  /** In a forest, moving x under y makes a cycle exactly when y is x or a descendant of
      x: excluding the descendants is both enough and needed. */
  lemma AttachKeepsForest(p: Parents, x: Id, y: Id)
    requires Forest(p) && x in p && y in p
    ensures Forest(p[x := Some(y)]) <==> y != x && y !in Descendants(p, x)
  {
    var q := p[x := Some(y)];
    if y != x && y !in Descendants(p, x) {
      var k: nat :| Up(p, y, k) == None;
      AttachAgrees(p, x, y, y, k);
      assert Grounded(q, y);
      forall z | z in q ensures Grounded(q, z) {
        var m: nat :| Up(p, z, m) == None;
        AttachGrounds(p, x, y, z, m);
      }
      forall z {:trigger Linked(q, z)} | Linked(q, z) ensures q[z].value in q {
        assert z != x ==> Linked(p, z);
      }
    } else {
      assert Up(p, y, 0) == Some(y);
      var k: nat :| Up(p, y, k) == Some(x);
      var first := FirstVisit(p, y, x, k);
      AttachAgrees(p, x, y, y, first);
      assert Up(q, x, first + 1) == Some(x);
      CycleNeverGrounded(q, x);
    }
  }

  lemma {:induction false} FirstVisit(p: Parents, z: Id, x: Id, k: nat) returns (first: nat)
    requires Up(p, z, k) == Some(x)
    ensures first <= k && Up(p, z, first) == Some(x) && forall i: nat :: i < first ==> Up(p, z, i) != Some(x)
    decreases k
  {
    if i: nat :| i < k && Up(p, z, i) == Some(x) {
      first := FirstVisit(p, z, x, i);
    } else {
      first := k;
    }
  }

  lemma DetachKeepsForest(p: Parents, x: Id)
    requires Forest(p) && x in p
    ensures Forest(p[x := None])
  {
    var q := p[x := None];
    forall z | z in q ensures Grounded(q, z) {
      GroundedInSubForest(q, p, z);
    }
    forall z {:trigger Linked(q, z)} | Linked(q, z) ensures q[z].value in q {
      assert Linked(p, z);
    }
  }

  /** Dropping a frame anywhere on a sound canvas leaves it sound: the parent chosen with
      the frame's own descendants excluded cannot close a cycle. */
  lemma ReparentKeepsForest(frames: seq<Frame>, x: Id, drop: Rect)
    requires UniqueIds(frames) && Forest(ParentsOf(frames)) && x in ParentsOf(frames)
    ensures var p := ParentsOf(frames);
            Forest(p[x := ContainingFrame(drop, Some(x), frames, Descendants(p, x))])
  {
    var p := ParentsOf(frames);
    var excluded := Descendants(p, x);
    var parent := ContainingFrame(drop, Some(x), frames, excluded);
    ContainingFrameIsTightest(drop, Some(x), frames, excluded);
    if parent.Some? {
      var f: Frame :| f.id == parent.value && Tightest(f, drop, Some(x), frames, excluded);
      AttachKeepsForest(p, x, f.id);
    } else {
      DetachKeepsForest(p, x);
    }
  }
}
