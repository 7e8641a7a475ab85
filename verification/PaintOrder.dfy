/** framesInPaintOrder: the order every fleet member paints its frames in. */
module PaintOrder {
  import opened Wrappers
  import opened FrameForest
  import opened FrameNesting
  import Sorting

  // The recursive preorder the stack walk is meant to produce

  lemma {:induction false} DepthExists(p: Parents, x: Id, k: nat)
    requires Up(p, x, k) == None
    ensures exists d: nat :: Up(p, x, d).Some? && Up(p, x, d + 1) == None
    decreases k
  {
    if Up(p, x, k - 1).Some? {
      assert Up(p, x, k - 1 + 1) == None;
    } else {
      DepthExists(p, x, k - 1);
    }
  }

  /** How many frames enclose x. */
  ghost function Depth(p: Parents, x: Id): (d: nat)
    requires Grounded(p, x)
    ensures Up(p, x, d).Some? && Up(p, x, d + 1) == None
  {
    var k: nat :| Up(p, x, k) == None;
    DepthExists(p, x, k);
    var d: nat :| Up(p, x, d).Some? && Up(p, x, d + 1) == None;
    d
  }

  lemma DepthIs(p: Parents, x: Id, d: nat)
    requires Grounded(p, x) && Up(p, x, d).Some? && Up(p, x, d + 1) == None
    ensures Depth(p, x) == d
  {
    var e := Depth(p, x);
    if e < d {
      UpCompose(p, x, e + 1, d - e - 1);
    } else if d < e {
      UpCompose(p, x, d + 1, e - d - 1);
    }
  }

  lemma DepthOfChild(p: Parents, x: Id)
    requires Forest(p) && Linked(p, x)
    ensures Depth(p, x) == Depth(p, p[x].value) + 1
  {
    DepthIs(p, x, Depth(p, p[x].value) + 1);
  }

  lemma DepthFits(p: Parents, x: Id)
    requires Forest(p) && x in p
    ensures Depth(p, x) < |p|
  {
    var d := Depth(p, x);
    if d >= |p| {
      UpCompose(p, x, |p|, d - |p|);
      LongChainMeetsCycle(p, x);
      var k: nat :| Up(p, x, k).Some? && OnCycle(p, Up(p, x, k).value);
      UpInKeys(p, x, k);
      CycleNeverGrounded(p, Up(p, x, k).value);
    }
  }

  ghost predicate IsLeast(s: set<Id>, least: Id) {
    least in s && forall x :: x in s ==> least <= x
  }

  lemma {:induction false} LeastExists(s: set<Id>)
    requires s != {}
    ensures exists least :: IsLeast(s, least)
  {
    var one :| one in s;
    var others := s - {one};
    if others == {} {
      assert s == {one};
      assert IsLeast(s, one);
    } else {
      LeastExists(others);
      var rest :| IsLeast(others, rest);
      forall x | x in s ensures one <= x || rest <= x {
        assert x == one || x in others;
      }
      assert IsLeast(s, if one < rest then one else rest);
    }
  }

  ghost function Least(s: set<Id>): (least: Id)
    requires s != {}
    ensures IsLeast(s, least)
  {
    LeastExists(s);
    var least :| IsLeast(s, least);
    least
  }

  /** The ids of a set, least first. */
  ghost function Ascending(s: set<Id>): (ids: seq<Id>)
    ensures forall x :: x in ids <==> x in s
    ensures forall i, j :: 0 <= i < j < |ids| ==> ids[i] < ids[j]
  {
    if s == {} then [] else [Least(s)] + Ascending(s - {Least(s)})
  }

  ghost function Children(p: Parents, parent: Option<Id>): seq<Id> {
    Ascending(set x | x in p && p[x] == parent)
  }

  ghost predicate AtLevel(p: Parents, xs: seq<Id>, level: nat)
    requires Forest(p)
  {
    forall i :: 0 <= i < |xs| ==> xs[i] in p && Depth(p, xs[i]) == level
  }

  lemma ChildrenLevel(p: Parents, x: Id)
    requires Forest(p) && x in p
    ensures AtLevel(p, Children(p, Some(x)), Depth(p, x) + 1)
  {
    var xs := Children(p, Some(x));
    forall i | 0 <= i < |xs| ensures xs[i] in p && Depth(p, xs[i]) == Depth(p, x) + 1 {
      assert xs[i] in xs;
      DepthOfChild(p, xs[i]);
    }
  }

  /** x, then the subtrees of its children, least id first. */
  ghost function Preorder(p: Parents, x: Id): seq<Id>
    requires Forest(p) && x in p
    decreases |p| - Depth(p, x), 0, 0
  {
    DepthFits(p, x);
    ChildrenLevel(p, x);
    [x] + PreorderAll(p, Children(p, Some(x)), Depth(p, x) + 1)
  }

  ghost function PreorderAll(p: Parents, xs: seq<Id>, level: nat): seq<Id>
    requires Forest(p) && AtLevel(p, xs, level) && level <= |p|
    decreases |p| - level, 1, |xs|
  {
    if xs == [] then [] else Preorder(p, xs[0]) + PreorderAll(p, xs[1..], level)
  }

  /** The whole canvas, bottom to top. */
  ghost function PaintIds(p: Parents): seq<Id>
    requires Forest(p)
  {
    RootsLevel(p);
    PreorderAll(p, Children(p, None), 0)
  }

  lemma RootsLevel(p: Parents)
    requires Forest(p)
    ensures AtLevel(p, Children(p, None), 0)
  {
    var xs := Children(p, None);
    forall i | 0 <= i < |xs| ensures xs[i] in p && Depth(p, xs[i]) == 0 {
      assert xs[i] in xs;
      DepthIs(p, xs[i], 0);
    }
  }

  // The stack walk produces it

  /** The subtrees of any list of frames, one after another. */
  ghost function Painted(p: Parents, xs: seq<Id>): seq<Id>
    requires Forest(p) && forall i :: 0 <= i < |xs| ==> xs[i] in p
  {
    if xs == [] then [] else Preorder(p, xs[0]) + Painted(p, xs[1..])
  }

  lemma {:induction false} PaintedIsPreorderAll(p: Parents, xs: seq<Id>, level: nat)
    requires Forest(p) && AtLevel(p, xs, level) && level <= |p|
    ensures PreorderAll(p, xs, level) == Painted(p, xs)
    decreases |xs|
  {
    if xs == [] {
    } else {
      PaintedIsPreorderAll(p, xs[1..], level);
    }
  }

  lemma ChildrenIn(p: Parents, parent: Option<Id>)
    ensures forall i :: 0 <= i < |Children(p, parent)| ==>
      Children(p, parent)[i] in p && p[Children(p, parent)[i]] == parent
  {
    forall i | 0 <= i < |Children(p, parent)|
      ensures Children(p, parent)[i] in p && p[Children(p, parent)[i]] == parent
    {
      assert Children(p, parent)[i] in Children(p, parent);
    }
  }

  lemma PreorderUnfolds(p: Parents, x: Id)
    requires Forest(p) && x in p
    ensures forall i :: 0 <= i < |Children(p, Some(x))| ==> Children(p, Some(x))[i] in p
    ensures Preorder(p, x) == [x] + Painted(p, Children(p, Some(x)))
  {
    DepthFits(p, x);
    ChildrenLevel(p, x);
    PaintedIsPreorderAll(p, Children(p, Some(x)), Depth(p, x) + 1);
  }

  lemma PaintIdsUnfolds(p: Parents)
    requires Forest(p)
    ensures forall i :: 0 <= i < |Children(p, None)| ==> Children(p, None)[i] in p
    ensures PaintIds(p) == Painted(p, Children(p, None))
  {
    RootsLevel(p);
    PaintedIsPreorderAll(p, Children(p, None), 0);
  }

  lemma {:induction false} PaintedConcat(p: Parents, xs: seq<Id>, ys: seq<Id>)
    requires Forest(p) && forall i :: 0 <= i < |xs| ==> xs[i] in p
    requires forall i :: 0 <= i < |ys| ==> ys[i] in p
    ensures Painted(p, xs + ys) == Painted(p, xs) + Painted(p, ys)
    decreases |xs|
  {
    if xs == [] {
      assert xs + ys == ys;
    } else {
      assert (xs + ys)[1..] == xs[1..] + ys;
      PaintedConcat(p, xs[1..], ys);
    }
  }

  /** One turn of the walk: take x off, put its children on. */
  lemma PaintedStep(p: Parents, x: Id, rest: seq<Id>)
    requires Forest(p) && x in p && forall i :: 0 <= i < |rest| ==> rest[i] in p
    ensures forall i :: 0 <= i < |Children(p, Some(x)) + rest| ==> (Children(p, Some(x)) + rest)[i] in p
    ensures Painted(p, [x] + rest) == [x] + Painted(p, Children(p, Some(x)) + rest)
  {
    PreorderUnfolds(p, x);
    PaintedConcat(p, Children(p, Some(x)), rest);
    assert ([x] + rest)[1..] == rest;
  }

  function Ids(frames: seq<Frame>): (ids: seq<Id>)
    ensures |ids| == |frames|
    ensures forall i :: 0 <= i < |frames| ==> ids[i] == frames[i].id
  {
    seq(|frames|, i requires 0 <= i < |frames| => frames[i].id)
  }

  function Reverse<T>(s: seq<T>): (r: seq<T>)
    ensures |r| == |s|
    ensures forall i :: 0 <= i < |s| ==> r[i] == s[|s| - 1 - i]
  {
    if s == [] then [] else Reverse(s[1..]) + [s[0]]
  }

  /** The frames with a given parent, in list order. */
  ghost function Group(frames: seq<Frame>, parent: Option<Id>): seq<Frame> {
    if frames == [] then []
    else
      var earlier := Group(frames[..|frames| - 1], parent);
      var last := frames[|frames| - 1];
      if last.parentId == parent then earlier + [last] else earlier
  }

  /** `children.get(parent) ?? []` */
  function Entry(children: map<Option<Id>, seq<Frame>>, parent: Option<Id>): seq<Frame> {
    if parent in children then children[parent] else []
  }

  /** The grouping loop; a parent without children has no entry. */
  method GroupByParent(frames: seq<Frame>) returns (children: map<Option<Id>, seq<Frame>>)
    ensures forall parent :: Group(frames, parent) == Entry(children, parent)
  {
    children := map[];
    for k := 0 to |frames|
      invariant forall parent :: Group(frames[..k], parent) == Entry(children, parent)
    {
      var frame := frames[k];
      assert frames[..k + 1][..k] == frames[..k];
      children := children[frame.parentId := Entry(children, frame.parentId) + [frame]];
    }
    assert frames[..|frames|] == frames;
  }

  function ById(a: Frame, b: Frame): bool {
    a.id < b.id
  }

  lemma {:induction false} GroupMembers(frames: seq<Frame>, parent: Option<Id>)
    requires UniqueIds(frames)
    ensures UniqueIds(Group(frames, parent))
    ensures forall f :: f in Group(frames, parent) <==> f in frames && f.parentId == parent
  {
    if frames == [] {
    } else {
      var earlier, last := frames[..|frames| - 1], frames[|frames| - 1];
      GroupMembers(earlier, parent);
      assert frames == earlier + [last];
      forall i | 0 <= i < |Group(earlier, parent)| ensures Group(earlier, parent)[i].id != last.id {
        assert Group(earlier, parent)[i] in earlier;
      }
    }
  }

  lemma {:induction false} AscendingUnique(a: seq<Id>, b: seq<Id>)
    requires forall x :: x in a <==> x in b
    requires forall i, j :: 0 <= i < j < |a| ==> a[i] < a[j]
    requires forall i, j :: 0 <= i < j < |b| ==> b[i] < b[j]
    ensures a == b
  {
    assert a != [] ==> a[0] in b;
    assert b != [] ==> b[0] in a;
    if a == [] {
    } else {
      AscendingTail(a);
      AscendingTail(b);
      AscendingUnique(a[1..], b[1..]);
      assert a == [a[0]] + a[1..] && b == [b[0]] + b[1..];
    }
  }

  lemma AscendingTail(a: seq<Id>)
    requires a != [] && forall i, j :: 0 <= i < j < |a| ==> a[i] < a[j]
    ensures forall x :: x in a[1..] <==> x in a && x != a[0]
  {
    forall x | x in a && x != a[0] ensures x in a[1..] {
      var i :| 0 <= i < |a| && a[i] == x;
      assert a[1..][i - 1] == x;
    }
  }

  lemma SortedMembers(frames: seq<Frame>, parent: Option<Id>)
    requires UniqueIds(frames)
    ensures forall f :: f in Sorting.Sort(ById, Group(frames, parent)) <==> f in frames && f.parentId == parent
  {
    var group := Group(frames, parent);
    GroupMembers(frames, parent);
    Sorting.SortSorts(ById, group);
    forall f ensures f in Sorting.Sort(ById, group) <==> f in group {
      assert f in Sorting.Sort(ById, group) <==> f in multiset(group);
    }
  }

  lemma SiblingIds(list: seq<Frame>, frames: seq<Frame>, p: Parents, byId: map<Id, nat>, parent: Option<Id>)
    requires Spells(frames, p, byId)
    requires forall f :: f in list <==> f in frames && f.parentId == parent
    ensures forall x :: x in Ids(list) <==> x in p && p[x] == parent
  {
    forall x | x in Ids(list) ensures x in p && p[x] == parent {
      var i :| 0 <= i < |list| && Ids(list)[i] == x;
      assert list[i] in list;
    }
    forall x | x in p && p[x] == parent ensures x in Ids(list) {
      assert frames[byId[x]] in list;
      var i :| 0 <= i < |list| && list[i] == frames[byId[x]];
      assert Ids(list)[i] == x;
    }
  }

  ghost predicate ByAscendingId(list: seq<Frame>) {
    forall i, j :: 0 <= i < j < |list| ==> list[i].id < list[j].id
  }

  /** A list of all frames with one parent, by ascending id, is the children of the layout. */
  lemma SiblingsAreChildren(list: seq<Frame>, frames: seq<Frame>, p: Parents, byId: map<Id, nat>, parent: Option<Id>)
    requires Spells(frames, p, byId)
    requires forall f :: f in list <==> f in frames && f.parentId == parent
    requires ByAscendingId(list)
    ensures Ids(list) == Children(p, parent)
  {
    SiblingIds(list, frames, p, byId, parent);
    AscendingUnique(Ids(list), Children(p, parent));
  }

  lemma SortedDistinct(group: seq<Frame>)
    requires UniqueIds(group)
    ensures ByAscendingId(Sorting.Sort(ById, group))
  {
    var sorted := Sorting.Sort(ById, group);
    Sorting.SortSorts(ById, group);
    Sorting.DistinctPermutes(group, sorted);
    forall i | 0 <= i < |sorted| ensures sorted[i] in group {
      assert sorted[i] in multiset(group);
    }
  }

  ghost predicate SortedGroups(children: map<Option<Id>, seq<Frame>>, frames: seq<Frame>) {
    forall parent :: Sorting.Sort(ById, Group(frames, parent)) == Entry(children, parent)
  }

  method SortGroups(groups: map<Option<Id>, seq<Frame>>, ghost frames: seq<Frame>)
    returns (children: map<Option<Id>, seq<Frame>>)
    requires forall parent :: Group(frames, parent) == Entry(groups, parent)
    ensures SortedGroups(children, frames)
  {
    children := map parent | parent in groups :: Sorting.Sort(ById, groups[parent]);
  }

  /** The ids still to paint, next first: the stack read from its top. */
  ghost function FromTop(stack: seq<Frame>): (ids: seq<Id>)
    ensures |ids| == |stack|
    ensures forall i :: 0 <= i < |stack| ==> ids[i] == stack[|stack| - 1 - i].id
  {
    seq(|stack|, i requires 0 <= i < |stack| => stack[|stack| - 1 - i].id)
  }

  ghost predicate InLayout(ids: seq<Id>, p: Parents) {
    forall i :: 0 <= i < |ids| ==> ids[i] in p
  }

  /** The inner loop: push the children last first, so the least comes off first. */
  method PushReversed(before: seq<Frame>, nested: seq<Frame>) returns (stack: seq<Frame>)
    ensures FromTop(stack) == Ids(nested) + FromTop(before)
    ensures forall f :: f in stack ==> f in before || f in nested
  {
    stack := before;
    for index := |nested| downto 0
      invariant FromTop(stack) == Ids(nested)[index..] + FromTop(before)
      invariant forall f :: f in stack ==> f in before || f in nested
    {
      ghost var pushed := FromTop(stack);
      stack := stack + [nested[index]];
      assert FromTop(stack) == [nested[index].id] + pushed;
      assert Ids(nested)[index..] == [nested[index].id] + Ids(nested)[index + 1..];
    }
  }

  lemma SortedSiblings(frames: seq<Frame>, p: Parents, byId: map<Id, nat>, parent: Option<Id>)
    requires Spells(frames, p, byId)
    ensures Ids(Sorting.Sort(ById, Group(frames, parent))) == Children(p, parent)
    ensures forall f :: f in Sorting.Sort(ById, Group(frames, parent)) ==> f in frames
  {
    GroupMembers(frames, parent);
    SortedMembers(frames, parent);
    SortedDistinct(Group(frames, parent));
    SiblingsAreChildren(Sorting.Sort(ById, Group(frames, parent)), frames, p, byId, parent);
  }

  lemma SortedEntry(frames: seq<Frame>, children: map<Option<Id>, seq<Frame>>, p: Parents, byId: map<Id, nat>,
      parent: Option<Id>)
    requires Spells(frames, p, byId) && SortedGroups(children, frames)
    ensures Ids(Entry(children, parent)) == Children(p, parent)
    ensures forall f :: f in Entry(children, parent) ==> f in frames
    ensures InLayout(Children(p, parent), p)
  {
    SortedSiblings(frames, p, byId, parent);
    ChildrenIn(p, parent);
  }

  /** The walk over a repaired layout. */
  method WalkStack(frames: seq<Frame>, children: map<Option<Id>, seq<Frame>>, ghost p: Parents,
      ghost byId: map<Id, nat>)
    returns (ordered: seq<Frame>)
    requires Forest(p) && Spells(frames, p, byId) && SortedGroups(children, frames)
    ensures Ids(ordered) == PaintIds(p)
    ensures forall f :: f in ordered ==> f in frames
  {
    ordered := [];
    var roots := Entry(children, None);
    var stack := Reverse(roots);
    SortedEntry(frames, children, p, byId, None);
    PaintIdsUnfolds(p);
    assert FromTop(stack) == Children(p, None);
    while |stack| > 0
      invariant InLayout(FromTop(stack), p) && forall f :: f in stack ==> f in frames
      invariant forall f :: f in ordered ==> f in frames
      invariant Ids(ordered) + Painted(p, FromTop(stack)) == PaintIds(p)
      decreases |PaintIds(p)| - |ordered|
    {
      var frame := stack[|stack| - 1];
      StepPaints(ordered, stack, p);
      SortedEntry(frames, children, p, byId, Some(frame.id));
      stack := stack[..|stack| - 1];
      ordered := ordered + [frame];
      stack := PushReversed(stack, Entry(children, Some(frame.id)));
    }
  }

  /** One turn of the walk leaves the finished picture unchanged. */
  lemma StepPaints(ordered: seq<Frame>, stack: seq<Frame>, p: Parents)
    requires Forest(p) && stack != [] && InLayout(FromTop(stack), p)
    ensures var frame, rest := stack[|stack| - 1], stack[..|stack| - 1];
            var pushed := Children(p, Some(frame.id)) + FromTop(rest);
            && InLayout(pushed, p)
            && Ids(ordered) + Painted(p, FromTop(stack)) == Ids(ordered + [frame]) + Painted(p, pushed)
  {
    var frame, rest := stack[|stack| - 1], FromTop(stack[..|stack| - 1]);
    assert FromTop(stack) == [frame.id] + rest;
    forall i | 0 <= i < |rest| ensures rest[i] in p {
      assert rest[i] == FromTop(stack)[i + 1];
    }
    assert FromTop(stack)[0] in p;
    PaintedStep(p, frame.id, rest);
    assert Ids(ordered + [frame]) == Ids(ordered) + [frame.id];
  }

  lemma RepairedSpells(input: seq<Frame>)
    requires UniqueIds(input)
    ensures Spells(RepairedFrames(input), Repaired(ParentsOf(input)), IndexById(input))
  {
    InputSpells(input);
  }

  /** framesInPaintOrder: the repaired frames, in the preorder of the repaired layout. */
  method FramesInPaintOrder(input: seq<Frame>, starts: seq<nat>) returns (ordered: seq<Frame>)
    requires UniqueIds(input)
    requires forall i: nat :: i in starts <==> i < |input|
    ensures Forest(Repaired(ParentsOf(input)))
    ensures Ids(ordered) == PaintIds(Repaired(ParentsOf(input)))
    ensures forall f :: f in ordered ==> f in RepairedFrames(input)
  {
    var frames := NormalizeFrameNesting(input, starts);
    ghost var p := Repaired(ParentsOf(input));
    RepairedIsForest(ParentsOf(input));
    ghost var byId := IndexById(input);
    RepairedSpells(input);
    var groups := GroupByParent(frames);
    var children := SortGroups(groups, frames);
    ordered := WalkStack(frames, children, p, byId);
  }

  // What that order means

  /** x encloses y, or is y. */
  ghost predicate Encloses(p: Parents, x: Id, y: Id) {
    exists k: nat :: Up(p, y, k) == Some(x)
  }

  ghost function Subtree(p: Parents, x: Id): set<Id> {
    set y | y in p && Encloses(p, x, y)
  }

  ghost function Under(p: Parents, xs: seq<Id>): set<Id> {
    set y | y in p && exists i :: 0 <= i < |xs| && Encloses(p, xs[i], y)
  }

  /** Two frames at one level that enclose a common frame are the same. */
  lemma EncloserAtLevel(p: Parents, a: Id, b: Id, y: Id)
    requires Forest(p) && a in p && b in p && y in p && Depth(p, a) == Depth(p, b)
    requires Encloses(p, a, y) && Encloses(p, b, y)
    ensures a == b
  {
    var j: nat, k: nat :| Up(p, y, j) == Some(a) && Up(p, y, k) == Some(b);
    var d := Depth(p, a);
    UpCompose(p, y, j, d);
    UpCompose(p, y, j, d + 1);
    UpCompose(p, y, k, d);
    UpCompose(p, y, k, d + 1);
    DepthIs(p, y, j + d);
    DepthIs(p, y, k + d);
  }

  /** A subtree is its root and the subtrees of the root's children. */
  lemma SubtreeUnfolds(p: Parents, x: Id)
    requires Forest(p) && x in p
    ensures Subtree(p, x) == {x} + Under(p, Children(p, Some(x)))
    ensures x !in Under(p, Children(p, Some(x)))
  {
    var xs := Children(p, Some(x));
    ChildrenIn(p, Some(x));
    assert Up(p, x, 0) == Some(x);
    forall y | y in Subtree(p, x) ensures y == x || y in Under(p, xs) {
      var k: nat :| Up(p, y, k) == Some(x);
      if k > 0 {
        UpCompose(p, y, k - 1, 1);
        UpInKeys(p, y, k - 1);
        var c := Up(p, y, k - 1).value;
        assert p[c] == Some(x) && c in xs;
        assert Encloses(p, c, y);
      }
    }
    forall y | y in Under(p, xs) ensures y in Subtree(p, x) && y != x {
      var i :| 0 <= i < |xs| && Encloses(p, xs[i], y);
      var k: nat :| Up(p, y, k) == Some(xs[i]);
      UpCompose(p, y, k, 1);
      assert Up(p, xs[i], 1) == Some(x);
      assert Up(p, y, k + 1) == Some(x);
      if y == x {
        assert OnCycle(p, x);
        CycleNeverGrounded(p, x);
      }
    }
  }

  /** The preorder of a subtree paints each of its frames once, and nothing else. */
  lemma {:induction false} PreorderPaintsSubtree(p: Parents, x: Id)
    requires Forest(p) && x in p
    ensures multiset(Preorder(p, x)) == multiset(Subtree(p, x))
    decreases |p| - Depth(p, x), 0, 0
  {
    DepthFits(p, x);
    ChildrenLevel(p, x);
    var xs, level := Children(p, Some(x)), Depth(p, x) + 1;
    PreorderAllPaintsUnder(p, xs, level);
    SubtreeUnfolds(p, x);
    OneMore(x, PreorderAll(p, xs, level), Under(p, xs));
  }

  lemma OneMore(x: Id, ids: seq<Id>, s: set<Id>)
    requires x !in s && multiset(ids) == multiset(s)
    ensures multiset([x] + ids) == multiset({x} + s)
  {
  }

  lemma BothTogether(a: seq<Id>, b: seq<Id>, s: set<Id>, t: set<Id>)
    requires s !! t && multiset(a) == multiset(s) && multiset(b) == multiset(t)
    ensures multiset(a + b) == multiset(s + t)
  {
  }

  lemma {:induction false} PreorderAllPaintsUnder(p: Parents, xs: seq<Id>, level: nat)
    requires Forest(p) && AtLevel(p, xs, level) && level <= |p|
    requires forall i, j :: 0 <= i < j < |xs| ==> xs[i] < xs[j]
    ensures multiset(PreorderAll(p, xs, level)) == multiset(Under(p, xs))
    decreases |p| - level, 1, |xs|
  {
    if xs == [] {
      assert Under(p, xs) == {};
    } else {
      PreorderPaintsSubtree(p, xs[0]);
      PreorderAllPaintsUnder(p, xs[1..], level);
      UnderSplits(p, xs, level);
      BothTogether(Preorder(p, xs[0]), PreorderAll(p, xs[1..], level), Subtree(p, xs[0]), Under(p, xs[1..]));
    }
  }

  lemma UnderSplits(p: Parents, xs: seq<Id>, level: nat)
    requires Forest(p) && AtLevel(p, xs, level) && xs != []
    requires forall i, j :: 0 <= i < j < |xs| ==> xs[i] < xs[j]
    ensures Under(p, xs) == Subtree(p, xs[0]) + Under(p, xs[1..])
    ensures Subtree(p, xs[0]) !! Under(p, xs[1..])
  {
    forall y | y in Under(p, xs) ensures y in Subtree(p, xs[0]) + Under(p, xs[1..]) {
      var i :| 0 <= i < |xs| && Encloses(p, xs[i], y);
      assert i > 0 ==> xs[1..][i - 1] == xs[i];
    }
    forall y | y in Under(p, xs[1..]) ensures y in Under(p, xs) && y !in Subtree(p, xs[0]) {
      var i :| 0 <= i < |xs[1..]| && Encloses(p, xs[1..][i], y);
      assert Encloses(p, xs[i + 1], y);
      if Encloses(p, xs[0], y) {
        EncloserAtLevel(p, xs[0], xs[i + 1], y);
      }
    }
  }

  lemma RootEncloses(p: Parents, y: Id)
    requires Forest(p) && y in p
    ensures y in Under(p, Children(p, None))
  {
    var d := Depth(p, y);
    UpCompose(p, y, d, 1);
    UpInKeys(p, y, d);
    var root := Up(p, y, d).value;
    assert p[root] == None && root in Children(p, None);
    assert Encloses(p, root, y);
  }

  /** Every frame is painted exactly once. */
  lemma PaintsEachFrameOnce(p: Parents)
    requires Forest(p)
    ensures multiset(PaintIds(p)) == multiset(p.Keys)
  {
    var roots := Children(p, None);
    RootsLevel(p);
    PreorderAllPaintsUnder(p, roots, 0);
    forall y | y in p ensures y in Under(p, roots) {
      RootEncloses(p, y);
    }
    assert Under(p, roots) == p.Keys;
  }

  /** A part of the picture painted in one unbroken run. */
  ghost predicate Run(whole: seq<Id>, at: nat, part: seq<Id>) {
    at + |part| <= |whole| && whole[at..at + |part|] == part
  }

  lemma RunWithin(whole: seq<Id>, at: nat, part: seq<Id>, inner: nat, piece: seq<Id>)
    requires Run(whole, at, part) && Run(part, inner, piece)
    ensures Run(whole, at + inner, piece)
  {
    forall k | 0 <= k < |piece| ensures whole[at + inner + k] == piece[k] {
      assert part[inner..inner + |piece|][k] == part[inner + k] == whole[at..at + |part|][inner + k];
    }
  }

  /** Where the subtree of the i-th frame of a list is painted. */
  lemma {:induction false} RunInPainted(p: Parents, xs: seq<Id>, i: nat) returns (at: nat)
    requires Forest(p) && InLayout(xs, p) && i < |xs|
    ensures Run(Painted(p, xs), at, Preorder(p, xs[i]))
    ensures at == |Painted(p, xs[..i])|
    decreases |xs|
  {
    assert xs == xs[..i] + xs[i..];
    PaintedConcat(p, xs[..i], xs[i..]);
    at := |Painted(p, xs[..i])|;
  }

  /** All frames of one parent, with their subtrees, are painted in one unbroken run. */
  lemma {:induction false} SiblingsContiguous(p: Parents, parent: Option<Id>) returns (at: nat)
    requires Forest(p) && (parent.Some? ==> parent.value in p)
    ensures InLayout(Children(p, parent), p) && Run(PaintIds(p), at, Painted(p, Children(p, parent)))
    decreases if parent.Some? then Depth(p, parent.value) + 1 else 0, 0
  {
    ChildrenIn(p, parent);
    if parent == None {
      PaintIdsUnfolds(p);
      at := 0;
    } else {
      var outer := SubtreeContiguous(p, parent.value);
      PreorderUnfolds(p, parent.value);
      RunWithin(PaintIds(p), outer, Preorder(p, parent.value), 1, Painted(p, Children(p, parent)));
      at := outer + 1;
    }
  }

  /** Every subtree is painted in one unbroken run that starts with its own frame. */
  lemma {:induction false} SubtreeContiguous(p: Parents, x: Id) returns (at: nat)
    requires Forest(p) && x in p
    ensures Run(PaintIds(p), at, Preorder(p, x)) && Preorder(p, x)[0] == x
    decreases Depth(p, x), 1
  {
    var xs := Children(p, p[x]);
    var i := ChildIndex(p, x);
    if p[x].Some? {
      assert Linked(p, x);
      DepthOfChild(p, x);
    }
    var outer := SiblingsContiguous(p, p[x]);
    var inner := RunInPainted(p, xs, i);
    RunWithin(PaintIds(p), outer, Painted(p, xs), inner, Preorder(p, x));
    at := outer + inner;
  }

  /** A frame is painted before everything it encloses. */
  lemma EncloserFirst(p: Parents, x: Id, y: Id, i: nat, j: nat)
    requires Forest(p) && x in p && y in p && x != y && Encloses(p, x, y)
    requires i < |PaintIds(p)| && PaintIds(p)[i] == x
    requires j < |PaintIds(p)| && PaintIds(p)[j] == y
    ensures i < j
  {
    var at := SubtreeContiguous(p, x);
    PreorderPaintsSubtree(p, x);
    assert y in multiset(Preorder(p, x));
    var k :| 0 <= k < |Preorder(p, x)| && Preorder(p, x)[k] == y;
    PaintedAt(p, x, i, at);
    PaintedAt(p, y, j, at + k);
  }

  /** No frame has two places. */
  lemma PaintedAt(p: Parents, x: Id, i: nat, j: nat)
    requires Forest(p) && i < |PaintIds(p)| && j < |PaintIds(p)| && PaintIds(p)[i] == PaintIds(p)[j] == x
    ensures i == j
  {
    PaintsEachFrameOnce(p);
    if i < j {
      Sorting.RepeatedTwice(PaintIds(p), i, j);
    } else if j < i {
      Sorting.RepeatedTwice(PaintIds(p), j, i);
    }
  }

  /** Among frames of one parent, all that the lesser encloses is painted first. */
  lemma SiblingsAscend(p: Parents, x: Id, y: Id, i: nat, j: nat)
    requires Forest(p) && x in p && y in p && p[x] == p[y] && x < y
    requires i < |PaintIds(p)| && PaintIds(p)[i] == x
    requires j < |PaintIds(p)| && PaintIds(p)[j] == y
    ensures i + |Preorder(p, x)| <= j
  {
    var xs := Children(p, p[x]);
    var a := ChildIndex(p, x);
    var b := ChildIndex(p, y);
    assert p[x].Some? ==> Linked(p, x);
    var at := SiblingsContiguous(p, p[x]);
    SiblingPlace(p, xs, at, a, i);
    SiblingPlace(p, xs, at, b, j);
    PaintedPrefixGrows(p, xs, a, b);
  }

  lemma ChildIndex(p: Parents, x: Id) returns (i: nat)
    requires x in p
    ensures i < |Children(p, p[x])| && Children(p, p[x])[i] == x
  {
    assert x in Children(p, p[x]);
    i :| 0 <= i < |Children(p, p[x])| && Children(p, p[x])[i] == x;
  }

  lemma SiblingPlace(p: Parents, xs: seq<Id>, at: nat, a: nat, i: nat)
    requires Forest(p) && InLayout(xs, p) && Run(PaintIds(p), at, Painted(p, xs)) && a < |xs|
    requires i < |PaintIds(p)| && PaintIds(p)[i] == xs[a]
    ensures i == at + |Painted(p, xs[..a])|
  {
    var inner := RunInPainted(p, xs, a);
    RunWithin(PaintIds(p), at, Painted(p, xs), inner, Preorder(p, xs[a]));
    RunStart(PaintIds(p), at + inner, Preorder(p, xs[a]));
    PreorderUnfolds(p, xs[a]);
    PaintedAt(p, xs[a], i, at + inner);
  }

  lemma RunStart(whole: seq<Id>, at: nat, part: seq<Id>)
    requires Run(whole, at, part) && part != []
    ensures whole[at] == part[0]
  {
    assert whole[at..at + |part|][0] == whole[at];
  }

  lemma PaintedPrefixGrows(p: Parents, xs: seq<Id>, a: nat, b: nat)
    requires Forest(p) && InLayout(xs, p) && a < b <= |xs|
    ensures |Painted(p, xs[..a])| + |Preorder(p, xs[a])| <= |Painted(p, xs[..b])|
  {
    assert xs[..b] == xs[..a] + xs[a..b];
    PaintedConcat(p, xs[..a], xs[a..b]);
  }

  /** Two members holding the same frames, whatever order their records arrived in,
      paint the same list. */
  lemma SamePicture(a: seq<Frame>, b: seq<Frame>, paintedA: seq<Frame>, paintedB: seq<Frame>)
    requires UniqueIds(a) && UniqueIds(b) && multiset(a) == multiset(b)
    requires Forest(Repaired(ParentsOf(a))) && Forest(Repaired(ParentsOf(b)))
    requires Ids(paintedA) == PaintIds(Repaired(ParentsOf(a))) && forall f :: f in paintedA ==> f in RepairedFrames(a)
    requires Ids(paintedB) == PaintIds(Repaired(ParentsOf(b))) && forall f :: f in paintedB ==> f in RepairedFrames(b)
    ensures paintedA == paintedB
  {
    LayoutIgnoresOrder(a, b);
    assert |paintedA| == |Ids(paintedA)| == |paintedB|;
    forall i | 0 <= i < |paintedA| ensures paintedA[i] == paintedB[i] {
      assert paintedA[i] in RepairedFrames(a) && paintedB[i] in RepairedFrames(b);
      assert Ids(paintedA)[i] == Ids(paintedB)[i];
      var j :| 0 <= j < |a| && RepairedFrames(a)[j] == paintedA[i];
      var k :| 0 <= k < |b| && RepairedFrames(b)[k] == paintedB[i];
    }
  }
}
