/** resolveDesktopTileCollisions: pushing overlapping desktop tiles down whole rows. */
module TileCollisions {
  import opened Wrappers
  import opened FrameForest
  import CanvasRecords
  import Sorting

  datatype Placement = Placement(id: Id, x: real, y: real, parentId: Option<Id>)

  datatype Metrics = Metrics(tileWidth: real, tileHeight: real, rowHeight: real)

  datatype Priority = Priority(tier: int, stamp: Option<CanvasRecords.Stamp>)

  type Priorities = map<Id, Priority>

  ghost predicate UniqueTiles(tiles: seq<Placement>) {
    forall i, j :: 0 <= i < j < |tiles| ==> tiles[i].id != tiles[j].id
  }

  /** rectsIntersect on two tiles of one size. */
  predicate Intersect(a: Placement, b: Placement, m: Metrics) {
    && a.x < b.x + m.tileWidth && a.x + m.tileWidth > b.x
    && a.y < b.y + m.tileHeight && a.y + m.tileHeight > b.y
  }

  predicate Blocked(next: Placement, resolved: seq<Placement>, m: Metrics) {
    exists i :: 0 <= i < |resolved| && resolved[i].parentId == None && Intersect(next, resolved[i], m)
  }

  function TierOf(p: Priorities, t: Placement): int {
    if t.id in p then p[t.id].tier else 0
  }

  function StampOf(p: Priorities, t: Placement): Option<CanvasRecords.Stamp> {
    if t.id in p then p[t.id].stamp else None
  }

  function OrderOf(order: map<Id, nat>, t: Placement): nat {
    if t.id in order then order[t.id] else 0
  }

  /** The comparator: higher tier, then newer stamp, any stamp before none, then input order. */
  predicate Before(p: Priorities, order: map<Id, nat>, a: Placement, b: Placement) {
    if TierOf(p, a) != TierOf(p, b) then TierOf(p, a) > TierOf(p, b)
    else match (StampOf(p, a), StampOf(p, b))
      case (Some(s), Some(t)) =>
        if CanvasRecords.CompareStamp(t, s) != 0 then CanvasRecords.CompareStamp(t, s) < 0
        else OrderOf(order, a) < OrderOf(order, b)
      case (Some(_), None) => true
      case (None, Some(_)) => false
      case (None, None) => OrderOf(order, a) < OrderOf(order, b)
  }

  function InputOrder(tiles: seq<Placement>): map<Id, nat>
    requires UniqueTiles(tiles)
  {
    map i | 0 <= i < |tiles| :: tiles[i].id := i
  }

  /** Move down a row at a time while blocked, at most one more time than there are tiles. */
  function Settle(next: Placement, resolved: seq<Placement>, m: Metrics, attempts: nat): Placement
    decreases |resolved| + 1 - attempts
  {
    if attempts <= |resolved| && Blocked(next, resolved, m)
    then Settle(next.(y := next.y + m.rowHeight), resolved, m, attempts + 1)
    else next
  }

  function Place(source: Placement, resolved: seq<Placement>, m: Metrics): Placement {
    if source.parentId == None then Settle(source, resolved, m, 0) else source
  }

  function ResolveInOrder(ordered: seq<Placement>, m: Metrics): seq<Placement> {
    if ordered == [] then []
    else
      var resolved := ResolveInOrder(ordered[..|ordered| - 1], m);
      resolved + [Place(ordered[|ordered| - 1], resolved, m)]
  }

  // What overlapping means

  /** A point strictly inside a tile. */
  ghost predicate Inside(px: real, py: real, t: Placement, m: Metrics) {
    t.x < px < t.x + m.tileWidth && t.y < py < t.y + m.tileHeight
  }

  /** Two tiles have a point inside in common. */
  ghost predicate Overlap(a: Placement, b: Placement, m: Metrics) {
    exists px, py :: Inside(px, py, a, m) && Inside(px, py, b, m)
  }

  /** Two open intervals of one width that start less than it apart have a number in common. */
  lemma Between(a: real, b: real, width: real) returns (p: real)
    requires a < b + width && b < a + width
    ensures a < p < a + width && b < p < b + width
  {
    var low, high := if a < b then b else a, if a < b then a + width else b + width;
    p := (low + high) / 2.0;
  }

  /** Two tiles of the desktop itself overlap. */
  ghost predicate Collide(a: Placement, b: Placement, m: Metrics) {
    a.parentId == None && b.parentId == None && Overlap(a, b, m)
  }

  /** The test for intersection finds exactly the tiles with a point in common. */
  lemma IntersectIsOverlap(a: Placement, b: Placement, m: Metrics)
    ensures Intersect(a, b, m) <==> Overlap(a, b, m)
  {
    if Intersect(a, b, m) {
      var px := Between(a.x, b.x, m.tileWidth);
      var py := Between(a.y, b.y, m.tileHeight);
      assert Inside(px, py, a, m) && Inside(px, py, b, m);
    }
  }

  // Where a tile ends up

  /** The height of k rows. */
  ghost function Rows(m: Metrics, k: int): real {
    k as real * m.rowHeight
  }

  /** y after k rows down. */
  ghost function RowDown(y: real, m: Metrics, k: nat): real {
    y + Rows(m, k)
  }

  ghost function Shifted(t: Placement, m: Metrics, k: nat): Placement {
    t.(y := RowDown(t.y, m, k))
  }

  lemma RowDownStep(y: real, m: Metrics, k: nat)
    ensures RowDown(y, m, k) + m.rowHeight == RowDown(y, m, k + 1)
  {
    RowsAdd(m, k, 1);
  }

  lemma RowsAdd(m: Metrics, i: int, j: int)
    ensures Rows(m, i + j) == Rows(m, i) + Rows(m, j)
    ensures Rows(m, 1) == m.rowHeight
  {
    assert (i + j) as real == i as real + j as real;
    assert (i as real + j as real) * m.rowHeight == i as real * m.rowHeight + j as real * m.rowHeight;
  }

  /** A tile stops at the first row that is free, or gives up one row past the last try. */
  lemma {:induction false} SettleStops(source: Placement, resolved: seq<Placement>, m: Metrics, k: nat) returns (n: nat)
    requires k <= |resolved| + 1
    requires forall j: nat :: j < k ==> Blocked(Shifted(source, m, j), resolved, m)
    ensures k <= n <= |resolved| + 1
    ensures Settle(Shifted(source, m, k), resolved, m, k) == Shifted(source, m, n)
    ensures forall j: nat :: j < n ==> Blocked(Shifted(source, m, j), resolved, m)
    ensures n <= |resolved| ==> !Blocked(Shifted(source, m, n), resolved, m)
    decreases |resolved| + 1 - k
  {
    if k <= |resolved| && Blocked(Shifted(source, m, k), resolved, m) {
      RowDownStep(source.y, m, k);
      n := SettleStops(source, resolved, m, k + 1);
    } else {
      n := k;
    }
  }

  ghost predicate BlocksRow(other: Placement, source: Placement, m: Metrics, k: nat) {
    Collide(Shifted(source, m, k), other, m)
  }

  /** No tile above can block two of the rows tried. */
  ghost predicate BlocksOnce(other: Placement, source: Placement, m: Metrics) {
    forall i: nat, j: nat :: BlocksRow(other, source, m, i) && BlocksRow(other, source, m, j) ==> i == j
  }

  /** Different tiles, one for each of the first rows, that block them. */
  ghost predicate Blockers(used: seq<nat>, source: Placement, resolved: seq<Placement>, m: Metrics) {
    && (forall j :: 0 <= j < |used| ==> used[j] < |resolved| && BlocksRow(resolved[used[j]], source, m, j))
    && (forall i, j :: 0 <= i < j < |used| ==> used[i] != used[j])
  }

  lemma NextBlocker(used: seq<nat>, source: Placement, resolved: seq<Placement>, m: Metrics) returns (more: seq<nat>)
    requires source.parentId == None && Blockers(used, source, resolved, m)
    requires forall i :: 0 <= i < |resolved| ==> BlocksOnce(resolved[i], source, m)
    requires Blocked(Shifted(source, m, |used|), resolved, m)
    ensures Blockers(more, source, resolved, m) && |more| == |used| + 1
  {
    var b :| 0 <= b < |resolved| && resolved[b].parentId == None
      && Intersect(Shifted(source, m, |used|), resolved[b], m);
    IntersectIsOverlap(Shifted(source, m, |used|), resolved[b], m);
    assert BlocksRow(resolved[b], source, m, |used|);
    forall j | 0 <= j < |used| ensures used[j] != b {
      assert BlocksRow(resolved[used[j]], source, m, j);
    }
    more := used + [b];
  }

  /** Pigeonhole: n tiles that block a row each cannot block n + 1 rows. */
  lemma {:induction false} BlockersFit(source: Placement, resolved: seq<Placement>, m: Metrics, n: nat)
      returns (used: seq<nat>)
    requires source.parentId == None
    requires forall i :: 0 <= i < |resolved| ==> BlocksOnce(resolved[i], source, m)
    requires forall j: nat :: j < n ==> Blocked(Shifted(source, m, j), resolved, m)
    ensures Blockers(used, source, resolved, m) && |used| == n <= |resolved|
  {
    used := [];
    if n == 0 {
    } else {
      used := BlockersFit(source, resolved, m, n - 1);
      used := NextBlocker(used, source, resolved, m);
      DistinctFit(used, Range(|resolved|));
    }
  }

  ghost function Range(n: nat): (s: set<nat>)
    ensures |s| == n && forall i: nat :: i in s <==> i < n
  {
    if n == 0 then {} else Range(n - 1) + {n - 1}
  }

  lemma SettleFree(source: Placement, resolved: seq<Placement>, m: Metrics)
    requires source.parentId == None
    requires forall i :: 0 <= i < |resolved| ==> BlocksOnce(resolved[i], source, m)
    ensures !Blocked(Settle(source, resolved, m, 0), resolved, m)
  {
    assert Shifted(source, m, 0) == source;
    var n := SettleStops(source, resolved, m, 0);
    var used := BlockersFit(source, resolved, m, n);
  }

  // When nothing overlaps

  lemma RowsApart(m: Metrics, i: int, j: int)
    requires m.rowHeight > 0.0 && i < j
    ensures Rows(m, j) - Rows(m, i) >= m.rowHeight
  {
    RowsAdd(m, i, j - i);
    assert (j - i) as real >= 1.0;
    assert (j - i) as real * m.rowHeight >= 1.0 * m.rowHeight;
  }

  ghost predicate RowsOff(a: real, b: real, m: Metrics, k: int) {
    a - b == Rows(m, k)
  }

  /** Two tiles stand on one grid of rows. */
  ghost predicate SameGrid(a: real, b: real, m: Metrics) {
    exists k: int :: RowsOff(a, b, m, k)
  }

  /** What a pair of tiles needs so that one cannot block two rows of the other: rows twice
      as high as a tile, or rows as high as a tile and one grid for both. */
  ghost predicate PairFits(a: Placement, b: Placement, m: Metrics) {
    m.rowHeight > 0.0 && (2.0 * m.tileHeight <= m.rowHeight || (m.tileHeight <= m.rowHeight && SameGrid(a.y, b.y, m)))
  }

  lemma FittingBlocksOnce(other: Placement, source: Placement, m: Metrics)
    requires PairFits(other, source, m)
    ensures BlocksOnce(other, source, m)
  {
    forall i: nat, j: nat | BlocksRow(other, source, m, i) && BlocksRow(other, source, m, j) ensures i == j {
      if 2.0 * m.tileHeight <= m.rowHeight {
        if i < j {
          RowsApart(m, i, j);
        } else if j < i {
          RowsApart(m, j, i);
        }
      } else {
        var k: int :| RowsOff(other.y, source.y, m, k);
        GridHit(other, source, m, k, i);
        GridHit(other, source, m, k, j);
      }
    }
  }

  lemma GridHit(other: Placement, source: Placement, m: Metrics, k: int, i: nat)
    requires m.rowHeight > 0.0 && m.tileHeight <= m.rowHeight
    requires RowsOff(other.y, source.y, m, k) && BlocksRow(other, source, m, i)
    ensures k == i
  {
    if k < i {
      RowsApart(m, k, i);
    } else if i < k {
      RowsApart(m, i, k);
    }
  }

  ghost predicate NoOverlap(tiles: seq<Placement>, m: Metrics) {
    forall i, j :: 0 <= i < |tiles| && 0 <= j < |tiles| && i != j ==> !Collide(tiles[i], tiles[j], m)
  }

  ghost predicate AllFit(tiles: seq<Placement>, m: Metrics) {
    forall i, j :: 0 <= i < |tiles| && 0 <= j < |tiles| && tiles[i].parentId == tiles[j].parentId == None ==>
      PairFits(tiles[i], tiles[j], m)
  }

  /** Each resolved tile is its source some whole rows down; a framed tile does not move. */
  lemma {:induction false} ResolvedShifts(ordered: seq<Placement>, m: Metrics, i: nat) returns (k: nat)
    requires i < |ordered|
    ensures |ResolveInOrder(ordered, m)| == |ordered|
    ensures ResolveInOrder(ordered, m)[i] == Shifted(ordered[i], m, k)
    ensures ordered[i].parentId.Some? ==> k == 0
    decreases |ordered|
  {
    var n := |ordered| - 1;
    var source, earlier := ordered[n], ordered[..n];
    if n > 0 {
      var _ := ResolvedShifts(earlier, m, 0);
    }
    if i < n {
      k := ResolvedShifts(earlier, m, i);
    } else {
      k := 0;
      assert Shifted(source, m, 0) == source;
      if source.parentId == None {
        k := SettleStops(source, ResolveInOrder(earlier, m), m, 0);
      }
    }
  }

  lemma ShiftedFits(a: Placement, b: Placement, m: Metrics, k: nat)
    requires PairFits(a, b, m)
    ensures PairFits(Shifted(a, m, k), b, m)
  {
    if !(2.0 * m.tileHeight <= m.rowHeight) {
      var j: int :| RowsOff(a.y, b.y, m, j);
      RowsAdd(m, j, k);
      assert RowsOff(RowDown(a.y, m, k), b.y, m, j + k);
    }
  }

  /** Wherever the one is pushed to, it blocks at most one of the rows the other tries. */
  ghost predicate PairBlocksOnce(a: Placement, b: Placement, m: Metrics) {
    forall k: nat :: BlocksOnce(Shifted(a, m, k), b, m)
  }

  ghost predicate AllBlockOnce(tiles: seq<Placement>, m: Metrics) {
    forall a, b :: a in tiles && b in tiles && a.id != b.id && a.parentId == b.parentId == None ==>
      PairBlocksOnce(a, b, m)
  }

  lemma FitBlockOnce(tiles: seq<Placement>, m: Metrics)
    requires AllFit(tiles, m)
    ensures AllBlockOnce(tiles, m)
  {
    forall a, b | a in tiles && b in tiles && a.parentId == b.parentId == None ensures PairBlocksOnce(a, b, m) {
      assert PairFits(a, b, m);
      forall k: nat ensures BlocksOnce(Shifted(a, m, k), b, m) {
        ShiftedFits(a, b, m, k);
        FittingBlocksOnce(Shifted(a, m, k), b, m);
      }
    }
  }

  /** Tiles that block each other once at most are all resolved apart. */
  lemma {:induction false} ResolvedApart(ordered: seq<Placement>, m: Metrics)
    requires AllBlockOnce(ordered, m) && UniqueTiles(ordered)
    ensures |ResolveInOrder(ordered, m)| == |ordered| && NoOverlap(ResolveInOrder(ordered, m), m)
  {
    if ordered == [] {
    } else {
      var n := |ordered| - 1;
      var source, resolved := ordered[n], ResolveInOrder(ordered[..n], m);
      ResolvedApart(ordered[..n], m);
      if source.parentId == None {
        forall i | 0 <= i < |resolved| ensures BlocksOnce(resolved[i], source, m) {
          var k := ResolvedShifts(ordered[..n], m, i);
          if ordered[i].parentId == None {
            assert PairBlocksOnce(ordered[i], source, m);
          }
        }
        SettleFree(source, resolved, m);
      }
      var last := Place(source, resolved, m);
      assert forall i :: 0 <= i < n ==> !Collide(last, resolved[i], m);
    }
  }

  // The whole pass

  function Ordered(tiles: seq<Placement>, p: Priorities): seq<Placement>
    requires UniqueTiles(tiles)
  {
    var order := InputOrder(tiles);
    Sorting.Sort((a: Placement, b: Placement) => Before(p, order, a, b), tiles)
  }

  lemma BeforeIsOrder(p: Priorities, order: map<Id, nat>)
    ensures Sorting.StrictWeakOrder((a: Placement, b: Placement) => Before(p, order, a, b))
  {
  }

  lemma OrderedPermutes(tiles: seq<Placement>, p: Priorities)
    requires UniqueTiles(tiles)
    ensures multiset(Ordered(tiles, p)) == multiset(tiles) && |Ordered(tiles, p)| == |tiles|
    ensures Sorting.Distinct(Ordered(tiles, p))
    ensures forall i, j :: 0 <= i < j < |tiles| ==>
      !Before(p, InputOrder(tiles), Ordered(tiles, p)[j], Ordered(tiles, p)[i])
  {
    var order := InputOrder(tiles);
    var less := (a: Placement, b: Placement) => Before(p, order, a, b);
    BeforeIsOrder(p, order);
    Sorting.SortSorts(less, tiles);
    Sorting.DistinctPermutes(tiles, Ordered(tiles, p));
    var sorted := Ordered(tiles, p);
    forall i, j | 0 <= i < j < |tiles| ensures !Before(p, order, sorted[j], sorted[i]) {
      assert !less(sorted[j], sorted[i]);
    }
  }

  /** Different tiles of the input never tie. */
  lemma BeforeTotal(tiles: seq<Placement>, p: Priorities, a: Placement, b: Placement)
    requires UniqueTiles(tiles) && a in tiles && b in tiles && a.id != b.id
    ensures Before(p, InputOrder(tiles), a, b) || Before(p, InputOrder(tiles), b, a)
  {
    var i :| 0 <= i < |tiles| && tiles[i] == a;
    var j :| 0 <= j < |tiles| && tiles[j] == b;
    assert InputOrder(tiles)[a.id] == i && InputOrder(tiles)[b.id] == j;
  }

  /** What the pass returns: the resolved tiles, in input order. */
  ghost predicate Resolution(out: seq<Placement>, tiles: seq<Placement>, m: Metrics, p: Priorities)
    requires UniqueTiles(tiles)
  {
    && |out| == |tiles|
    && forall i :: 0 <= i < |tiles| ==> out[i].id == tiles[i].id && out[i] in ResolveInOrder(Ordered(tiles, p), m)
  }

  /** The tile at i came from one place of the priority order. */
  lemma ResolutionPlace(out: seq<Placement>, tiles: seq<Placement>, m: Metrics, p: Priorities, i: nat)
    returns (at: nat, k: nat)
    requires UniqueTiles(tiles) && Resolution(out, tiles, m, p) && i < |tiles|
    ensures at < |tiles| == |Ordered(tiles, p)| == |ResolveInOrder(Ordered(tiles, p), m)|
    ensures Ordered(tiles, p)[at] == tiles[i] && ResolveInOrder(Ordered(tiles, p), m)[at] == out[i]
    ensures out[i] == Shifted(tiles[i], m, k) && (tiles[i].parentId.Some? ==> k == 0)
  {
    var ordered := Ordered(tiles, p);
    var resolved := ResolveInOrder(ordered, m);
    OrderedPermutes(tiles, p);
    var _ := ResolvedShifts(ordered, m, 0);
    at :| 0 <= at < |resolved| && resolved[at] == out[i];
    k := ResolvedShifts(ordered, m, at);
    OrderedIsInput(tiles, p, at, i);
  }

  lemma OrderedIsInput(tiles: seq<Placement>, p: Priorities, at: nat, i: nat)
    requires UniqueTiles(tiles) && i < |tiles| && at < |Ordered(tiles, p)| && Ordered(tiles, p)[at].id == tiles[i].id
    ensures Ordered(tiles, p)[at] == tiles[i]
  {
    OrderedPermutes(tiles, p);
    assert Ordered(tiles, p)[at] in multiset(tiles);
    var j :| 0 <= j < |tiles| && tiles[j] == Ordered(tiles, p)[at];
  }

  /** Nothing but y moves, only downwards by whole rows, and framed tiles stay put. */
  lemma ResolutionOnlyMovesDown(out: seq<Placement>, tiles: seq<Placement>, m: Metrics, p: Priorities, i: nat)
    requires UniqueTiles(tiles) && Resolution(out, tiles, m, p) && i < |tiles|
    ensures exists k: nat :: out[i] == Shifted(tiles[i], m, k) && (tiles[i].parentId.Some? ==> k == 0)
  {
    var at, k := ResolutionPlace(out, tiles, m, p, i);
  }

  /** Tiles each of which can block at most one of another's rows end up apart. */
  lemma FittingTilesResolve(out: seq<Placement>, tiles: seq<Placement>, m: Metrics, p: Priorities)
    requires UniqueTiles(tiles) && Resolution(out, tiles, m, p) && AllBlockOnce(tiles, m)
    ensures NoOverlap(out, m)
  {
    var ordered := Ordered(tiles, p);
    OrderedPermutes(tiles, p);
    forall i | 0 <= i < |ordered| ensures ordered[i] in tiles {
      assert ordered[i] in multiset(tiles);
    }
    assert AllBlockOnce(ordered, m);
    ResolvedApart(ordered, m);
    forall i, j | 0 <= i < |out| && 0 <= j < |out| && i != j ensures !Collide(out[i], out[j], m) {
      var a, _ := ResolutionPlace(out, tiles, m, p, i);
      var b, _ := ResolutionPlace(out, tiles, m, p, j);
      assert a != b;
    }
  }

  /** The priority given for a tile, the least if none is. */
  function PriorityOf(p: Priorities, t: Placement): Priority {
    if t.id in p then p[t.id] else Priority(0, None)
  }

  /** Tile b has its way against tile i: by tier; of one tier, stamped against unstamped or by
      the newer stamp; and of equal stamps, or none, the earlier in the input. */
  ghost predicate Outranks(tiles: seq<Placement>, p: Priorities, b: nat, i: nat)
    requires b < |tiles| && i < |tiles|
  {
    var mine, other := PriorityOf(p, tiles[b]), PriorityOf(p, tiles[i]);
    || mine.tier > other.tier
    || (mine.tier == other.tier && mine.stamp.Some? && other.stamp.None?)
    || (mine.tier == other.tier && mine.stamp.Some? && other.stamp.Some?
        && CanvasRecords.Newer(mine.stamp.value, other.stamp.value))
    || (mine.tier == other.tier && mine.stamp == other.stamp && b < i)
  }

  lemma BeforeIsOutranks(tiles: seq<Placement>, p: Priorities, b: nat, i: nat)
    requires UniqueTiles(tiles) && b < |tiles| && i < |tiles|
    ensures Before(p, InputOrder(tiles), tiles[b], tiles[i]) <==> Outranks(tiles, p, b, i)
  {
    assert InputOrder(tiles)[tiles[b].id] == b && InputOrder(tiles)[tiles[i].id] == i;
    var s, t := StampOf(p, tiles[b]), StampOf(p, tiles[i]);
    if s.Some? && t.Some? {
      CanvasRecords.CompareTellsNewer(t.value, s.value);
    }
  }

  /** The j-th row down from tile i was taken by a tile that outranks it. */
  ghost predicate RowTaken(out: seq<Placement>, tiles: seq<Placement>, m: Metrics, p: Priorities, i: nat, j: nat)
    requires UniqueTiles(tiles) && |out| == |tiles| && i < |tiles|
  {
    exists b :: 0 <= b < |tiles| && Outranks(tiles, p, b, i) && BlocksRow(out[b], tiles[i], m, j)
  }

  /** A tile is pushed only past rows where it would overlap a tile that outranks it: higher
      tiers, then newer edits, then earlier input keep the point they ask for. */
  lemma PushedOnlyByPriority(out: seq<Placement>, tiles: seq<Placement>, m: Metrics, p: Priorities, i: nat)
      returns (k: nat)
    requires UniqueTiles(tiles) && Resolution(out, tiles, m, p) && i < |tiles|
    ensures out[i] == Shifted(tiles[i], m, k) && k <= |tiles|
    ensures forall j: nat :: j < k ==> RowTaken(out, tiles, m, p, i, j)
  {
    var ordered := Ordered(tiles, p);
    var at, _ := ResolutionPlace(out, tiles, m, p, i);
    var earlier := ResolveInOrder(ordered[..at], m);
    ResolvePrefix(ordered, m, at);
    k := 0;
    assert Shifted(tiles[i], m, 0) == tiles[i];
    if tiles[i].parentId == None {
      k := SettleStops(tiles[i], earlier, m, 0);
    }
    forall j: nat | j < k ensures RowTaken(out, tiles, m, p, i, j) {
      BlockedIsTaken(out, tiles, m, p, i, at, j);
    }
  }

  lemma BlockedIsTaken(out: seq<Placement>, tiles: seq<Placement>, m: Metrics, p: Priorities, i: nat, at: nat, j: nat)
    requires UniqueTiles(tiles) && Resolution(out, tiles, m, p) && i < |tiles| && tiles[i].parentId == None
    requires at < |Ordered(tiles, p)| && Ordered(tiles, p)[at] == tiles[i]
    requires Blocked(Shifted(tiles[i], m, j), ResolveInOrder(Ordered(tiles, p)[..at], m), m)
    ensures RowTaken(out, tiles, m, p, i, j)
  {
    var earlier := ResolveInOrder(Ordered(tiles, p)[..at], m);
    var c :| 0 <= c < |earlier| && earlier[c].parentId == None && Intersect(Shifted(tiles[i], m, j), earlier[c], m);
    var b := EarlierTile(out, tiles, m, p, i, at, c);
    IntersectIsOverlap(Shifted(tiles[i], m, j), earlier[c], m);
    assert BlocksRow(out[b], tiles[i], m, j);
  }

  /** What is resolved before tile i are tiles that outrank it. */
  lemma EarlierTile(out: seq<Placement>, tiles: seq<Placement>, m: Metrics, p: Priorities, i: nat, at: nat, c: nat)
    returns (b: nat)
    requires UniqueTiles(tiles) && Resolution(out, tiles, m, p) && i < |tiles|
    requires at < |Ordered(tiles, p)| && Ordered(tiles, p)[at] == tiles[i]
    requires c < |ResolveInOrder(Ordered(tiles, p)[..at], m)|
    ensures b < |tiles| && out[b] == ResolveInOrder(Ordered(tiles, p)[..at], m)[c]
    ensures Outranks(tiles, p, b, i)
  {
    ResolvePrefix(Ordered(tiles, p), m, at);
    OrderedPermutes(tiles, p);
    b := PlaceOf(out, tiles, m, p, c);
    assert tiles[b] != tiles[i];
    BeforeTotal(tiles, p, tiles[b], tiles[i]);
    BeforeIsOutranks(tiles, p, b, i);
  }

  lemma {:induction false} ResolvePrefix(ordered: seq<Placement>, m: Metrics, at: nat)
    requires at < |ordered|
    ensures |ResolveInOrder(ordered[..at], m)| == at && |ResolveInOrder(ordered, m)| == |ordered|
    ensures ResolveInOrder(ordered[..at], m) == ResolveInOrder(ordered, m)[..at]
    ensures ResolveInOrder(ordered, m)[at] == Place(ordered[at], ResolveInOrder(ordered[..at], m), m)
    decreases |ordered|
  {
    var n := |ordered| - 1;
    var _ := ResolvedShifts(ordered, m, 0);
    if at > 0 {
      var _ := ResolvedShifts(ordered[..at], m, 0);
    }
    if at < n {
      ResolvePrefix(ordered[..n], m, at);
      assert ordered[..n][..at] == ordered[..at];
    }
  }

  /** Where the c-th tile of the priority order went. */
  lemma PlaceOf(out: seq<Placement>, tiles: seq<Placement>, m: Metrics, p: Priorities, c: nat) returns (b: nat)
    requires UniqueTiles(tiles) && Resolution(out, tiles, m, p) && c < |tiles|
    ensures |Ordered(tiles, p)| == |ResolveInOrder(Ordered(tiles, p), m)| == |tiles|
    ensures b < |tiles| && Ordered(tiles, p)[c] == tiles[b] && ResolveInOrder(Ordered(tiles, p), m)[c] == out[b]
  {
    var ordered := Ordered(tiles, p);
    OrderedPermutes(tiles, p);
    assert ordered[c] in multiset(tiles);
    b :| 0 <= b < |tiles| && tiles[b] == ordered[c];
    var at, k := ResolutionPlace(out, tiles, m, p, b);
    assert at == c;
  }

  /** The inner loop: move down while blocked and tries are left. */
  method SettleTile(source: Placement, resolved: seq<Placement>, m: Metrics) returns (next: Placement)
    ensures next == Settle(source, resolved, m, 0)
  {
    next := source;
    var attempts := 0;
    while attempts <= |resolved| && Blocked(next, resolved, m)
      invariant Settle(next, resolved, m, attempts) == Settle(source, resolved, m, 0)
      decreases |resolved| + 1 - attempts
    {
      next := next.(y := next.y + m.rowHeight);
      attempts := attempts + 1;
    }
  }

  /** resolveDesktopTileCollisions */
  method ResolveDesktopTileCollisions(tiles: seq<Placement>, m: Metrics, p: Priorities) returns (out: seq<Placement>)
    requires UniqueTiles(tiles)
    ensures Resolution(out, tiles, m, p)
  {
    var ordered := Ordered(tiles, p);
    var resolved: seq<Placement> := [];
    for i := 0 to |ordered|
      invariant resolved == ResolveInOrder(ordered[..i], m)
    {
      var next := ordered[i];
      if next.parentId == None {
        next := SettleTile(next, resolved, m);
      }
      assert ordered[..i + 1][..i] == ordered[..i];
      resolved := resolved + [next];
    }
    assert ordered[..|ordered|] == ordered;
    ResolvedCovers(tiles, m, p);
    out := seq(|tiles|, i requires 0 <= i < |tiles| => TileWithId(resolved, tiles[i].id));
  }

  predicate HasTile(resolved: seq<Placement>, id: Id) {
    exists j :: 0 <= j < |resolved| && resolved[j].id == id
  }

  /** The lookup of a resolved tile by id. */
  function TileWithId(resolved: seq<Placement>, id: Id): (t: Placement)
    requires HasTile(resolved, id)
    ensures t in resolved && t.id == id
  {
    if resolved[0].id == id then resolved[0] else TileWithId(resolved[1..], id)
  }

  lemma ResolvedCovers(tiles: seq<Placement>, m: Metrics, p: Priorities)
    requires UniqueTiles(tiles)
    ensures var resolved := ResolveInOrder(Ordered(tiles, p), m);
            forall i :: 0 <= i < |tiles| ==> HasTile(resolved, tiles[i].id)
  {
    var ordered := Ordered(tiles, p);
    var resolved := ResolveInOrder(ordered, m);
    OrderedPermutes(tiles, p);
    forall i | 0 <= i < |tiles| ensures HasTile(resolved, tiles[i].id) {
      assert tiles[i] in multiset(ordered);
      var j :| 0 <= j < |ordered| && ordered[j] == tiles[i];
      var k := ResolvedShifts(ordered, m, j);
      assert j < |resolved| && resolved[j].id == tiles[i].id;
    }
  }

  // How tight the conditions on the metrics are

  lemma OrderedWithoutPriorities(tiles: seq<Placement>)
    requires UniqueTiles(tiles)
    ensures Ordered(tiles, map[]) == tiles
  {
    var order := InputOrder(tiles);
    var less := (a: Placement, b: Placement) => Before(map[], order, a, b);
    Sorting.SortFixed(less, tiles);
  }

  /** Tiles whose third is blocked at its first three rows gives up at the fourth. */
  lemma ResolveThree(a: Placement, b: Placement, c: Placement, m: Metrics)
    requires a.parentId == b.parentId == c.parentId == None
    requires var resolved := [a, Settle(b, [a], m, 0)];
             forall k: nat :: k < 3 ==> Blocked(Shifted(c, m, k), resolved, m)
    ensures ResolveInOrder([a, b, c], m) == [a, Settle(b, [a], m, 0), Shifted(c, m, 3)]
  {
    var resolved := [a, Settle(b, [a], m, 0)];
    assert Shifted(c, m, 0) == c;
    var n := SettleStops(c, resolved, m, 0);
    assert [a, b, c][..2] == [a, b] && [a, b][..1] == [a] && [a][..0] == [];
    assert ResolveInOrder([a], m) == [a];
    assert ResolveInOrder([a, b], m) == resolved;
  }

  /** So a fourth row blocked too is left overlapping. */
  lemma ThirdTileStuck(tiles: seq<Placement>, out: seq<Placement>, m: Metrics, j: nat)
    requires |tiles| == 3 && UniqueTiles(tiles) && Resolution(out, tiles, m, map[])
    requires forall i :: 0 <= i < 3 ==> tiles[i].parentId == None
    requires var resolved := [tiles[0], Settle(tiles[1], [tiles[0]], m, 0)];
             && (forall k: nat :: k < 3 ==> Blocked(Shifted(tiles[2], m, k), resolved, m))
             && j < 2 && resolved[j].parentId == None && resolved[j].id == tiles[j].id
             && Intersect(Shifted(tiles[2], m, 3), resolved[j], m)
    ensures !NoOverlap(out, m)
  {
    OrderedWithoutPriorities(tiles);
    assert tiles == [tiles[0], tiles[1], tiles[2]];
    ResolveThree(tiles[0], tiles[1], tiles[2], m);
    var at, _ := ResolutionPlace(out, tiles, m, map[], j);
    var last, _ := ResolutionPlace(out, tiles, m, map[], 2);
    IntersectIsOverlap(out[2], out[j], m);
    assert Collide(out[2], out[j], m);
  }

  function Stacked(ya: real, yb: real, yc: real): seq<Placement> {
    [Placement(0, 0.0, ya, None), Placement(1, 0.0, yb, None), Placement(2, 0.0, yc, None)]
  }

  lemma SecondGoesTwoDown(a: Placement, b: Placement, m: Metrics)
    requires m.tileWidth > 0.0 && 0.0 < m.rowHeight < m.tileHeight
    requires a.parentId == b.parentId == None && a.x == b.x && a.y == b.y
    ensures Settle(b, [a], m, 0) == Shifted(b, m, 2)
  {
    RowsAdd(m, 1, 1);
    RowsAdd(m, 0, 1);
    var b1 := b.(y := b.y + m.rowHeight);
    assert Intersect(b, [a][0], m) && Intersect(b1, [a][0], m);
    assert Settle(b1, [a], m, 1) == Settle(b1.(y := b1.y + m.rowHeight), [a], m, 2);
  }

  /** The first blocks the third's first two rows, the second the next two. */
  lemma ThirdBlocked(a: Placement, b: Placement, c: Placement, m: Metrics)
    requires m.tileWidth > 0.0 && 0.0 < m.rowHeight < m.tileHeight
    requires a.x == b.x == c.x && a.y == b.y == c.y && a.parentId == b.parentId == c.parentId == None
    ensures forall k: nat :: k < 3 ==> Blocked(Shifted(c, m, k), [a, Shifted(b, m, 2)], m)
    ensures Intersect(Shifted(c, m, 3), Shifted(b, m, 2), m)
  {
    RowsAdd(m, 1, 1);
    RowsAdd(m, 2, 1);
    RowsAdd(m, 0, 1);
    forall k: nat | k < 3 ensures Blocked(Shifted(c, m, k), [a, Shifted(b, m, 2)], m) {
      assert Intersect(Shifted(c, m, k), [a, Shifted(b, m, 2)][if k < 2 then 0 else 1], m);
    }
  }

  /** Rows lower than the tiles: three tiles dropped on one point cannot be told apart. */
  lemma LowRowsFail(m: Metrics, out: seq<Placement>)
    requires m.tileWidth > 0.0 && 0.0 < m.rowHeight < m.tileHeight
    requires Resolution(out, Stacked(0.0, 0.0, 0.0), m, map[])
    ensures !NoOverlap(out, m)
  {
    var tiles := Stacked(0.0, 0.0, 0.0);
    SecondGoesTwoDown(tiles[0], tiles[1], m);
    ThirdBlocked(tiles[0], tiles[1], tiles[2], m);
    ThirdTileStuck(tiles, out, m, 1);
  }

  /** Rows under twice as high as the tiles: two tiles half a row off the grid of a third
      block all the rows it tries. */
  lemma OffGridFails(m: Metrics, out: seq<Placement>)
    requires m.tileWidth > 0.0 && m.tileHeight <= m.rowHeight < 2.0 * m.tileHeight
    requires Resolution(out, Stacked(m.rowHeight / 2.0, m.rowHeight * 2.5, 0.0), m, map[])
    ensures !NoOverlap(out, m)
  {
    var tiles := Stacked(m.rowHeight / 2.0, m.rowHeight * 2.5, 0.0);
    RowsAdd(m, 1, 1);
    RowsAdd(m, 2, 1);
    RowsAdd(m, 0, 1);
    var a, b := tiles[0], tiles[1];
    assert !Blocked(b, [a], m);
    assert Settle(b, [a], m, 0) == b;
    forall k: nat | k < 3 ensures Blocked(Shifted(tiles[2], m, k), [a, b], m) {
      assert Intersect(Shifted(tiles[2], m, k), if k < 2 then a else b, m);
      assert [a, b][if k < 2 then 0 else 1] == if k < 2 then a else b;
    }
    ThirdTileStuck(tiles, out, m, 1);
  }

  ghost predicate OnGrid(tiles: seq<Placement>, m: Metrics) {
    forall i, j :: 0 <= i < |tiles| && 0 <= j < |tiles| && tiles[i].parentId == tiles[j].parentId == None ==>
      SameGrid(tiles[i].y, tiles[j].y, m)
  }

  ghost predicate AlwaysSeparates(m: Metrics) {
    forall tiles, p, out :: UniqueTiles(tiles) && Resolution(out, tiles, m, p) ==> NoOverlap(out, m)
  }

  ghost predicate SeparatesOnGrid(m: Metrics) {
    forall tiles, p, out :: UniqueTiles(tiles) && OnGrid(tiles, m) && Resolution(out, tiles, m, p) ==> NoOverlap(out, m)
  }

  lemma ResolutionExists(tiles: seq<Placement>, m: Metrics, p: Priorities) returns (out: seq<Placement>)
    requires UniqueTiles(tiles)
    ensures Resolution(out, tiles, m, p)
  {
    var resolved := ResolveInOrder(Ordered(tiles, p), m);
    ResolvedCovers(tiles, m, p);
    out := seq(|tiles|, i requires 0 <= i < |tiles| => TileWithId(resolved, tiles[i].id));
  }

  /** Desktops whose tiles stand on one grid of rows are always resolved apart exactly when
      a row is at least as high as a tile. */
  lemma GridMetrics(m: Metrics)
    requires m.tileWidth > 0.0 && m.rowHeight > 0.0
    ensures SeparatesOnGrid(m) <==> m.tileHeight <= m.rowHeight
  {
    if m.tileHeight <= m.rowHeight {
      forall tiles, p, out | UniqueTiles(tiles) && OnGrid(tiles, m) && Resolution(out, tiles, m, p)
        ensures NoOverlap(out, m)
      {
        FitBlockOnce(tiles, m);
        FittingTilesResolve(out, tiles, m, p);
      }
    } else {
      var tiles := Stacked(0.0, 0.0, 0.0);
      assert RowsOff(0.0, 0.0, m, 0);
      assert OnGrid(tiles, m);
      var out := ResolutionExists(tiles, m, map[]);
      LowRowsFail(m, out);
    }
  }

  /** Desktops with tiles anywhere are always resolved apart exactly when a row is at least
      twice as high as a tile. */
  lemma FreeMetrics(m: Metrics)
    requires m.tileWidth > 0.0 && m.rowHeight > 0.0
    ensures AlwaysSeparates(m) <==> 2.0 * m.tileHeight <= m.rowHeight
  {
    if 2.0 * m.tileHeight <= m.rowHeight {
      forall tiles, p, out | UniqueTiles(tiles) && Resolution(out, tiles, m, p) ensures NoOverlap(out, m) {
        FitBlockOnce(tiles, m);
        FittingTilesResolve(out, tiles, m, p);
      }
    } else if m.tileHeight <= m.rowHeight {
      var tiles := Stacked(m.rowHeight / 2.0, m.rowHeight * 2.5, 0.0);
      var out := ResolutionExists(tiles, m, map[]);
      OffGridFails(m, out);
    } else {
      var tiles := Stacked(0.0, 0.0, 0.0);
      var out := ResolutionExists(tiles, m, map[]);
      LowRowsFail(m, out);
    }
  }
}
