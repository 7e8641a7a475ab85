/** mergeCanvasRecords: the last-writer-wins map of canvas records each member keeps. */
module CanvasRecords {
  import opened Wrappers
  import opened FrameForest

  /** Actors are strings in the source; only their order matters. */
  datatype Stamp = Stamp(counter: int, actor: nat)

  datatype Kind = FrameRecord | ItemRecord | PreferenceRecord

  datatype Record = Record(id: Id, kind: Kind, value: Option<string>, stamp: Stamp, deleted: bool)

  type Store = map<Id, Record>

  function CompareStamp(a: Stamp, b: Stamp): int {
    if a.counter != b.counter then a.counter - b.counter else a.actor - b.actor
  }

  /** The later of two writes: the higher counter or, of equal counters, the higher actor. */
  ghost predicate Newer(a: Stamp, b: Stamp) {
    a.counter > b.counter || (a.counter == b.counter && a.actor > b.actor)
  }

  /** The sign of the comparison tells the later write, and zero only the same stamp. */
  lemma CompareTellsNewer(a: Stamp, b: Stamp)
    ensures (CompareStamp(a, b) > 0 <==> Newer(a, b)) && (CompareStamp(a, b) < 0 <==> Newer(b, a))
    ensures CompareStamp(a, b) == 0 <==> a == b
  {
  }

  /** held has, for every id seen, a record seen that none seen is newer than. */
  ghost predicate HoldsGreatest(held: Store, seen: set<Record>) {
    && (forall r :: r in seen ==> r.id in held && !Newer(r.stamp, held[r.id].stamp))
    && (forall x :: x in held ==> held[x] in seen && held[x].id == x)
  }

  /** Every entry of a is still there, or gave way to a newer one. */
  ghost predicate GivesWay(a: Store, b: Store) {
    forall x :: x in a ==> x in b && (b[x] == a[x] || Newer(b[x].stamp, a[x].stamp))
  }

  /** What merging some records into a store promises. */
  ghost predicate Merged(before: Store, incoming: set<Record>, after: Store) {
    HoldsGreatest(after, before.Values + incoming) && GivesWay(before, after)
  }

  ghost function Seen(records: seq<Record>): set<Record> {
    set r | r in records
  }

  ghost predicate UniqueRecords(records: seq<Record>) {
    forall i, j :: 0 <= i < j < |records| ==> records[i].id != records[j].id
  }

  ghost predicate WellKeyed(held: Store) {
    forall x :: x in held ==> held[x].id == x
  }

  /** The map a list of records spells, a later record of an id replacing an earlier. */
  ghost function StoreOf(records: seq<Record>): (held: Store)
    ensures WellKeyed(held)
  {
    if records == [] then map[]
    else StoreOf(records[..|records| - 1])[records[|records| - 1].id := records[|records| - 1]]
  }

  lemma {:induction false} StoreOfUnique(records: seq<Record>)
    requires UniqueRecords(records)
    ensures forall i :: 0 <= i < |records| ==>
      records[i].id in StoreOf(records) && StoreOf(records)[records[i].id] == records[i]
    ensures forall x :: x in StoreOf(records) ==> StoreOf(records)[x] in records
  {
    if records == [] {
    } else {
      StoreOfUnique(records[..|records| - 1]);
    }
  }

  /** A put into the lookup table; the source's map keeps a key where it first stood. */
  function Place(order: seq<Id>, byId: Store, next: Record): seq<Id> {
    if next.id in byId then order else order + [next.id]
  }

  /** The lookup table: ids in the order they were first put, and the record of each. */
  ghost predicate Table(order: seq<Id>, byId: Store) {
    && WellKeyed(byId) && Elements(order) == byId.Keys
    && (forall i, j :: 0 <= i < j < |order| ==> order[i] != order[j])
  }

  lemma TablePut(order: seq<Id>, byId: Store, next: Record)
    requires Table(order, byId)
    ensures Table(Place(order, byId, next), byId[next.id := next])
  {
    assert next.id in order <==> next.id in Elements(order);
    assert Elements(order + [next.id]) == Elements(order) + {next.id};
  }

  /** `new Map(current.map(...))` */
  method TableOf(current: seq<Record>) returns (order: seq<Id>, byId: Store)
    ensures Table(order, byId) && byId == StoreOf(current)
  {
    order, byId := [], map[];
    for k := 0 to |current|
      invariant Table(order, byId)
      invariant byId == StoreOf(current[..k])
    {
      assert current[..k + 1][..k] == current[..k];
      TablePut(order, byId, current[k]);
      order, byId := Place(order, byId, current[k]), byId[current[k].id := current[k]];
    }
    assert current[..|current|] == current;
  }

  /** `[...byId.values()]` */
  function Values(order: seq<Id>, byId: Store): seq<Record>
    requires Table(order, byId)
  {
    assert forall i :: 0 <= i < |order| ==> order[i] in Elements(order);
    seq(|order|, i requires 0 <= i < |order| => byId[order[i]])
  }

  lemma ValuesSpell(order: seq<Id>, byId: Store)
    requires Table(order, byId)
    ensures UniqueRecords(Values(order, byId)) && StoreOf(Values(order, byId)) == byId
  {
    var records := Values(order, byId);
    forall i | 0 <= i < |order| ensures order[i] in byId && records[i].id == order[i] {
      assert order[i] in Elements(order);
    }
    StoreOfUnique(records);
    forall x | x in byId ensures x in StoreOf(records) && StoreOf(records)[x] == byId[x] {
      assert x in Elements(order);
      var i :| 0 <= i < |order| && order[i] == x;
      assert records[i] == byId[x];
    }
    forall x | x in StoreOf(records) ensures x in byId {
      var i :| 0 <= i < |records| && records[i] == StoreOf(records)[x];
    }
  }

  lemma MergeStep(before: Store, seen: set<Record>, byId: Store, next: Record)
    requires HoldsGreatest(byId, seen) && GivesWay(before, byId)
    ensures if next.id !in byId || Newer(next.stamp, byId[next.id].stamp)
            then HoldsGreatest(byId[next.id := next], seen + {next}) && GivesWay(before, byId[next.id := next])
            else HoldsGreatest(byId, seen + {next})
  {
  }

  /** A put that wins changes the store, even against what it was long ago. */
  lemma WinnerChanges(before: Store, byId: Store, next: Record)
    requires GivesWay(before, byId)
    requires next.id !in byId || Newer(next.stamp, byId[next.id].stamp)
    ensures byId[next.id := next] != before
  {
  }

  /** The merge loop part of the way: the table is what merging the records seen gives. */
  ghost predicate Merging(held: Store, seen: set<Record>, order: seq<Id>, byId: Store, changed: bool) {
    && Table(order, byId) && HoldsGreatest(byId, seen) && GivesWay(held, byId)
    && (changed <==> byId != held)
  }

  lemma MergePut(held: Store, seen: set<Record>, order: seq<Id>, byId: Store, changed: bool, next: Record)
    requires Merging(held, seen, order, byId, changed)
    requires next.id !in byId || Newer(next.stamp, byId[next.id].stamp)
    ensures Merging(held, seen + {next}, Place(order, byId, next), byId[next.id := next], true)
  {
    MergeStep(held, seen, byId, next);
    WinnerChanges(held, byId, next);
    TablePut(order, byId, next);
  }

  lemma SeenStep(held: Store, incoming: seq<Record>, k: nat)
    requires k < |incoming|
    ensures held.Values + Seen(incoming[..k + 1]) == held.Values + Seen(incoming[..k]) + {incoming[k]}
  {
    assert incoming[..k + 1] == incoming[..k] + [incoming[k]];
  }

  /** mergeCanvasRecords */
  method MergeCanvasRecords(current: seq<Record>, incoming: seq<Record>) returns (records: seq<Record>, changed: bool)
    ensures UniqueRecords(records) && Merged(StoreOf(current), Seen(incoming), StoreOf(records))
    ensures changed <==> StoreOf(records) != StoreOf(current)
  {
    var order: seq<Id>, byId: Store := TableOf(current);
    changed := false;
    ghost var held := StoreOf(current);
    for k := 0 to |incoming|
      invariant Merging(held, held.Values + Seen(incoming[..k]), order, byId, changed)
    {
      var next := incoming[k];
      SeenStep(held, incoming, k);
      MergeStep(held, held.Values + Seen(incoming[..k]), byId, next);
      if next.id in byId {
        CompareTellsNewer(next.stamp, byId[next.id].stamp);
      }
      if next.id !in byId || CompareStamp(next.stamp, byId[next.id].stamp) > 0 {
        MergePut(held, held.Values + Seen(incoming[..k]), order, byId, changed, next);
        order, byId := Place(order, byId, next), byId[next.id := next];
        changed := true;
      }
    }
    assert incoming[..|incoming|] == incoming;
    ValuesSpell(order, byId);
    records := Values(order, byId);
  }

  /** hydrateCanvasRecords */
  method HydrateCanvasRecords(snapshot: seq<Record>, live: seq<Record>) returns (records: seq<Record>)
    ensures UniqueRecords(records) && Merged(StoreOf(snapshot), Seen(live), StoreOf(records))
  {
    var changed;
    records, changed := MergeCanvasRecords(snapshot, live);
  }

  // Convergence

  /** One record per id and stamp: no actor reuses a counter for another edit. */
  ghost predicate Consistent(seen: set<Record>) {
    forall r, s :: r in seen && s in seen && r.id == s.id && r.stamp == s.stamp ==> r == s
  }

  lemma GreatestUnique(a: Store, b: Store, seen: set<Record>)
    requires HoldsGreatest(a, seen) && HoldsGreatest(b, seen) && Consistent(seen)
    ensures a == b
  {
    forall x | x in a || x in b ensures x in a && x in b && a[x] == b[x] {
      if x in a {
        assert a[x] in seen;
      }
      if x in b {
        assert b[x] in seen;
      }
    }
  }

  ghost predicate BatchMerged(stores: seq<Store>, batches: seq<set<Record>>, k: nat)
    requires k < |batches| && |stores| == |batches| + 1
  {
    Merged(stores[k], batches[k], stores[k + 1])
  }

  /** The stores of one member over time: a start, then one merge per batch. */
  ghost predicate History(stores: seq<Store>, batches: seq<set<Record>>) {
    && |stores| == |batches| + 1 && WellKeyed(stores[0])
    && forall k :: 0 <= k < |batches| ==> BatchMerged(stores, batches, k)
  }

  /** All records of the start and the first n batches. */
  ghost function Delivered(start: Store, batches: seq<set<Record>>, n: nat): set<Record>
    requires n <= |batches|
  {
    start.Values + set k, r | 0 <= k < n && r in batches[k] :: r
  }

  /** After any run of merges a member holds the greatest record of everything delivered. */
  lemma {:induction false} HistoryHoldsGreatest(stores: seq<Store>, batches: seq<set<Record>>, n: nat)
    requires History(stores, batches) && n <= |batches|
    ensures HoldsGreatest(stores[n], Delivered(stores[0], batches, n))
  {
    if n == 0 {
      HistoryStart(stores[0], batches);
    } else {
      HistoryHoldsGreatest(stores, batches, n - 1);
      HistoryStep(stores, batches, n - 1);
    }
  }

  lemma HistoryStart(start: Store, batches: seq<set<Record>>)
    requires WellKeyed(start)
    ensures HoldsGreatest(start, Delivered(start, batches, 0))
  {
    assert Delivered(start, batches, 0) == start.Values;
  }

  lemma HistoryStep(stores: seq<Store>, batches: seq<set<Record>>, k: nat)
    requires History(stores, batches) && k < |batches|
    requires HoldsGreatest(stores[k], Delivered(stores[0], batches, k))
    ensures HoldsGreatest(stores[k + 1], Delivered(stores[0], batches, k + 1))
  {
    assert BatchMerged(stores, batches, k);
    GreatestOfGreatest(stores[k], Delivered(stores[0], batches, k), stores[k + 1], batches[k]);
    DeliveredStep(stores[0], batches, k);
  }

  lemma DeliveredStep(start: Store, batches: seq<set<Record>>, k: nat)
    requires k < |batches|
    ensures Delivered(start, batches, k + 1) == Delivered(start, batches, k) + batches[k]
  {
  }

  /** Merging what is held loses nothing of what was seen. */
  lemma GreatestOfGreatest(a: Store, seen: set<Record>, b: Store, more: set<Record>)
    requires HoldsGreatest(a, seen) && Merged(a, more, b)
    ensures HoldsGreatest(b, seen + more)
  {
    forall r | r in seen ensures r.id in b && !Newer(r.stamp, b[r.id].stamp) {
      assert a[r.id] in a.Values;
    }
    forall x | x in b ensures b[x] in seen + more {
      assert b[x] in a.Values + more;
    }
  }

  /** Strong convergence: members that were delivered the same records hold the same map,
      whatever the order, batching and repetition. */
  lemma MembersConverge(a: seq<Store>, batchesA: seq<set<Record>>, b: seq<Store>, batchesB: seq<set<Record>>)
    requires History(a, batchesA) && History(b, batchesB)
    requires Delivered(a[0], batchesA, |batchesA|) == Delivered(b[0], batchesB, |batchesB|)
    requires Consistent(Delivered(a[0], batchesA, |batchesA|))
    ensures a[|batchesA|] == b[|batchesB|]
  {
    HistoryHoldsGreatest(a, batchesA, |batchesA|);
    HistoryHoldsGreatest(b, batchesB, |batchesB|);
    GreatestUnique(a[|batchesA|], b[|batchesB|], Delivered(a[0], batchesA, |batchesA|));
  }

  /** Whether snapshot or listener came first does not matter exactly when the two never
      hold different records under one id and stamp. */
  lemma HydrationCommutes(snapshot: Store, live: Store, ab: Store, ba: Store)
    requires WellKeyed(snapshot) && WellKeyed(live)
    requires Merged(snapshot, live.Values, ab) && Merged(live, snapshot.Values, ba)
    ensures ab == ba <==> Consistent(snapshot.Values + live.Values)
  {
    var seen := snapshot.Values + live.Values;
    assert seen == live.Values + snapshot.Values;
    if Consistent(seen) {
      GreatestUnique(ab, ba, seen);
    } else {
      var x := Clash(snapshot, live);
      ClashKeepsEach(snapshot, live, ab, x);
      ClashKeepsEach(live, snapshot, ba, x);
    }
  }

  lemma Clash(a: Store, b: Store) returns (x: Id)
    requires WellKeyed(a) && WellKeyed(b) && !Consistent(a.Values + b.Values)
    ensures x in a && x in b && a[x] != b[x] && a[x].stamp == b[x].stamp
  {
    var seen := a.Values + b.Values;
    var r, s :| r in seen && s in seen && r.id == s.id && r.stamp == s.stamp && r != s;
    assert forall t :: t in a.Values ==> t.id in a && a[t.id] == t;
    assert forall t :: t in b.Values ==> t.id in b && b[t.id] == t;
    x := r.id;
  }

  /** On a clash of stamps the store merged into keeps its own record. */
  lemma ClashKeepsEach(before: Store, incoming: Store, after: Store, x: Id)
    requires WellKeyed(before) && WellKeyed(incoming) && Merged(before, incoming.Values, after)
    requires x in before && x in incoming && before[x].stamp == incoming[x].stamp
    ensures after[x] == before[x]
  {
    assert after[x] in before.Values + incoming.Values;
  }
}
