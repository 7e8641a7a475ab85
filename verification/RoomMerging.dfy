/** Two devices merging their duplicate private rooms over a network that reorders. */
module RoomMerging {
  import opened Wrappers
  import opened DirectRooms

  /** The two ends, and the host each room id names. */
  datatype Ends = Ends(x: DeviceId, y: DeviceId, anchor: RoomId -> Option<DeviceId>)

  datatype Net = Net(states: map<DeviceId, State>, inbox: map<DeviceId, multiset<Message>>)

  datatype Action =
    | OpenAt(device: DeviceId, minted: RoomId, title: string)
    | DeliverAt(device: DeviceId, message: Message)

  function Peer(ends: Ends, d: DeviceId): DeviceId {
    if d == ends.x then ends.y else ends.x
  }

  predicate IsEnd(ends: Ends, d: DeviceId) {
    d == ends.x || d == ends.y
  }

  /** Messages of an outbox that are addressed to one device. */
  function Posted(sent: seq<Envelope>, to: DeviceId): multiset<Message> {
    if sent == [] then multiset{}
    else (if to in sent[0].to then multiset{sent[0].message} else multiset{}) + Posted(sent[1..], to)
  }

  predicate WellFormed(ends: Ends, n: Net) {
    ends.x != ends.y && n.states.Keys == n.inbox.Keys == {ends.x, ends.y}
  }

  predicate Enabled(ends: Ends, n: Net, act: Action) {
    && WellFormed(ends, n) && IsEnd(ends, act.device)
    && (act.DeliverAt? ==> act.message in n.inbox[act.device])
  }

  /** What the acting end does with its own state, and sends. */
  function Local(ends: Ends, s: State, act: Action): (State, seq<Envelope>) {
    var dev, peer := Device(act.device, ends.anchor), Peer(ends, act.device);
    match act
    case OpenAt(_, minted, title) => Open(dev, s, peer, minted, title)
    case DeliverAt(_, message) => Receive(dev, s, peer, message)
  }

  /** The net after the acting end moved to `local` and posted some messages. */
  function Moved(ends: Ends, n: Net, act: Action, local: State, posted: multiset<Message>): Net
    requires Enabled(ends, n, act)
  {
    var d, peer := act.device, Peer(ends, act.device);
    var left := if act.DeliverAt? then n.inbox[d] - multiset{act.message} else n.inbox[d];
    Net(n.states[d := local], n.inbox[d := left][peer := n.inbox[peer] + posted])
  }

  /** One step: an end opens the room with its peer, or any message in flight arrives. */
  function Next(ends: Ends, n: Net, act: Action): Net
    requires Enabled(ends, n, act)
  {
    var (after, sent) := Local(ends, n.states[act.device], act);
    Moved(ends, n, act, after, Posted(sent, Peer(ends, act.device)))
  }

  ghost function Held(ends: Ends, n: Net, d: DeviceId): set<RoomId>
    requires WellFormed(ends, n) && IsEnd(ends, d)
  {
    DirectIds(Device(d, ends.anchor), n.states[d].rooms, Peer(ends, d))
  }

  ghost function Elsewhere(ends: Ends, n: Net, d: DeviceId): seq<Room>
    requires WellFormed(ends, n) && IsEnd(ends, d)
  {
    NonDirect(Device(d, ends.anchor), n.states[d].rooms, Peer(ends, d))
  }

  /** Every message in flight is about the least room of the shared set. */
  ghost predicate Proper(a: DeviceId, b: DeviceId, shared: set<RoomId>, least: RoomId, m: Message) {
    && ExactPair(m.members, a, b)
    && (m.Invite? ==> m.room == least)
    && (m.Merge? ==> m.into == least && m.room in shared && m.room != least)
  }

  ghost predicate HasMerge(messages: multiset<Message>) {
    exists m :: m in messages && m.Merge?
  }

  ghost function ProperMessages(ends: Ends, shared: set<RoomId>, least: RoomId): iset<Message> {
    iset m | Proper(ends.x, ends.y, shared, least, m)
  }

  ghost predicate MergeWaits(n: Net, d: DeviceId) {
    d in n.inbox && HasMerge(n.inbox[d])
  }

  /** What holds of one end. */
  ghost predicate EndOk(ends: Ends, shared: set<RoomId>, least: RoomId, good: iset<Message>, n: Net, d: DeviceId)
    requires WellFormed(ends, n) && IsEnd(ends, d)
  {
    && UniqueRooms(n.states[d].rooms)
    && (Held(ends, n, d) == shared || Held(ends, n, d) == {least})
    && (forall m :: m in n.inbox[d] ==> m in good)
    && (MergeWaits(n, d) ==> Held(ends, n, Peer(ends, d)) == {least})
    && (Held(ends, n, d) == {least} && shared != {least} ==>
          Held(ends, n, Peer(ends, d)) == {least} || MergeWaits(n, Peer(ends, d)))
  }

  ghost predicate Inv(ends: Ends, shared: set<RoomId>, least: RoomId, good: iset<Message>, n: Net, begun: bool) {
    && WellFormed(ends, n) && IsLeast(least, shared)
    && EndOk(ends, shared, least, good, n, ends.x) && EndOk(ends, shared, least, good, n, ends.y)
    && (begun ==> Held(ends, n, ends.x) == {least} || Held(ends, n, ends.y) == {least})
  }

  // One step at one end

  lemma {:induction false} PostedConcat(a: seq<Envelope>, b: seq<Envelope>, to: DeviceId)
    ensures Posted(a + b, to) == Posted(a, to) + Posted(b, to)
  {
    if a == [] {
      assert a + b == b;
    } else {
      assert (a + b)[1..] == a[1..] + b;
      PostedConcat(a[1..], b, to);
    }
  }

  lemma {:induction false} PostedMember(sent: seq<Envelope>, to: DeviceId, m: Message)
    ensures m in Posted(sent, to) <==> exists i :: 0 <= i < |sent| && to in sent[i].to && sent[i].message == m
  {
    if sent == [] {
    } else {
      PostedMember(sent[1..], to, m);
      if m in Posted(sent[1..], to) {
        var i :| 0 <= i < |sent[1..]| && to in sent[1..][i].to && sent[1..][i].message == m;
        assert to in sent[i + 1].to && sent[i + 1].message == m;
      }
      if i :| 0 <= i < |sent| && to in sent[i].to && sent[i].message == m && i > 0 {
        assert sent[1..][i - 1] == sent[i];
      }
    }
  }

  lemma ExactPairSymmetric(members: seq<DeviceId>, a: DeviceId, b: DeviceId)
    requires a != b
    ensures ExactPair(members, a, b) <==> ExactPair(members, b, a)
    ensures ExactPair(members, a, b) ==> forall d :: d in members <==> d == a || d == b
  {
    if ExactPair(members, a, b) {
      var s := MemberSet(members);
      var rest := s - {a} - {b};
      assert |rest| == 0;
      forall d | d in members ensures d == a || d == b {
        assert d in s && d !in rest;
      }
    }
  }

  /** The end that took a step: one room set before, one after, rooms elsewhere untouched. */
  ghost predicate LocalEffect(dev: Device, s: State, after: State, peer: DeviceId, ids: set<RoomId>) {
    && UniqueRooms(after.rooms) && DirectIds(dev, after.rooms, peer) == ids
    && NonDirect(dev, after.rooms, peer) == NonDirect(dev, s.rooms, peer)
  }

  /** What opening sends: every other direct room named as merged into the least. */
  lemma NoticesProper(dev: Device, direct: seq<Room>, peer: DeviceId, shared: set<RoomId>, least: RoomId)
    requires direct != [] && direct[0].id == least
    requires forall i :: 0 <= i < |direct| ==> IsDirect(dev, direct[i], peer) && direct[i].id in shared
    requires forall i, j :: 0 <= i < j < |direct| ==> direct[i].id < direct[j].id
    ensures forall m :: m in Posted(MergeNotices(direct[1..], direct[0], peer), peer) ==>
      Proper(dev.me, peer, shared, least, m)
    ensures |direct| > 1 ==> HasMerge(Posted(MergeNotices(direct[1..], direct[0], peer), peer))
  {
    var sent := MergeNotices(direct[1..], direct[0], peer);
    forall m | m in Posted(sent, peer) ensures Proper(dev.me, peer, shared, least, m) {
      PostedMember(sent, peer, m);
      var i :| 0 <= i < |sent| && peer in sent[i].to && sent[i].message == m;
      assert direct[1..][i] == direct[i + 1];
    }
    if |direct| > 1 {
      PostedMember(sent, peer, sent[0].message);
      assert peer in sent[0].to && sent[0].message.Merge?;
    }
  }

  lemma RestatementProper(dev: Device, keep: Room, peer: DeviceId, shared: set<RoomId>, least: RoomId)
    requires keep.id == least && IsDirect(dev, keep, peer)
    ensures forall m :: m in Posted(Broadcast(dev, keep), peer) ==>
      Proper(dev.me, peer, shared, least, m) && m.Invite?
  {
    forall m | m in Posted(Broadcast(dev, keep), peer) ensures m == InviteTo(keep) {
      PostedMember(Broadcast(dev, keep), peer, m);
    }
  }

  lemma OpenEffect(dev: Device, s: State, peer: DeviceId, minted: RoomId, title: string, shared: set<RoomId>,
      least: RoomId)
    requires UniqueRooms(s.rooms) && dev.me != peer && IsLeast(least, shared)
    requires DirectIds(dev, s.rooms, peer) == shared || DirectIds(dev, s.rooms, peer) == {least}
    ensures LocalEffect(dev, s, Open(dev, s, peer, minted, title).0, peer, {least})
  {
    OpenKeepsLeast(dev, s, peer, minted, title);
  }

  lemma OpenSends(dev: Device, s: State, peer: DeviceId, minted: RoomId, title: string, shared: set<RoomId>,
      least: RoomId)
    requires UniqueRooms(s.rooms) && dev.me != peer && IsLeast(least, shared)
    requires DirectIds(dev, s.rooms, peer) == shared || DirectIds(dev, s.rooms, peer) == {least}
    ensures var posted := Posted(Open(dev, s, peer, minted, title).1, peer);
            && (forall m :: m in posted ==> Proper(dev.me, peer, shared, least, m))
            && (DirectIds(dev, s.rooms, peer) != {least} ==> HasMerge(posted))
  {
    OpenKeepsLeast(dev, s, peer, minted, title);
    var direct := SortedDirect(dev, s, peer);
    SortedInShared(dev, s, peer, shared);
    var notices, restated := MergeNotices(direct[1..], direct[0], peer), Broadcast(dev, direct[0]);
    NoticesProper(dev, direct, peer, shared, least);
    RestatementProper(dev, direct[0], peer, shared, least);
    PostedConcat(notices, restated, peer);
    PostedConcat(notices, [], peer);
    UnionMembers(Posted(notices, peer), Posted(restated, peer));
  }

  lemma SortedInShared(dev: Device, s: State, peer: DeviceId, shared: set<RoomId>)
    requires UniqueRooms(s.rooms) && DirectIds(dev, s.rooms, peer) <= shared
    ensures var direct := SortedDirect(dev, s, peer);
            && (forall i :: 0 <= i < |direct| ==> IsDirect(dev, direct[i], peer) && direct[i].id in shared)
            && (forall i, j :: 0 <= i < j < |direct| ==> direct[i].id < direct[j].id)
            && (|direct| == 1 ==> DirectIds(dev, s.rooms, peer) == {direct[0].id})
  {
    DirectRoomsSorted(dev, s, peer);
    var direct := SortedDirect(dev, s, peer);
    forall i | 0 <= i < |direct| ensures IsDirect(dev, direct[i], peer) && direct[i].id in shared {
      assert direct[i] in direct && direct[i].id in RoomIds(direct);
    }
    if |direct| == 1 {
      assert RoomIds(direct) == {direct[0].id};
    }
  }

  lemma MergeEffect(dev: Device, s: State, peer: DeviceId, m: Message, shared: set<RoomId>, least: RoomId)
    requires m.Merge? && Proper(dev.me, peer, shared, least, m)
    requires UniqueRooms(s.rooms) && dev.me != peer && IsLeast(least, shared)
    requires DirectIds(dev, s.rooms, peer) == shared || DirectIds(dev, s.rooms, peer) == {least}
    ensures var (after, sent) := Receive(dev, s, peer, m);
            && LocalEffect(dev, s, after, peer, {least})
            && (forall r :: r in Posted(sent, peer) ==> Proper(dev.me, peer, shared, least, r) && r.Invite?)
  {
    var known := DirectIds(dev, s.rooms, peer);
    var r :| r in s.rooms && IsDirect(dev, r, peer) && r.id == least;
    SameRoom(s.rooms, r, Find(s.rooms, m.into).value);
    var target := MergeTarget(dev, s, peer, m).value;
    MergeLeavesTarget(dev, s, peer, m);
    DedupKeepsPair(m.members, dev.me, peer);
    var kept := Room(m.into, NameOr(m.name, target.name), Dedup(m.members), target.owner,
                     if m.access.Some? then m.access else target.access);
    RestatementProper(dev, kept, peer, shared, least);
  }

  lemma InviteEffect(dev: Device, s: State, peer: DeviceId, m: Message, shared: set<RoomId>, least: RoomId)
    requires m.Invite? && Proper(dev.me, peer, shared, least, m)
    requires UniqueRooms(s.rooms) && dev.me != peer && least in DirectIds(dev, s.rooms, peer)
    ensures LocalEffect(dev, s, Receive(dev, s, peer, m).0, peer, DirectIds(dev, s.rooms, peer))
  {
    var r :| r in s.rooms && IsDirect(dev, r, peer) && r.id == least;
    var existing := Find(s.rooms, m.room).value;
    SameRoom(s.rooms, r, existing);
    var after := Receive(dev, s, peer, m).0;
    if after != s {
      ExactPairSymmetric(m.members, dev.me, peer);
      DedupKeepsPair(m.members, dev.me, peer);
      var kept := Room(m.room, NameOr(m.name, existing.name), Dedup(m.members),
        if existing.owner.Some? then existing.owner else Some(peer),
        if m.access.Some? then m.access else existing.access);
      assert after.rooms == Replace(s.rooms, kept);
      ReplaceDirect(dev, s.rooms, peer, kept, existing);
    }
  }

  lemma ReplaceDirect(dev: Device, rooms: seq<Room>, peer: DeviceId, kept: Room, existing: Room)
    requires UniqueRooms(rooms) && existing in rooms && existing.id == kept.id
    requires IsDirect(dev, kept, peer) && IsDirect(dev, existing, peer)
    ensures var after := Replace(rooms, kept);
            && UniqueRooms(after) && DirectIds(dev, after, peer) == DirectIds(dev, rooms, peer)
            && NonDirect(dev, after, peer) == NonDirect(dev, rooms, peer)
  {
    ReplaceMembers(rooms, kept);
    forall r | r in rooms && r.id == kept.id ensures IsDirect(dev, r, peer) {
      SameRoom(rooms, r, existing);
    }
    ReplaceKeepsNonDirect(dev, rooms, peer, kept);
    var after := Replace(rooms, kept);
    assert kept in after;
    forall id | id in DirectIds(dev, rooms, peer) ensures id in DirectIds(dev, after, peer) {
      var r :| r in rooms && IsDirect(dev, r, peer) && r.id == id;
      assert r.id != kept.id ==> r in after;
    }
  }

  // Every run

  /** What one step does to the end that takes it. */
  ghost predicate StateEffect(ends: Ends, least: RoomId, n: Net, after: Net, act: Action)
    requires Enabled(ends, n, act) && WellFormed(ends, after)
  {
    var d, peer := act.device, Peer(ends, act.device);
    && UniqueRooms(after.states[d].rooms) && after.states[peer] == n.states[peer]
    && Elsewhere(ends, after, d) == Elsewhere(ends, n, d)
    && (act.OpenAt? ==> Held(ends, after, d) == {least})
    && (Held(ends, after, d) == {least} || Held(ends, after, d) == Held(ends, n, d))
  }

  /** What it does to the messages in flight. */
  ghost predicate InboxEffect(ends: Ends, least: RoomId, good: iset<Message>, n: Net, after: Net, act: Action)
    requires Enabled(ends, n, act) && WellFormed(ends, after)
  {
    var d, peer := act.device, Peer(ends, act.device);
    && (forall m :: m in after.inbox[d] ==> m in n.inbox[d])
    && (forall m :: m in after.inbox[peer] ==> m in n.inbox[peer] || m in good)
    && (MergeWaits(n, peer) ==> MergeWaits(after, peer))
    && (MergeWaits(after, peer) ==> MergeWaits(n, peer) || act.OpenAt?)
    && (Held(ends, after, d) != {least} && MergeWaits(n, d) ==> MergeWaits(after, d))
    && (Held(ends, after, d) == {least} != Held(ends, n, d) ==> MergeWaits(n, d) || MergeWaits(after, peer))
  }

  ghost predicate StepEffect(ends: Ends, least: RoomId, good: iset<Message>, n: Net, after: Net, act: Action)
    requires Enabled(ends, n, act) && WellFormed(ends, after)
  {
    StateEffect(ends, least, n, after, act) && InboxEffect(ends, least, good, n, after, act)
  }

  lemma UnionMembers(a: multiset<Message>, b: multiset<Message>)
    ensures forall m :: m in a + b <==> m in a || m in b
    ensures HasMerge(a + b) <==> HasMerge(a) || HasMerge(b)
  {
    if HasMerge(a) {
      var m :| m in a && m.Merge?;
      assert m in a + b;
    }
    if HasMerge(b) {
      var m :| m in b && m.Merge?;
      assert m in a + b;
    }
  }

  lemma WithoutMembers(a: multiset<Message>, taken: Message)
    ensures forall m :: m in a - multiset{taken} ==> m in a
    ensures taken.Invite? && HasMerge(a) ==> HasMerge(a - multiset{taken})
  {
    if taken.Invite? && HasMerge(a) {
      var m :| m in a && m.Merge?;
      assert m in a - multiset{taken};
    }
  }

  lemma MovedWellFormed(ends: Ends, n: Net, act: Action, local: State, posted: multiset<Message>)
    requires Enabled(ends, n, act)
    ensures WellFormed(ends, Moved(ends, n, act, local, posted))
  {
    var d, peer := act.device, Peer(ends, act.device);
    assert d in n.states && d in n.inbox && peer in n.inbox;
  }

  lemma MovedViews(ends: Ends, n: Net, act: Action, local: State, posted: multiset<Message>)
    requires Enabled(ends, n, act)
    ensures var after, d, peer := Moved(ends, n, act, local, posted), act.device, Peer(ends, act.device);
            && WellFormed(ends, after) && after.states[d] == local && after.states[peer] == n.states[peer]
            && Held(ends, after, d) == DirectIds(Device(d, ends.anchor), local.rooms, peer)
            && Elsewhere(ends, after, d) == NonDirect(Device(d, ends.anchor), local.rooms, peer)
  {
    MovedWellFormed(ends, n, act, local, posted);
  }

  lemma MovedState(ends: Ends, least: RoomId, n: Net, act: Action, local: State, posted: multiset<Message>,
      ids: set<RoomId>)
    requires Enabled(ends, n, act)
    requires LocalEffect(Device(act.device, ends.anchor), n.states[act.device], local, Peer(ends, act.device), ids)
    requires ids == {least} || (ids == Held(ends, n, act.device) && act.DeliverAt?)
    ensures var after := Moved(ends, n, act, local, posted);
            && WellFormed(ends, after) && StateEffect(ends, least, n, after, act)
            && Held(ends, after, act.device) == ids
  {
    MovedViews(ends, n, act, local, posted);
  }

  lemma ProperAtEnd(ends: Ends, d: DeviceId, shared: set<RoomId>, least: RoomId)
    requires IsEnd(ends, d)
    ensures forall m :: Proper(d, Peer(ends, d), shared, least, m) <==> Proper(ends.x, ends.y, shared, least, m)
  {
  }

  lemma MovedTaker(ends: Ends, n: Net, act: Action, local: State, posted: multiset<Message>)
    requires Enabled(ends, n, act)
    ensures var after := Moved(ends, n, act, local, posted);
            && (forall m :: m in after.inbox[act.device] ==> m in n.inbox[act.device])
            && (MergeWaits(n, act.device) && !(act.DeliverAt? && act.message.Merge?) ==> MergeWaits(after, act.device))
  {
    if act.DeliverAt? {
      WithoutMembers(n.inbox[act.device], act.message);
    }
  }

  lemma MovedPeer(ends: Ends, n: Net, act: Action, local: State, posted: multiset<Message>)
    requires Enabled(ends, n, act)
    ensures var after, peer := Moved(ends, n, act, local, posted), Peer(ends, act.device);
            && (forall m :: m in after.inbox[peer] ==> m in n.inbox[peer] || m in posted)
            && (MergeWaits(after, peer) <==> MergeWaits(n, peer) || HasMerge(posted))
  {
    UnionMembers(n.inbox[Peer(ends, act.device)], posted);
  }

  lemma MovedInbox(ends: Ends, least: RoomId, good: iset<Message>, n: Net, act: Action, local: State,
      posted: multiset<Message>)
    requires Enabled(ends, n, act)
    requires WellFormed(ends, Moved(ends, n, act, local, posted))
    requires forall m :: m in posted ==> m in good
    requires HasMerge(posted) ==> act.OpenAt?
    requires var ids := Held(ends, Moved(ends, n, act, local, posted), act.device);
             && (ids != {least} ==> act.DeliverAt? && act.message.Invite?)
             && (ids == {least} != Held(ends, n, act.device) ==> MergeWaits(n, act.device) || HasMerge(posted))
    ensures InboxEffect(ends, least, good, n, Moved(ends, n, act, local, posted), act)
  {
    MovedTaker(ends, n, act, local, posted);
    MovedPeer(ends, n, act, local, posted);
  }

  lemma OpenStep(ends: Ends, shared: set<RoomId>, least: RoomId, good: iset<Message>, n: Net, act: Action)
    requires Enabled(ends, n, act) && act.OpenAt? && IsLeast(least, shared)
    requires EndOk(ends, shared, least, good, n, act.device)
    requires good == ProperMessages(ends, shared, least)
    ensures WellFormed(ends, Next(ends, n, act)) && StepEffect(ends, least, good, n, Next(ends, n, act), act)
  {
    var d, peer := act.device, Peer(ends, act.device);
    ProperAtEnd(ends, d, shared, least);
    OpenEffect(Device(d, ends.anchor), n.states[d], peer, act.minted, act.title, shared, least);
    OpenSends(Device(d, ends.anchor), n.states[d], peer, act.minted, act.title, shared, least);
    var (local, sent) := Local(ends, n.states[d], act);
    MovedState(ends, least, n, act, local, Posted(sent, peer), {least});
    MovedInbox(ends, least, good, n, act, local, Posted(sent, peer));
  }

  lemma MergeStep(ends: Ends, shared: set<RoomId>, least: RoomId, good: iset<Message>, n: Net, act: Action)
    requires Enabled(ends, n, act) && act.DeliverAt? && act.message.Merge? && IsLeast(least, shared)
    requires EndOk(ends, shared, least, good, n, act.device)
    requires good == ProperMessages(ends, shared, least)
    ensures WellFormed(ends, Next(ends, n, act)) && StepEffect(ends, least, good, n, Next(ends, n, act), act)
  {
    var d, peer := act.device, Peer(ends, act.device);
    ProperAtEnd(ends, d, shared, least);
    MergeEffect(Device(d, ends.anchor), n.states[d], peer, act.message, shared, least);
    var (local, sent) := Local(ends, n.states[d], act);
    MovedState(ends, least, n, act, local, Posted(sent, peer), {least});
    MovedInbox(ends, least, good, n, act, local, Posted(sent, peer));
  }

  lemma InviteStep(ends: Ends, shared: set<RoomId>, least: RoomId, good: iset<Message>, n: Net, act: Action)
    requires Enabled(ends, n, act) && act.DeliverAt? && act.message.Invite? && IsLeast(least, shared)
    requires EndOk(ends, shared, least, good, n, act.device)
    requires good == ProperMessages(ends, shared, least)
    ensures WellFormed(ends, Next(ends, n, act)) && StepEffect(ends, least, good, n, Next(ends, n, act), act)
  {
    var d, peer := act.device, Peer(ends, act.device);
    ProperAtEnd(ends, d, shared, least);
    InviteEffect(Device(d, ends.anchor), n.states[d], peer, act.message, shared, least);
    var (local, sent) := Local(ends, n.states[d], act);
    MovedState(ends, least, n, act, local, Posted(sent, peer), Held(ends, n, d));
    MovedInbox(ends, least, good, n, act, local, Posted(sent, peer));
  }

  /** The invariant survives what a step does. */
  lemma EffectKeepsInv(ends: Ends, shared: set<RoomId>, least: RoomId, good: iset<Message>, n: Net, after: Net,
      act: Action, begun: bool)
    requires Inv(ends, shared, least, good, n, begun) && Enabled(ends, n, act)
    requires WellFormed(ends, after) && StepEffect(ends, least, good, n, after, act)
    ensures Inv(ends, shared, least, good, after, begun || act.OpenAt?)
  {
    var d, peer := act.device, Peer(ends, act.device);
    assert EndOk(ends, shared, least, good, n, d) && EndOk(ends, shared, least, good, n, peer);
    assert Held(ends, after, peer) == Held(ends, n, peer);
    EffectKeepsActor(ends, shared, least, good, n, after, act);
    EffectKeepsPeer(ends, shared, least, good, n, after, act);
  }

  lemma EffectKeepsActor(ends: Ends, shared: set<RoomId>, least: RoomId, good: iset<Message>, n: Net, after: Net,
      act: Action)
    requires Enabled(ends, n, act) && IsLeast(least, shared)
    requires EndOk(ends, shared, least, good, n, act.device)
      && EndOk(ends, shared, least, good, n, Peer(ends, act.device))
    requires WellFormed(ends, after) && StepEffect(ends, least, good, n, after, act)
    ensures EndOk(ends, shared, least, good, after, act.device)
  {
    var d, peer := act.device, Peer(ends, act.device);
    assert Held(ends, after, peer) == Held(ends, n, peer);
    if MergeWaits(after, d) {
      assert MergeWaits(n, d);
    }
  }

  lemma EffectKeepsPeer(ends: Ends, shared: set<RoomId>, least: RoomId, good: iset<Message>, n: Net, after: Net,
      act: Action)
    requires Enabled(ends, n, act) && IsLeast(least, shared)
    requires EndOk(ends, shared, least, good, n, act.device)
      && EndOk(ends, shared, least, good, n, Peer(ends, act.device))
    requires WellFormed(ends, after) && StepEffect(ends, least, good, n, after, act)
    ensures EndOk(ends, shared, least, good, after, Peer(ends, act.device))
  {
    var d, peer := act.device, Peer(ends, act.device);
    assert Peer(ends, peer) == d;
    assert Held(ends, after, peer) == Held(ends, n, peer);
  }

  lemma StepKeepsInv(ends: Ends, shared: set<RoomId>, least: RoomId, good: iset<Message>, n: Net, act: Action,
      begun: bool)
    requires Inv(ends, shared, least, good, n, begun) && Enabled(ends, n, act)
    requires good == ProperMessages(ends, shared, least)
    ensures WellFormed(ends, Next(ends, n, act))
    ensures StepEffect(ends, least, good, n, Next(ends, n, act), act)
    ensures Inv(ends, shared, least, good, Next(ends, n, act), begun || act.OpenAt?)
  {
    assert EndOk(ends, shared, least, good, n, act.device);
    if act.OpenAt? {
      OpenStep(ends, shared, least, good, n, act);
    } else if act.message.Merge? {
      MergeStep(ends, shared, least, good, n, act);
    } else {
      InviteStep(ends, shared, least, good, n, act);
    }
    EffectKeepsInv(ends, shared, least, good, n, Next(ends, n, act), act, begun);
  }

  /** A run: the actions taken in order lead from one net to the other. */
  ghost predicate Runs(ends: Ends, n: Net, acts: seq<Action>, end: Net)
    decreases |acts|
  {
    if acts == [] then end == n
    else Enabled(ends, n, acts[0]) && Runs(ends, Next(ends, n, acts[0]), acts[1..], end)
  }

  ghost predicate SharedStart(ends: Ends, shared: set<RoomId>, n: Net) {
    && WellFormed(ends, n) && n.inbox[ends.x] == n.inbox[ends.y] == multiset{}
    && UniqueRooms(n.states[ends.x].rooms) && UniqueRooms(n.states[ends.y].rooms)
    && Held(ends, n, ends.x) == Held(ends, n, ends.y) == shared
  }

  predicate Opened(acts: seq<Action>) {
    exists act :: act in acts && act.OpenAt?
  }

  lemma OpenedFirst(acts: seq<Action>)
    requires acts != []
    ensures Opened(acts) <==> acts[0].OpenAt? || Opened(acts[1..])
  {
    assert acts == [acts[0]] + acts[1..];
  }

  ghost predicate SameElsewhere(ends: Ends, a: Net, b: Net)
    requires WellFormed(ends, a) && WellFormed(ends, b)
  {
    Elsewhere(ends, a, ends.x) == Elsewhere(ends, b, ends.x) && Elsewhere(ends, a, ends.y) == Elsewhere(ends, b, ends.y)
  }

  lemma StartInv(ends: Ends, shared: set<RoomId>, least: RoomId, good: iset<Message>, n: Net)
    requires IsLeast(least, shared) && SharedStart(ends, shared, n)
    ensures Inv(ends, shared, least, good, n, false)
  {
  }

  lemma StepKeepsElsewhere(ends: Ends, least: RoomId, good: iset<Message>, n: Net, after: Net, act: Action)
    requires Enabled(ends, n, act) && WellFormed(ends, after) && StepEffect(ends, least, good, n, after, act)
    ensures SameElsewhere(ends, n, after)
  {
    assert after.states[Peer(ends, act.device)] == n.states[Peer(ends, act.device)];
  }

  lemma {:induction false} RunKeepsInv(ends: Ends, shared: set<RoomId>, least: RoomId, good: iset<Message>,
                                       n: Net, acts: seq<Action>, end: Net, begun: bool)
    requires Inv(ends, shared, least, good, n, begun) && Runs(ends, n, acts, end)
    requires good == ProperMessages(ends, shared, least)
    ensures Inv(ends, shared, least, good, end, begun || Opened(acts)) && SameElsewhere(ends, n, end)
    decreases |acts|
  {
    if acts == [] {
    } else {
      var next := Next(ends, n, acts[0]);
      StepKeepsInv(ends, shared, least, good, n, acts[0], begun);
      StepKeepsElsewhere(ends, least, good, n, next, acts[0]);
      OpenedFirst(acts);
      RunKeepsInv(ends, shared, least, good, next, acts[1..], end, begun || acts[0].OpenAt?);
    }
  }

  /** Both ends hold the same private rooms, and one or both open: in every order of opening
      and delivery, once nothing is in flight both hold exactly the least of them, and every
      other room of either is as it was. */
  lemma MergingConverges(ends: Ends, shared: set<RoomId>, least: RoomId, start: Net, acts: seq<Action>, end: Net)
    requires IsLeast(least, shared) && SharedStart(ends, shared, start)
    requires Runs(ends, start, acts, end) && Opened(acts)
    ensures WellFormed(ends, end) && SameElsewhere(ends, start, end)
    ensures end.inbox[ends.x] == end.inbox[ends.y] == multiset{} ==>
      Held(ends, end, ends.x) == Held(ends, end, ends.y) == {least}
  {
    var good := ProperMessages(ends, shared, least);
    StartInv(ends, shared, least, good, start);
    RunKeepsInv(ends, shared, least, good, start, acts, end, false);
  }

  // Deliveries run out

  ghost predicate AreMerges(messages: multiset<Message>, merges: multiset<Message>) {
    forall m :: merges[m] == if m.Merge? then messages[m] else 0
  }

  lemma {:induction false} MergesExist(messages: multiset<Message>)
    ensures exists merges :: AreMerges(messages, merges)
    decreases |messages|
  {
    if messages == multiset{} {
      assert AreMerges(messages, multiset{});
    } else {
      var m :| m in messages;
      MergesExist(messages - multiset{m});
      var merges :| AreMerges(messages - multiset{m}, merges);
      assert AreMerges(messages, if m.Merge? then merges + multiset{m} else merges);
    }
  }

  /** The merges among some messages. */
  ghost function Merges(messages: multiset<Message>): (merges: multiset<Message>)
    ensures AreMerges(messages, merges)
  {
    MergesExist(messages);
    var merges :| AreMerges(messages, merges);
    merges
  }

  lemma SameMerges(messages: multiset<Message>, a: multiset<Message>, b: multiset<Message>)
    requires AreMerges(messages, a) && AreMerges(messages, b)
    ensures a == b
  {
  }

  lemma MergesSum(a: multiset<Message>, b: multiset<Message>)
    ensures |Merges(a + b)| == |Merges(a)| + |Merges(b)|
  {
    SameMerges(a + b, Merges(a + b), Merges(a) + Merges(b));
  }

  /** Taking a message out lowers the merges if it is one, and the messages in any case. */
  lemma MergesTaken(a: multiset<Message>, taken: Message)
    requires taken in a
    ensures |a - multiset{taken}| == |a| - 1
    ensures |Merges(a - multiset{taken})| == |Merges(a)| - if taken.Merge? then 1 else 0
  {
    var rest := a - multiset{taken};
    SameMerges(a, Merges(a), Merges(rest) + if taken.Merge? then multiset{taken} else multiset{});
  }

  ghost function MergesLeft(ends: Ends, n: Net): nat
    requires WellFormed(ends, n)
  {
    |Merges(n.inbox[ends.x])| + |Merges(n.inbox[ends.y])|
  }

  ghost function MessagesLeft(ends: Ends, n: Net): nat
    requires WellFormed(ends, n)
  {
    |n.inbox[ends.x]| + |n.inbox[ends.y]|
  }

  lemma NoMerges(messages: multiset<Message>)
    requires !HasMerge(messages)
    ensures |Merges(messages)| == 0
  {
    SameMerges(messages, Merges(messages), multiset{});
  }

  /** What hearing a message posts: at most invites for a merge, nothing for an invite. */
  lemma HearingPosts(dev: Device, s: State, peer: DeviceId, m: Message)
    ensures !HasMerge(Posted(Receive(dev, s, peer, m).1, peer))
    ensures m.Invite? ==> Receive(dev, s, peer, m).1 == []
  {
    var sent := Receive(dev, s, peer, m).1;
    forall r | r in Posted(sent, peer) ensures r.Invite? {
      PostedMember(sent, peer, r);
    }
  }

  lemma DeliveryInboxes(ends: Ends, n: Net, act: Action)
    requires Enabled(ends, n, act) && act.DeliverAt?
    ensures WellFormed(ends, Next(ends, n, act))
    ensures var d, peer := act.device, Peer(ends, act.device);
            var posted := Posted(Receive(Device(d, ends.anchor), n.states[d], peer, act.message).1, peer);
            && Next(ends, n, act).inbox[d] == n.inbox[d] - multiset{act.message}
            && Next(ends, n, act).inbox[peer] == n.inbox[peer] + posted
  {
    var (local, sent) := Local(ends, n.states[act.device], act);
    MovedWellFormed(ends, n, act, local, Posted(sent, Peer(ends, act.device)));
  }

  /** Every delivery lowers the merges under way, else the messages under way. */
  lemma DeliveryDescends(ends: Ends, n: Net, act: Action)
    requires Enabled(ends, n, act) && act.DeliverAt?
    ensures WellFormed(ends, Next(ends, n, act))
    ensures var after := Next(ends, n, act);
            MergesLeft(ends, after) < MergesLeft(ends, n)
            || (MergesLeft(ends, after) == MergesLeft(ends, n) && MessagesLeft(ends, after) < MessagesLeft(ends, n))
  {
    var d, peer := act.device, Peer(ends, act.device);
    var posted := Posted(Receive(Device(d, ends.anchor), n.states[d], peer, act.message).1, peer);
    DeliveryInboxes(ends, n, act);
    HearingPosts(Device(d, ends.anchor), n.states[d], peer, act.message);
    NoMerges(posted);
    MergesTaken(n.inbox[d], act.message);
    MergesSum(n.inbox[peer], posted);
  }

  predicate Idle(ends: Ends, n: Net) {
    WellFormed(ends, n) && n.inbox[ends.x] == n.inbox[ends.y] == multiset{}
  }

  lemma RunsFirst(ends: Ends, n: Net, act: Action, rest: seq<Action>, end: Net)
    requires Enabled(ends, n, act) && Runs(ends, Next(ends, n, act), rest, end)
    ensures Runs(ends, n, [act] + rest, end)
  {
    assert ([act] + rest)[1..] == rest;
  }

  lemma SomeDelivery(ends: Ends, n: Net) returns (act: Action)
    requires WellFormed(ends, n) && !Idle(ends, n)
    ensures act.DeliverAt? && Enabled(ends, n, act)
  {
    var d := if n.inbox[ends.x] != multiset{} then ends.x else ends.y;
    var m :| m in n.inbox[d];
    act := DeliverAt(d, m);
  }

  predicate AllDeliveries(acts: seq<Action>) {
    forall act :: act in acts ==> act.DeliverAt?
  }

  lemma DeliveryFirst(act: Action, acts: seq<Action>)
    requires act.DeliverAt? && AllDeliveries(acts)
    ensures AllDeliveries([act] + acts)
  {
  }

  /** From any net, deliveries alone reach one with nothing in flight. */
  lemma {:induction false} DeliveriesDrain(ends: Ends, n: Net) returns (acts: seq<Action>, end: Net)
    requires WellFormed(ends, n)
    ensures Runs(ends, n, acts, end) && Idle(ends, end) && AllDeliveries(acts)
    decreases MergesLeft(ends, n), MessagesLeft(ends, n)
  {
    if Idle(ends, n) {
      acts, end := [], n;
    } else {
      var act := SomeDelivery(ends, n);
      var after := Next(ends, n, act);
      DeliveryDescends(ends, n, act);
      acts, end := DeliveriesDrain(ends, after);
      RunsFirst(ends, n, act, acts, end);
      DeliveryFirst(act, acts);
      acts := [act] + acts;
    }
  }

  lemma FirstAndRest(acts: seq<Action>, more: seq<Action>)
    requires acts != []
    ensures [acts[0]] + (acts[1..] + more) == acts + more
  {
  }

  lemma {:induction false} RunsOn(ends: Ends, n: Net, acts: seq<Action>, mid: Net, more: seq<Action>, end: Net)
    requires Runs(ends, n, acts, mid) && Runs(ends, mid, more, end)
    ensures Runs(ends, n, acts + more, end)
    decreases |acts|
  {
    if acts == [] {
      assert acts + more == more;
    } else {
      var act, rest := acts[0], acts[1..];
      RunsOn(ends, Next(ends, n, act), rest, mid, more, end);
      RunsFirst(ends, n, act, rest + more, end);
      FirstAndRest(acts, more);
    }
  }

  /** Wherever a run from the shared start has got to once somebody has opened, deliveries
      alone bring both ends to exactly the least room. */
  lemma MergingSettles(ends: Ends, shared: set<RoomId>, least: RoomId, start: Net, acts: seq<Action>, mid: Net)
    returns (more: seq<Action>, end: Net)
    requires IsLeast(least, shared) && SharedStart(ends, shared, start) && WellFormed(ends, mid)
    requires Runs(ends, start, acts, mid) && Opened(acts)
    ensures Runs(ends, mid, more, end) && AllDeliveries(more) && Idle(ends, end)
    ensures Held(ends, end, ends.x) == Held(ends, end, ends.y) == {least}
  {
    more, end := DeliveriesDrain(ends, mid);
    RunsOn(ends, start, acts, mid, more, end);
    var open :| open in acts && open.OpenAt?;
    assert open in acts + more;
    MergingConverges(ends, shared, least, start, acts + more, end);
  }

  // How both ends come to hold the same rooms

  ghost predicate Unused(rooms: seq<Room>, id: RoomId) {
    forall r :: r in rooms ==> r.id != id
  }

  lemma OpenCreates(dev: Device, s: State, peer: DeviceId, minted: RoomId, title: string)
    requires UniqueRooms(s.rooms) && Unused(s.rooms, minted) && dev.me != peer && DirectIds(dev, s.rooms, peer) == {}
    ensures var (after, sent) := Open(dev, s, peer, minted, title);
            && LocalEffect(dev, s, after, peer, {minted})
            && (forall r :: r in after.rooms ==> r in s.rooms || r.id == minted)
            && sent == [Envelope([peer], Invite(minted, title, [dev.me, peer], Some(InviteAccess)))]
  {
    DirectRoomsSorted(dev, s, peer);
    var direct := SortedDirect(dev, s, peer);
    assert direct != [] ==> direct[0] in direct && direct[0].id in RoomIds(direct);
    var room := Room(minted, title, [dev.me, peer], Some(dev.me), Some(InviteAccess));
    PairMembers(dev.me, peer);
    NewDirectRoom(dev, s.rooms, peer, room);
    assert [dev.me, peer][1..] == [peer] && [peer][1..] == [];
    assert OthersIn(dev, [peer]) == [peer] + OthersIn(dev, [peer][1..]) == [peer];
  }

  lemma PairMembers(a: DeviceId, b: DeviceId)
    requires a != b
    ensures ExactPair([a, b], a, b) && ExactPair([a, b], b, a)
  {
    assert MemberSet([a, b]) == {a, b};
  }

  lemma NewDirectRoom(dev: Device, rooms: seq<Room>, peer: DeviceId, room: Room)
    requires UniqueRooms(rooms) && Unused(rooms, room.id) && IsDirect(dev, room, peer)
    ensures UniqueRooms(rooms + [room])
      && DirectIds(dev, rooms + [room], peer) == DirectIds(dev, rooms, peer) + {room.id}
    ensures NonDirect(dev, rooms + [room], peer) == NonDirect(dev, rooms, peer)
  {
    assert room in rooms + [room];
    assert (rooms + [room])[..|rooms|] == rooms;
  }

  /** An invite to the pair's room that this device does not know adds the room, hosted by
      its sender. */
  lemma InviteAdds(dev: Device, s: State, peer: DeviceId, m: Message)
    requires m.Invite? && ExactPair(m.members, dev.me, peer)
    requires UniqueRooms(s.rooms) && Unused(s.rooms, m.room) && dev.me != peer
    ensures var (after, sent) := Receive(dev, s, peer, m);
            && LocalEffect(dev, s, after, peer, DirectIds(dev, s.rooms, peer) + {m.room}) && sent == []
            && (forall r :: r in after.rooms ==> r in s.rooms || (r.id == m.room && r.owner == Some(peer)))
  {
    ExactPairSymmetric(m.members, dev.me, peer);
    DedupKeepsPair(m.members, dev.me, peer);
    NewDirectRoom(dev, s.rooms, peer, Room(m.room, NameOr(m.name, "Room"), Dedup(m.members), Some(peer), m.access));
  }

  /** A device opens a room of its own, the peer has sent exactly one message, to this
      device, and after hearing it this device holds just these direct rooms. */
  ghost predicate SharesAfterCrossing(dev: Device, s: State, peer: DeviceId, minted: RoomId, title: string,
      sent: seq<Envelope>, shared: set<RoomId>)
  {
    && |sent| == 1 && sent[0].to == [dev.me]
    && var after := Receive(dev, Open(dev, s, peer, minted, title).0, peer, sent[0].message).0;
    && UniqueRooms(after.rooms) && DirectIds(dev, after.rooms, peer) == shared
  }

  lemma HearsSecond(dev: Device, s: State, peer: DeviceId, mine: RoomId, m: Message)
    requires m.Invite? && ExactPair(m.members, dev.me, peer) && dev.me != peer
    requires UniqueRooms(s.rooms) && Unused(s.rooms, m.room) && DirectIds(dev, s.rooms, peer) == {mine}
    ensures var after := Receive(dev, s, peer, m).0;
            UniqueRooms(after.rooms) && DirectIds(dev, after.rooms, peer) == {mine, m.room}
  {
    InviteAdds(dev, s, peer, m);
    assert {mine} + {m.room} == {mine, m.room};
  }

  lemma CreatesThenHears(dev: Device, s: State, peer: DeviceId, mine: RoomId, title: string, theirs: RoomId,
      theirTitle: string)
    requires dev.me != peer && mine != theirs
    requires UniqueRooms(s.rooms) && Unused(s.rooms, mine) && Unused(s.rooms, theirs)
    requires DirectIds(dev, s.rooms, peer) == {}
    ensures var invite := Envelope([dev.me], Invite(theirs, theirTitle, [peer, dev.me], Some(InviteAccess)));
            SharesAfterCrossing(dev, s, peer, mine, title, [invite], {mine, theirs})
  {
    OpenCreates(dev, s, peer, mine, title);
    PairMembers(peer, dev.me);
    var own := Open(dev, s, peer, mine, title).0;
    assert Unused(own.rooms, theirs);
    HearsSecond(dev, own, peer, mine, Invite(theirs, theirTitle, [peer, dev.me], Some(InviteAccess)));
  }

  /** Two devices with no room in common that open one at the same time end up, once each
      other's invite has arrived, holding the same two: the start MergingConverges asks for. */
  lemma ConcurrentCreationShares(ends: Ends, sx: State, sy: State, a: RoomId, b: RoomId, titleX: string, titleY: string)
    requires ends.x != ends.y && a != b && UniqueRooms(sx.rooms) && UniqueRooms(sy.rooms)
    requires Unused(sx.rooms, a) && Unused(sx.rooms, b) && Unused(sy.rooms, a) && Unused(sy.rooms, b)
    requires DirectIds(Device(ends.x, ends.anchor), sx.rooms, ends.y) == {}
    requires DirectIds(Device(ends.y, ends.anchor), sy.rooms, ends.x) == {}
    ensures SharesAfterCrossing(Device(ends.x, ends.anchor), sx, ends.y, a, titleX,
      Open(Device(ends.y, ends.anchor), sy, ends.x, b, titleY).1, {a, b})
    ensures SharesAfterCrossing(Device(ends.y, ends.anchor), sy, ends.x, b, titleY,
      Open(Device(ends.x, ends.anchor), sx, ends.y, a, titleX).1, {a, b})
  {
    OpenCreates(Device(ends.x, ends.anchor), sx, ends.y, a, titleX);
    OpenCreates(Device(ends.y, ends.anchor), sy, ends.x, b, titleY);
    CreatesThenHears(Device(ends.x, ends.anchor), sx, ends.y, a, titleX, b, titleY);
    CreatesThenHears(Device(ends.y, ends.anchor), sy, ends.x, b, titleY, a, titleX);
  }
}
