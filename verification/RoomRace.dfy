/** Two devices that make a private room with each other at once, over a network that
    reorders: the invite to a room and the notice that merges it away race each other. */
module RoomRace {
  import opened Wrappers
  import opened DirectRooms
  import opened RoomMerging

  /** Both made their room and neither has heard of the other's. */
  ghost predicate Crossing(ends: Ends, n: Net, a: RoomId, b: RoomId, m: Message, theirs: Message) {
    && WellFormed(ends, n) && UniqueRooms(n.states[ends.x].rooms) && UniqueRooms(n.states[ends.y].rooms)
    && Held(ends, n, ends.x) == {a} && Unused(n.states[ends.x].rooms, b)
    && Held(ends, n, ends.y) == {b} && Unused(n.states[ends.y].rooms, a)
    && m.Invite? && m.room == a && ExactPair(m.members, ends.x, ends.y)
    && theirs.Invite? && theirs.room == b && ExactPair(theirs.members, ends.x, ends.y)
    && n.inbox == map[ends.x := multiset{theirs}, ends.y := multiset{m}]
  }

  /** Both made their room, x has heard of y's, and y has not yet heard of x's. */
  ghost predicate HalfCrossed(ends: Ends, n: Net, a: RoomId, b: RoomId, m: Message) {
    && WellFormed(ends, n) && UniqueRooms(n.states[ends.x].rooms) && UniqueRooms(n.states[ends.y].rooms)
    && Held(ends, n, ends.x) == {a, b} && Held(ends, n, ends.y) == {b} && Unused(n.states[ends.y].rooms, a)
    && (forall r :: r in n.states[ends.x].rooms && r.id == b ==> r.owner == Some(ends.y))
    && m.Invite? && m.room == a && ExactPair(m.members, ends.x, ends.y)
    && n.inbox == map[ends.x := multiset{}, ends.y := multiset{m}]
  }

  /** x has merged since, so its notice and the invite race each other to y. */
  ghost predicate Racing(ends: Ends, n: Net, a: RoomId, b: RoomId, m: Message, notice: Message) {
    && WellFormed(ends, n) && UniqueRooms(n.states[ends.x].rooms) && UniqueRooms(n.states[ends.y].rooms)
    && Held(ends, n, ends.x) == {b} && Held(ends, n, ends.y) == {b} && Unused(n.states[ends.y].rooms, a)
    && m.Invite? && m.room == a && ExactPair(m.members, ends.x, ends.y)
    && notice.Merge? && Proper(ends.x, ends.y, {a, b}, b, notice)
    && n.inbox == map[ends.x := multiset{}, ends.y := multiset{m, notice}]
  }

  /** The two ends differ, and only invites to the room both hold are under way to x. */
  ghost predicate Apart(ends: Ends, n: Net, a: RoomId, b: RoomId) {
    && WellFormed(ends, n) && UniqueRooms(n.states[ends.x].rooms)
    && Held(ends, n, ends.x) == {b} && Held(ends, n, ends.y) == {a, b} && n.inbox[ends.y] == multiset{}
    && forall m :: m in n.inbox[ends.x] ==> m.Invite? && Proper(ends.x, ends.y, {a, b}, b, m)
  }

  /** An end with no room of the two. */
  ghost predicate EmptyEnd(ends: Ends, n: Net, d: DeviceId, a: RoomId, b: RoomId)
    requires WellFormed(ends, n) && IsEnd(ends, d)
  {
    && Held(ends, n, d) == {} && UniqueRooms(n.states[d].rooms)
    && Unused(n.states[d].rooms, a) && Unused(n.states[d].rooms, b)
  }

  /** Neither end has a room with the other, nor any under either id. */
  ghost predicate EmptyStart(ends: Ends, n: Net, a: RoomId, b: RoomId) {
    && WellFormed(ends, n) && n.inbox == map[ends.x := multiset{}, ends.y := multiset{}]
    && EmptyEnd(ends, n, ends.x, a, b) && EmptyEnd(ends, n, ends.y, a, b)
  }

  lemma NetParts(ends: Ends, n: Net, act: Action)
    requires Enabled(ends, n, act)
    ensures WellFormed(ends, Next(ends, n, act))
    ensures var d, peer, next := act.device, Peer(ends, act.device), Next(ends, n, act);
            var (after, sent) := Local(ends, n.states[d], act);
            && next.states[d] == after && next.states[peer] == n.states[peer]
            && next.inbox[d] == (if act.DeliverAt? then n.inbox[d] - multiset{act.message} else n.inbox[d])
            && next.inbox[peer] == n.inbox[peer] + Posted(sent, peer)
  {
    var (local, sent) := Local(ends, n.states[act.device], act);
    MovedWellFormed(ends, n, act, local, Posted(sent, Peer(ends, act.device)));
  }

  lemma PostedOne(to: DeviceId, m: Message)
    ensures Posted([Envelope([to], m)], to) == multiset{m}
  {
    assert [Envelope([to], m)][1..] == [];
  }

  lemma SameInboxes(ends: Ends, n: Net, atX: multiset<Message>, atY: multiset<Message>)
    requires WellFormed(ends, n) && n.inbox[ends.x] == atX && n.inbox[ends.y] == atY
    ensures n.inbox == map[ends.x := atX, ends.y := atY]
  {
  }

  lemma OneStep(ends: Ends, n: Net, act: Action) returns (acts: seq<Action>, end: Net)
    requires Enabled(ends, n, act)
    ensures end == Next(ends, n, act) && Runs(ends, n, acts, end)
  {
    acts, end := [act] + [], Next(ends, n, act);
    RunsFirst(ends, n, act, [], end);
  }

  /** One end makes a room and its invite sets out. */
  lemma Creates(ends: Ends, n: Net, d: DeviceId, id: RoomId, title: string, other: RoomId)
    returns (acts: seq<Action>, end: Net, m: Message)
    requires WellFormed(ends, n) && IsEnd(ends, d) && id != other && EmptyEnd(ends, n, d, id, other)
    ensures Runs(ends, n, acts, end) && WellFormed(ends, end)
    ensures m.Invite? && m.room == id && ExactPair(m.members, ends.x, ends.y)
    ensures Held(ends, end, d) == {id} && UniqueRooms(end.states[d].rooms) && Unused(end.states[d].rooms, other)
    ensures end.states[Peer(ends, d)] == n.states[Peer(ends, d)]
    ensures end.inbox[d] == n.inbox[d] && end.inbox[Peer(ends, d)] == n.inbox[Peer(ends, d)] + multiset{m}
  {
    var peer := Peer(ends, d);
    m := Invite(id, title, [d, peer], Some(InviteAccess));
    PairMembers(d, peer);
    PostedOne(peer, m);
    OpenCreates(Device(d, ends.anchor), n.states[d], peer, id, title);
    NetParts(ends, n, OpenAt(d, id, title));
    acts, end := OneStep(ends, n, OpenAt(d, id, title));
  }

  /** An end hears of a room it does not know. */
  lemma Hears(ends: Ends, n: Net, d: DeviceId, m: Message) returns (acts: seq<Action>, end: Net)
    requires WellFormed(ends, n) && IsEnd(ends, d) && m in n.inbox[d]
    requires m.Invite? && ExactPair(m.members, ends.x, ends.y)
    requires UniqueRooms(n.states[d].rooms) && Unused(n.states[d].rooms, m.room)
    ensures Runs(ends, n, acts, end) && WellFormed(ends, end)
    ensures Held(ends, end, d) == Held(ends, n, d) + {m.room} && UniqueRooms(end.states[d].rooms)
    ensures forall r :: r in end.states[d].rooms && r.id == m.room ==> r.owner == Some(Peer(ends, d))
    ensures end.states[Peer(ends, d)] == n.states[Peer(ends, d)]
    ensures end.inbox[d] == n.inbox[d] - multiset{m} && end.inbox[Peer(ends, d)] == n.inbox[Peer(ends, d)]
  {
    ExactPairSymmetric(m.members, ends.x, ends.y);
    InviteAdds(Device(d, ends.anchor), n.states[d], Peer(ends, d), m);
    NetParts(ends, n, DeliverAt(d, m));
    acts, end := OneStep(ends, n, DeliverAt(d, m));
  }

  lemma BothCreate(ends: Ends, n: Net, a: RoomId, b: RoomId, titleX: string, titleY: string)
    returns (acts: seq<Action>, end: Net, m: Message, theirs: Message)
    requires EmptyStart(ends, n, a, b) && a != b
    ensures Runs(ends, n, acts, end) && Crossing(ends, end, a, b, m, theirs)
  {
    var first, mid, mine := Creates(ends, n, ends.x, a, titleX, b);
    var second, last, other := Creates(ends, mid, ends.y, b, titleY, a);
    SameInboxes(ends, last, multiset{other}, multiset{mine});
    RunsOn(ends, n, first, mid, second, last);
    acts, end, m, theirs := first + second, last, mine, other;
  }

  lemma OneHears(ends: Ends, n: Net, a: RoomId, b: RoomId, m: Message, theirs: Message)
    returns (acts: seq<Action>, end: Net)
    requires Crossing(ends, n, a, b, m, theirs)
    ensures Runs(ends, n, acts, end) && HalfCrossed(ends, end, a, b, m)
  {
    acts, end := Hears(ends, n, ends.x, theirs);
    assert {a} + {b} == {a, b};
    SameInboxes(ends, end, multiset{}, multiset{m});
  }

  /** Two rooms sort into the lesser and the greater. */
  lemma TwoSorted(dev: Device, s: State, peer: DeviceId, low: RoomId, high: RoomId)
    requires UniqueRooms(s.rooms) && DirectIds(dev, s.rooms, peer) == {low, high} && low < high
    ensures var direct := SortedDirect(dev, s, peer);
            |direct| == 2 && direct[0] in s.rooms && direct[0].id == low && direct[1].id == high
  {
    DirectRoomsSorted(dev, s, peer);
    TwoIds(SortedDirect(dev, s, peer), low, high);
  }

  lemma TwoIds(direct: seq<Room>, low: RoomId, high: RoomId)
    requires RoomIds(direct) == {low, high} && low < high
    requires forall i, j :: 0 <= i < j < |direct| ==> direct[i].id < direct[j].id
    ensures |direct| == 2 && direct[0] in direct && direct[0].id == low && direct[1].id == high
  {
    assert low in RoomIds(direct);
    var r :| r in direct && r.id == low;
    var i :| 0 <= i < |direct| && direct[i] == r;
    assert direct[0].id in RoomIds(direct);
    RestIds(direct);
    assert RoomIds(direct[1..]) == {high};
    OneId(direct[1..], high);
  }

  /** Opening with two rooms, the lesser of which the peer hosts, sends one notice only. */
  lemma OneNotice(dev: Device, s: State, peer: DeviceId, minted: RoomId, title: string, low: RoomId, high: RoomId)
    returns (notice: Message)
    requires UniqueRooms(s.rooms) && DirectIds(dev, s.rooms, peer) == {low, high} && low < high && dev.me != peer
    requires forall r :: r in s.rooms && r.id == low ==> r.owner == Some(peer)
    ensures notice.Merge? && Proper(dev.me, peer, {low, high}, low, notice)
    ensures Posted(Open(dev, s, peer, minted, title).1, peer) == multiset{notice}
  {
    TwoSorted(dev, s, peer, low, high);
    OpenSends(dev, s, peer, minted, title, {low, high}, low);
    var direct := SortedDirect(dev, s, peer);
    notice := MergeNotices(direct[1..], direct[0], peer)[0].message;
    var sent := Open(dev, s, peer, minted, title).1;
    assert sent == [Envelope([peer], notice)];
    PostedOne(peer, notice);
    assert notice in Posted(sent, peer);
  }

  lemma Races(ends: Ends, n: Net, a: RoomId, b: RoomId, m: Message, title: string)
    returns (acts: seq<Action>, end: Net, notice: Message)
    requires HalfCrossed(ends, n, a, b, m) && b < a
    ensures Runs(ends, n, acts, end) && Racing(ends, end, a, b, m, notice)
  {
    var dev, s, act := Device(ends.x, ends.anchor), n.states[ends.x], OpenAt(ends.x, a, title);
    assert {a, b} == {b, a};
    notice := OneNotice(dev, s, ends.y, a, title, b, a);
    OpenEffect(dev, s, ends.y, a, title, {a, b}, b);
    NetParts(ends, n, act);
    acts, end := OneStep(ends, n, act);
    SameInboxes(ends, end, multiset{}, multiset{m, notice});
  }

  lemma UnusedStays(dev: Device, s: State, after: State, peer: DeviceId, ids: set<RoomId>, id: RoomId)
    requires LocalEffect(dev, s, after, peer, ids) && id !in ids && Unused(s.rooms, id)
    ensures Unused(after.rooms, id)
  {
    NonDirectMembers(dev, s.rooms, peer);
    NonDirectMembers(dev, after.rooms, peer);
  }

  /** The notice finds nothing to drop, and is answered by invites to the room kept. */
  lemma NoticeHeard(ends: Ends, n: Net, a: RoomId, b: RoomId, m: Message, notice: Message)
    returns (acts: seq<Action>, end: Net)
    requires Racing(ends, n, a, b, m, notice) && b < a
    ensures Runs(ends, n, acts, end) && WellFormed(ends, end) && end.states[ends.x] == n.states[ends.x]
    ensures Held(ends, end, ends.y) == {b} && UniqueRooms(end.states[ends.y].rooms)
    ensures Unused(end.states[ends.y].rooms, a)
    ensures end.inbox[ends.y] == multiset{m}
    ensures forall r :: r in end.inbox[ends.x] ==> r.Invite? && Proper(ends.x, ends.y, {a, b}, b, r)
  {
    var dev, act := Device(ends.y, ends.anchor), DeliverAt(ends.y, notice);
    ProperAtEnd(ends, ends.y, {a, b}, b);
    MergeEffect(dev, n.states[ends.y], ends.x, notice, {a, b}, b);
    NetParts(ends, n, act);
    acts, end := OneStep(ends, n, act);
    UnusedStays(dev, n.states[ends.y], end.states[ends.y], ends.x, {b}, a);
  }

  /** The invite it overtook then adds the dropped room again. */
  lemma NoticeFirst(ends: Ends, n: Net, a: RoomId, b: RoomId, m: Message, notice: Message)
    returns (acts: seq<Action>, end: Net)
    requires Racing(ends, n, a, b, m, notice) && b < a
    ensures Runs(ends, n, acts, end) && Apart(ends, end, a, b)
  {
    var first, mid := NoticeHeard(ends, n, a, b, m, notice);
    var second, last := Hears(ends, mid, ends.y, m);
    assert {b} + {a} == {a, b};
    RunsOn(ends, n, first, mid, second, last);
    acts, end := first + second, last;
  }

  lemma ApartHears(ends: Ends, n: Net, a: RoomId, b: RoomId, m: Message)
    returns (acts: seq<Action>, end: Net)
    requires Apart(ends, n, a, b) && m in n.inbox[ends.x]
    ensures Runs(ends, n, acts, end) && Apart(ends, end, a, b)
    ensures end.inbox[ends.x] == n.inbox[ends.x] - multiset{m}
  {
    InviteEffect(Device(ends.x, ends.anchor), n.states[ends.x], ends.y, m, {a, b}, b);
    HearingPosts(Device(ends.x, ends.anchor), n.states[ends.x], ends.y, m);
    NetParts(ends, n, DeliverAt(ends.x, m));
    acts, end := OneStep(ends, n, DeliverAt(ends.x, m));
  }

  lemma {:induction false} ApartDrains(ends: Ends, n: Net, a: RoomId, b: RoomId)
    returns (acts: seq<Action>, end: Net)
    requires Apart(ends, n, a, b)
    ensures Runs(ends, n, acts, end) && Apart(ends, end, a, b) && Idle(ends, end)
    decreases |n.inbox[ends.x]|
  {
    if n.inbox[ends.x] == multiset{} {
      acts, end := [], n;
    } else {
      var m :| m in n.inbox[ends.x];
      var first, next := ApartHears(ends, n, a, b, m);
      var more, last := ApartDrains(ends, next, a, b);
      RunsOn(ends, n, first, next, more, last);
      acts, end := first + more, last;
    }
  }

  /** If messages may overtake each other, creating at once need not converge: from any start
      without a room of the two, a run ends with nothing under way, one end holding the least
      room only and the other both. */
  lemma ReorderedCreationDiverges(ends: Ends, start: Net, a: RoomId, b: RoomId, titleX: string, titleY: string)
    returns (acts: seq<Action>, end: Net)
    requires EmptyStart(ends, start, a, b) && b < a
    ensures Runs(ends, start, acts, end) && Idle(ends, end)
    ensures Held(ends, end, ends.x) == {b} && Held(ends, end, ends.y) == {a, b}
  {
    var create, n0, m, theirs := BothCreate(ends, start, a, b, titleX, titleY);
    var hear, n1 := OneHears(ends, n0, a, b, m, theirs);
    var merge, n2, notice := Races(ends, n1, a, b, m, titleX);
    var overtake, n3 := NoticeFirst(ends, n2, a, b, m, notice);
    var drain;
    drain, end := ApartDrains(ends, n3, a, b);
    RunsOn(ends, n2, overtake, n3, drain, end);
    RunsOn(ends, n1, merge, n2, overtake + drain, end);
    RunsOn(ends, n0, hear, n1, merge + (overtake + drain), end);
    RunsOn(ends, start, create, n0, hear + (merge + (overtake + drain)), end);
    acts := create + (hear + (merge + (overtake + drain)));
  }
}
