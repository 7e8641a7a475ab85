/** Two devices that may both make a private room with each other, over links that keep the
    order of messages. */
module RoomCreation {
  import opened Wrappers
  import opened DirectRooms
  import opened RoomMerging

  /** The two ends, the ids each would mint, and their rooms apart from the pair's own. */
  datatype Setting = Setting(ends: Ends, a: RoomId, b: RoomId, restX: seq<Room>, restY: seq<Room>)

  /** Messages under way to each end, oldest first. */
  datatype Net = Net(states: map<DeviceId, State>, line: map<DeviceId, seq<Message>>)

  datatype Action = OpenAt(device: DeviceId, title: string) | DeliverTo(device: DeviceId)

  function Least(p: Setting): RoomId {
    if p.a < p.b then p.a else p.b
  }

  function Mine(p: Setting, d: DeviceId): RoomId {
    if d == p.ends.x then p.a else p.b
  }

  function Theirs(p: Setting, d: DeviceId): RoomId {
    if d == p.ends.x then p.b else p.a
  }

  function Rest(p: Setting, d: DeviceId): seq<Room> {
    if d == p.ends.x then p.restX else p.restY
  }

  predicate WellFormed(p: Setting, n: Net) {
    p.ends.x != p.ends.y && p.a != p.b && n.states.Keys == n.line.Keys == {p.ends.x, p.ends.y}
  }

  predicate Enabled(p: Setting, n: Net, act: Action) {
    WellFormed(p, n) && IsEnd(p.ends, act.device) && (act.DeliverTo? ==> n.line[act.device] != [])
  }

  /** Messages of an outbox that are addressed to one device, in order. */
  function Posted(sent: seq<Envelope>, to: DeviceId): seq<Message> {
    if sent == [] then []
    else (if to in sent[0].to then [sent[0].message] else []) + Posted(sent[1..], to)
  }

  function Local(p: Setting, n: Net, act: Action): (State, seq<Envelope>)
    requires Enabled(p, n, act)
  {
    var d, peer := act.device, Peer(p.ends, act.device);
    match act
    case OpenAt(_, title) => Open(Device(d, p.ends.anchor), n.states[d], peer, Mine(p, d), title)
    case DeliverTo(_) => Receive(Device(d, p.ends.anchor), n.states[d], peer, n.line[d][0])
  }

  function Next(p: Setting, n: Net, act: Action): Net
    requires Enabled(p, n, act)
  {
    var d, peer := act.device, Peer(p.ends, act.device);
    var (after, sent) := Local(p, n, act);
    var left := if act.DeliverTo? then n.line[d][1..] else n.line[d];
    Net.Net(n.states[d := after], n.line[d := left][peer := n.line[peer] + Posted(sent, peer)])
  }

  ghost function Held(p: Setting, n: Net, d: DeviceId): set<RoomId>
    requires WellFormed(p, n) && IsEnd(p.ends, d)
  {
    DirectIds(Device(d, p.ends.anchor), n.states[d].rooms, Peer(p.ends, d))
  }

  // What the two ends hold and still have coming

  /** The announcement of the room one end made. */
  predicate Announces(p: Setting, m: Message, room: RoomId) {
    m.Invite? && m.room == room && ExactPair(m.members, p.ends.x, p.ends.y)
  }

  /** A message about the least of the two rooms, sent once both are made. */
  ghost predicate Later(p: Setting, m: Message) {
    Proper(p.ends.x, p.ends.y, {p.a, p.b}, Least(p), m)
  }

  ghost predicate AllLater(p: Setting, line: seq<Message>) {
    forall m :: m in line ==> Later(p, m)
  }

  predicate HasMerge(line: seq<Message>) {
    exists m :: m in line && m.Merge?
  }

  /** Both rooms are made and this end has heard of both. */
  ghost predicate Heard(p: Setting, made: set<RoomId>, held: set<RoomId>, line: seq<Message>) {
    made == {p.a, p.b} && AllLater(p, line) && (held == {p.a, p.b} || held == {Least(p)})
  }

  ghost predicate Merged(p: Setting, made: set<RoomId>, held: set<RoomId>, line: seq<Message>) {
    Heard(p, made, held, line) && held == {Least(p)}
  }

  /** One end: what it made, and the other's announcement, either still first in line or heard. */
  ghost predicate EndFine(p: Setting, mine: RoomId, theirs: RoomId, made: set<RoomId>, held: set<RoomId>,
      line: seq<Message>)
  {
    if theirs !in made then line == [] && held == (if mine in made then {mine} else {})
    else if mine !in made then
      (held == {} && |line| == 1 && Announces(p, line[0], theirs)) || (held == {theirs} && line == [])
    else
      || (held == {mine} && line != [] && Announces(p, line[0], theirs) && AllLater(p, line[1..]))
      || Heard(p, made, held, line)
  }

  /** A merge under way means its sender has merged; and who has merged has told the other. */
  ghost predicate Told(p: Setting, made: set<RoomId>, held: set<RoomId>, line: seq<Message>,
      peerHeld: set<RoomId>, peerLine: seq<Message>)
  {
    && (Merged(p, made, held, line) ==> Merged(p, made, peerHeld, peerLine) || HasMerge(peerLine))
    && (HasMerge(peerLine) ==> Merged(p, made, held, line))
  }

  ghost predicate PairFine(p: Setting, mine: RoomId, theirs: RoomId, made: set<RoomId>,
      held: set<RoomId>, line: seq<Message>, peerHeld: set<RoomId>, peerLine: seq<Message>)
  {
    && p.a != p.b && made <= {p.a, p.b} == {mine, theirs}
    && EndFine(p, mine, theirs, made, held, line) && EndFine(p, theirs, mine, made, peerHeld, peerLine)
    && Told(p, made, held, line, peerHeld, peerLine) && Told(p, made, peerHeld, peerLine, held, line)
  }

  lemma LineSum(p: Setting, a: seq<Message>, b: seq<Message>)
    ensures AllLater(p, a + b) <==> AllLater(p, a) && AllLater(p, b)
    ensures HasMerge(a + b) <==> HasMerge(a) || HasMerge(b)
  {
    assert forall m :: m in a + b <==> m in a || m in b;
    if HasMerge(a) {
      var m :| m in a && m.Merge?;
      assert m in a + b;
    }
    if HasMerge(b) {
      var m :| m in b && m.Merge?;
      assert m in a + b;
    }
  }

  lemma LineFirst(p: Setting, line: seq<Message>)
    requires line != []
    ensures AllLater(p, line) <==> Later(p, line[0]) && AllLater(p, line[1..])
    ensures HasMerge(line) <==> line[0].Merge? || HasMerge(line[1..])
  {
    assert line == [line[0]] + line[1..];
    LineSum(p, [line[0]], line[1..]);
  }

  lemma AnnouncementNoMerge(p: Setting, m: Message, room: RoomId)
    requires Announces(p, m, room)
    ensures !HasMerge([m]) && (Later(p, m) <==> room == Least(p))
  {
  }

  /** The first opening at an end makes its room and announces it. */
  lemma MakingKeeps(p: Setting, mine: RoomId, theirs: RoomId, made: set<RoomId>, held: set<RoomId>,
      line: seq<Message>, peerHeld: set<RoomId>, peerLine: seq<Message>, m: Message)
    requires PairFine(p, mine, theirs, made, held, line, peerHeld, peerLine) && held == {} && Announces(p, m, mine)
    ensures PairFine(p, mine, theirs, made + {mine}, {mine}, line, peerHeld, peerLine + [m])
    ensures !Heard(p, made, held, line) && !Heard(p, made, peerHeld, peerLine)
  {
    AnnouncementNoMerge(p, m, mine);
    assert mine !in made;
    if theirs in made {
      AnnouncementNoMerge(p, line[0], theirs);
      LineFirst(p, line);
      assert made + {mine} == {p.a, p.b};
      assert peerLine + [m] == [m];
      assert [m][1..] == [];
    } else {
      assert made == {};
      assert peerLine + [m] == [m];
    }
  }

  /** Opening with both rooms merges them and says so. */
  lemma MergingKeeps(p: Setting, mine: RoomId, theirs: RoomId, made: set<RoomId>, held: set<RoomId>,
      line: seq<Message>, peerHeld: set<RoomId>, peerLine: seq<Message>, posted: seq<Message>)
    requires PairFine(p, mine, theirs, made, held, line, peerHeld, peerLine) && held == {p.a, p.b}
    requires AllLater(p, posted) && HasMerge(posted)
    ensures PairFine(p, mine, theirs, made, {Least(p)}, line, peerHeld, peerLine + posted)
    ensures Merged(p, made, {Least(p)}, line)
    ensures Merged(p, made, peerHeld, peerLine) ==> Merged(p, made, peerHeld, peerLine + posted)
  {
    LineSum(p, peerLine, posted);
    if peerLine != [] {
      LineSum(p, peerLine[1..], posted);
      assert (peerLine + posted)[1..] == peerLine[1..] + posted;
    }
  }

  /** Hearing the other's announcement. */
  lemma AnnouncementKeeps(p: Setting, mine: RoomId, theirs: RoomId, made: set<RoomId>, held: set<RoomId>,
      line: seq<Message>, peerHeld: set<RoomId>, peerLine: seq<Message>)
    requires PairFine(p, mine, theirs, made, held, line, peerHeld, peerLine)
    requires line != [] && !Heard(p, made, held, line)
    ensures Announces(p, line[0], theirs) && theirs in made && theirs !in held
    ensures PairFine(p, mine, theirs, made, held + {theirs}, line[1..], peerHeld, peerLine)
  {
    LineFirst(p, line);
    AnnouncementNoMerge(p, line[0], theirs);
    if mine in made {
      assert held + {theirs} == {p.a, p.b};
    } else {
      assert held + {theirs} == {theirs};
    }
  }

  /** Hearing a later message. */
  lemma LaterKeeps(p: Setting, mine: RoomId, theirs: RoomId, made: set<RoomId>, held: set<RoomId>,
      line: seq<Message>, peerHeld: set<RoomId>, peerLine: seq<Message>, after: set<RoomId>, posted: seq<Message>)
    requires PairFine(p, mine, theirs, made, held, line, peerHeld, peerLine)
    requires line != [] && Heard(p, made, held, line)
    requires after == (if line[0].Merge? then {Least(p)} else held)
    requires AllLater(p, posted) && !HasMerge(posted) && (line[0].Invite? ==> posted == [])
    ensures PairFine(p, mine, theirs, made, after, line[1..], peerHeld, peerLine + posted)
    ensures Merged(p, made, held, line) ==> Merged(p, made, after, line[1..])
    ensures Merged(p, made, peerHeld, peerLine) ==> Merged(p, made, peerHeld, peerLine + posted)
  {
    LineFirst(p, line);
    LineSum(p, peerLine, posted);
    if line[0].Merge? {
      assert HasMerge(line) && Merged(p, made, peerHeld, peerLine);
    } else {
      assert peerLine + [] == peerLine;
    }
  }

  // What a step does at its end

  /** An end's own rooms with the peer, and all its others as they were. */
  ghost predicate Clean(p: Setting, n: Net, d: DeviceId)
    requires WellFormed(p, n) && IsEnd(p.ends, d)
  {
    && UniqueRooms(n.states[d].rooms)
    && NonDirect(Device(d, p.ends.anchor), n.states[d].rooms, Peer(p.ends, d)) == Rest(p, d)
    && forall r :: r in Rest(p, d) ==> r.id != p.a && r.id != p.b
  }

  lemma NotHeldUnused(p: Setting, n: Net, d: DeviceId, id: RoomId)
    requires WellFormed(p, n) && IsEnd(p.ends, d) && Clean(p, n, d) && (id == p.a || id == p.b)
    requires id !in Held(p, n, d)
    ensures Unused(n.states[d].rooms, id)
  {
    NonDirectMembers(Device(d, p.ends.anchor), n.states[d].rooms, Peer(p.ends, d));
  }

  lemma {:induction false} PostedMembers(sent: seq<Envelope>, to: DeviceId)
    ensures forall m :: m in Posted(sent, to) <==> m in RoomMerging.Posted(sent, to)
  {
    if sent == [] {
    } else {
      PostedMembers(sent[1..], to);
    }
  }

  lemma SameProper(p: Setting, d: DeviceId)
    requires p.ends.x != p.ends.y && IsEnd(p.ends, d)
    ensures forall m :: Proper(d, Peer(p.ends, d), {p.a, p.b}, Least(p), m) <==> Later(p, m)
  {
    ProperAtEnd(p.ends, d, {p.a, p.b}, Least(p));
  }

  lemma LeastIsLeast(p: Setting)
    ensures IsLeast(Least(p), {p.a, p.b})
  {
  }

  /** What one step leaves: the other end's state, and this end's rooms and outgoing line. */
  lemma NextParts(p: Setting, n: Net, act: Action)
    requires Enabled(p, n, act)
    ensures WellFormed(p, Next(p, n, act))
    ensures var d, peer, next := act.device, Peer(p.ends, act.device), Next(p, n, act);
            var (after, sent) := Local(p, n, act);
            && next.states[d] == after && next.states[peer] == n.states[peer]
            && next.line[d] == (if act.DeliverTo? then n.line[d][1..] else n.line[d])
            && next.line[peer] == n.line[peer] + Posted(sent, peer)
  {
    var d, peer := act.device, Peer(p.ends, act.device);
    assert d in n.states && d in n.line && peer in n.line;
  }

  /** After a step, this end holds these rooms with the peer, and the peer's line has grown
      by these messages. */
  ghost predicate Leaves(p: Setting, n: Net, act: Action, held: set<RoomId>, posted: seq<Message>)
    requires Enabled(p, n, act) && WellFormed(p, Next(p, n, act))
  {
    var d, peer, next := act.device, Peer(p.ends, act.device), Next(p, n, act);
    && Clean(p, next, d) && Held(p, next, d) == held
    && next.states[peer] == n.states[peer]
    && next.line[d] == (if act.DeliverTo? then n.line[d][1..] else n.line[d])
    && next.line[peer] == n.line[peer] + posted
  }

  lemma EffectLeaves(p: Setting, n: Net, act: Action, held: set<RoomId>)
    requires Enabled(p, n, act) && Clean(p, n, act.device)
    requires LocalEffect(Device(act.device, p.ends.anchor), n.states[act.device], Local(p, n, act).0,
               Peer(p.ends, act.device), held)
    ensures WellFormed(p, Next(p, n, act))
    ensures Leaves(p, n, act, held, Posted(Local(p, n, act).1, Peer(p.ends, act.device)))
  {
    NextParts(p, n, act);
  }

  lemma OpenNone(p: Setting, n: Net, act: Action) returns (m: Message)
    requires Enabled(p, n, act) && act.OpenAt? && Clean(p, n, act.device) && Held(p, n, act.device) == {}
    ensures WellFormed(p, Next(p, n, act)) && Announces(p, m, Mine(p, act.device))
    ensures Leaves(p, n, act, {Mine(p, act.device)}, [m])
  {
    var d, peer := act.device, Peer(p.ends, act.device);
    NotHeldUnused(p, n, d, Mine(p, d));
    OpenCreates(Device(d, p.ends.anchor), n.states[d], peer, Mine(p, d), act.title);
    EffectLeaves(p, n, act, {Mine(p, d)});
    m := Invite(Mine(p, d), act.title, [d, peer], Some(InviteAccess));
    PairMembers(d, peer);
    var sent := Local(p, n, act).1;
    assert sent[1..] == [] && Posted(sent, peer) == [m];
  }

  lemma OpenOne(p: Setting, n: Net, act: Action, id: RoomId)
    requires Enabled(p, n, act) && act.OpenAt? && Clean(p, n, act.device) && Held(p, n, act.device) == {id}
    ensures WellFormed(p, Next(p, n, act)) && Leaves(p, n, act, {id}, [])
  {
    var d, peer := act.device, Peer(p.ends, act.device);
    OneSorted(Device(d, p.ends.anchor), n.states[d], peer, id);
    EffectLeaves(p, n, act, {id});
  }

  lemma OneSorted(dev: Device, s: State, peer: DeviceId, id: RoomId)
    requires UniqueRooms(s.rooms) && DirectIds(dev, s.rooms, peer) == {id}
    ensures |SortedDirect(dev, s, peer)| == 1
  {
    DirectRoomsSorted(dev, s, peer);
    OneId(SortedDirect(dev, s, peer), id);
  }

  lemma OpenTwo(p: Setting, n: Net, act: Action) returns (posted: seq<Message>)
    requires Enabled(p, n, act) && act.OpenAt? && Clean(p, n, act.device) && Held(p, n, act.device) == {p.a, p.b}
    ensures WellFormed(p, Next(p, n, act)) && Leaves(p, n, act, {Least(p)}, posted)
    ensures AllLater(p, posted) && HasMerge(posted)
  {
    var d, peer := act.device, Peer(p.ends, act.device);
    var dev := Device(d, p.ends.anchor);
    LeastIsLeast(p);
    SameProper(p, d);
    OpenEffect(dev, n.states[d], peer, Mine(p, d), act.title, {p.a, p.b}, Least(p));
    OpenSends(dev, n.states[d], peer, Mine(p, d), act.title, {p.a, p.b}, Least(p));
    EffectLeaves(p, n, act, {Least(p)});
    posted := Posted(Local(p, n, act).1, peer);
    PostedMembers(Local(p, n, act).1, peer);
    assert RoomMerging.HasMerge(RoomMerging.Posted(Local(p, n, act).1, peer));
  }

  lemma HearAnnouncement(p: Setting, n: Net, act: Action)
    requires Enabled(p, n, act) && act.DeliverTo? && Clean(p, n, act.device)
    requires Announces(p, n.line[act.device][0], Theirs(p, act.device))
    requires Theirs(p, act.device) !in Held(p, n, act.device)
    ensures WellFormed(p, Next(p, n, act))
    ensures Leaves(p, n, act, Held(p, n, act.device) + {Theirs(p, act.device)}, [])
  {
    var d, peer, m := act.device, Peer(p.ends, act.device), n.line[act.device][0];
    NotHeldUnused(p, n, d, Theirs(p, d));
    ExactPairSymmetric(m.members, p.ends.x, p.ends.y);
    InviteAdds(Device(d, p.ends.anchor), n.states[d], peer, m);
    EffectLeaves(p, n, act, Held(p, n, d) + {Theirs(p, d)});
  }

  lemma HearLater(p: Setting, n: Net, act: Action) returns (held: set<RoomId>, posted: seq<Message>)
    requires Enabled(p, n, act) && act.DeliverTo? && Clean(p, n, act.device) && Later(p, n.line[act.device][0])
    requires Held(p, n, act.device) == {p.a, p.b} || Held(p, n, act.device) == {Least(p)}
    ensures WellFormed(p, Next(p, n, act)) && Leaves(p, n, act, held, posted)
    ensures held == if n.line[act.device][0].Merge? then {Least(p)} else Held(p, n, act.device)
    ensures AllLater(p, posted) && !HasMerge(posted) && (n.line[act.device][0].Invite? ==> posted == [])
  {
    var d, peer, m := act.device, Peer(p.ends, act.device), n.line[act.device][0];
    var dev := Device(d, p.ends.anchor);
    LeastIsLeast(p);
    SameProper(p, d);
    HearingPosts(dev, n.states[d], peer, m);
    if m.Merge? {
      MergeEffect(dev, n.states[d], peer, m, {p.a, p.b}, Least(p));
      held := {Least(p)};
    } else {
      InviteEffect(dev, n.states[d], peer, m, {p.a, p.b}, Least(p));
      held := Held(p, n, d);
    }
    EffectLeaves(p, n, act, held);
    posted := Posted(Local(p, n, act).1, peer);
    PostedMembers(Local(p, n, act).1, peer);
  }

  // Every run

  /** What holds in every run: both ends' own rooms as they should be, and nothing else touched. */
  ghost predicate Fine(p: Setting, n: Net, made: set<RoomId>) {
    && WellFormed(p, n) && Clean(p, n, p.ends.x) && Clean(p, n, p.ends.y)
    && FineFrom(p, n, p.ends.x, made)
  }

  /** The two ends seen from one of them. */
  ghost predicate FineFrom(p: Setting, n: Net, d: DeviceId, made: set<RoomId>)
    requires WellFormed(p, n) && IsEnd(p.ends, d)
  {
    var peer := Peer(p.ends, d);
    PairFine(p, Mine(p, d), Theirs(p, d), made, Held(p, n, d), n.line[d], Held(p, n, peer), n.line[peer])
  }

  lemma FineFromEither(p: Setting, n: Net, d: DeviceId, made: set<RoomId>)
    requires WellFormed(p, n) && IsEnd(p.ends, d)
    ensures FineFrom(p, n, d, made) <==> FineFrom(p, n, p.ends.x, made)
  {
  }

  ghost predicate MergedAt(p: Setting, n: Net, d: DeviceId, made: set<RoomId>)
    requires WellFormed(p, n) && IsEnd(p.ends, d)
  {
    Merged(p, made, Held(p, n, d), n.line[d])
  }

  /** Some end holds both rooms and opens: it is then that the duplicates are merged. */
  ghost predicate OpensTwo(p: Setting, n: Net, act: Action)
    requires Enabled(p, n, act)
  {
    act.OpenAt? && Held(p, n, act.device) == {p.a, p.b}
  }

  /** What is known after a step besides the invariant. */
  ghost predicate Grows(p: Setting, n: Net, act: Action, made: set<RoomId>, grown: set<RoomId>)
    requires Enabled(p, n, act) && WellFormed(p, Next(p, n, act))
  {
    var next := Next(p, n, act);
    && made <= grown && (act.OpenAt? ==> grown != {})
    && (OpensTwo(p, n, act) ==> MergedAt(p, next, act.device, grown))
    && (MergedAt(p, n, p.ends.x, made) ==> MergedAt(p, next, p.ends.x, grown))
    && (MergedAt(p, n, p.ends.y, made) ==> MergedAt(p, next, p.ends.y, grown))
  }

  /** What a step does at its own end and to the peer's line settles the whole net. */
  lemma ActorMoves(p: Setting, n: Net, act: Action, made: set<RoomId>, grown: set<RoomId>, held: set<RoomId>,
      posted: seq<Message>)
    requires Fine(p, n, made) && Enabled(p, n, act) && WellFormed(p, Next(p, n, act))
    requires Leaves(p, n, act, held, posted) && made <= grown && (act.OpenAt? ==> grown != {})
    requires var d, peer, next := act.device, Peer(p.ends, act.device), Next(p, n, act);
             && PairFine(p, Mine(p, d), Theirs(p, d), grown, held, next.line[d],
                  Held(p, n, peer), n.line[peer] + posted)
             && (MergedAt(p, n, d, made) || OpensTwo(p, n, act) ==> Merged(p, grown, held, next.line[d]))
             && (MergedAt(p, n, peer, made) ==> Merged(p, grown, Held(p, n, peer), n.line[peer] + posted))
    ensures Fine(p, Next(p, n, act), grown) && Grows(p, n, act, made, grown)
  {
    var d, peer, next := act.device, Peer(p.ends, act.device), Next(p, n, act);
    assert Peer(p.ends, peer) == d && Held(p, next, peer) == Held(p, n, peer);
    assert Clean(p, next, peer);
    assert FineFrom(p, next, d, grown);
    FineFromEither(p, next, d, grown);
  }

  lemma MakingFine(p: Setting, n: Net, act: Action, made: set<RoomId>) returns (grown: set<RoomId>)
    requires Fine(p, n, made) && Enabled(p, n, act) && act.OpenAt? && Held(p, n, act.device) == {}
    ensures WellFormed(p, Next(p, n, act)) && Fine(p, Next(p, n, act), grown) && Grows(p, n, act, made, grown)
  {
    var d, peer := act.device, Peer(p.ends, act.device);
    FineFromEither(p, n, d, made);
    var m := OpenNone(p, n, act);
    MakingKeeps(p, Mine(p, d), Theirs(p, d), made, {}, n.line[d], Held(p, n, peer), n.line[peer], m);
    grown := made + {Mine(p, d)};
    ActorMoves(p, n, act, made, grown, {Mine(p, d)}, [m]);
  }

  lemma MergingFine(p: Setting, n: Net, act: Action, made: set<RoomId>) returns (grown: set<RoomId>)
    requires Fine(p, n, made) && Enabled(p, n, act) && act.OpenAt? && Held(p, n, act.device) == {p.a, p.b}
    ensures WellFormed(p, Next(p, n, act)) && Fine(p, Next(p, n, act), grown) && Grows(p, n, act, made, grown)
  {
    var d, peer := act.device, Peer(p.ends, act.device);
    FineFromEither(p, n, d, made);
    var posted := OpenTwo(p, n, act);
    MergingKeeps(p, Mine(p, d), Theirs(p, d), made, Held(p, n, d), n.line[d], Held(p, n, peer), n.line[peer], posted);
    grown := made;
    ActorMoves(p, n, act, made, grown, {Least(p)}, posted);
  }

  lemma OpeningOneFine(p: Setting, n: Net, act: Action, made: set<RoomId>) returns (grown: set<RoomId>)
    requires Fine(p, n, made) && Enabled(p, n, act) && act.OpenAt?
    requires Held(p, n, act.device) != {} && Held(p, n, act.device) != {p.a, p.b}
    ensures WellFormed(p, Next(p, n, act)) && Fine(p, Next(p, n, act), grown) && Grows(p, n, act, made, grown)
  {
    var d, peer := act.device, Peer(p.ends, act.device);
    FineFromEither(p, n, d, made);
    var held := Held(p, n, d);
    var id := if p.a in held then p.a else p.b;
    assert held == {id};
    OpenOne(p, n, act, id);
    assert n.line[peer] + [] == n.line[peer];
    grown := made;
    ActorMoves(p, n, act, made, grown, held, []);
  }

  lemma DeliveryKeepsFine(p: Setting, n: Net, act: Action, made: set<RoomId>)
    requires Fine(p, n, made) && Enabled(p, n, act) && act.DeliverTo?
    ensures WellFormed(p, Next(p, n, act)) && Fine(p, Next(p, n, act), made) && Grows(p, n, act, made, made)
  {
    var d, peer := act.device, Peer(p.ends, act.device);
    var mine, theirs, held, line := Mine(p, d), Theirs(p, d), Held(p, n, d), n.line[d];
    var peerHeld, peerLine := Held(p, n, peer), n.line[peer];
    FineFromEither(p, n, d, made);
    if Heard(p, made, held, line) {
      LineFirst(p, line);
      var after, posted := HearLater(p, n, act);
      LaterKeeps(p, mine, theirs, made, held, line, peerHeld, peerLine, after, posted);
      ActorMoves(p, n, act, made, made, after, posted);
    } else {
      AnnouncementKeeps(p, mine, theirs, made, held, line, peerHeld, peerLine);
      HearAnnouncement(p, n, act);
      assert peerLine + [] == peerLine;
      ActorMoves(p, n, act, made, made, held + {theirs}, []);
    }
  }

  lemma StepKeepsFine(p: Setting, n: Net, act: Action, made: set<RoomId>) returns (grown: set<RoomId>)
    requires Fine(p, n, made) && Enabled(p, n, act)
    ensures WellFormed(p, Next(p, n, act)) && Fine(p, Next(p, n, act), grown) && Grows(p, n, act, made, grown)
  {
    if act.OpenAt? && Held(p, n, act.device) == {} {
      grown := MakingFine(p, n, act, made);
    } else if act.OpenAt? && Held(p, n, act.device) == {p.a, p.b} {
      grown := MergingFine(p, n, act, made);
    } else if act.OpenAt? {
      grown := OpeningOneFine(p, n, act, made);
    } else {
      DeliveryKeepsFine(p, n, act, made);
      grown := made;
    }
  }

  ghost predicate Runs(p: Setting, n: Net, acts: seq<Action>, end: Net)
    decreases |acts|
  {
    if acts == [] then end == n
    else Enabled(p, n, acts[0]) && Runs(p, Next(p, n, acts[0]), acts[1..], end)
  }

  /** Somewhere in the run an end opens while it holds both rooms. */
  ghost predicate TwoOpened(p: Setting, n: Net, acts: seq<Action>, end: Net)
    requires Runs(p, n, acts, end)
    decreases |acts|
  {
    acts != [] && (OpensTwo(p, n, acts[0]) || TwoOpened(p, Next(p, n, acts[0]), acts[1..], end))
  }

  predicate Opened(acts: seq<Action>) {
    exists act :: act in acts && act.OpenAt?
  }

  lemma OpenedFirst(acts: seq<Action>)
    requires acts != []
    ensures Opened(acts) <==> acts[0].OpenAt? || Opened(acts[1..])
  {
    assert acts == [acts[0]] + acts[1..];
  }

  ghost predicate SomeMerged(p: Setting, n: Net, made: set<RoomId>)
    requires WellFormed(p, n)
  {
    MergedAt(p, n, p.ends.x, made) || MergedAt(p, n, p.ends.y, made)
  }

  lemma {:induction false} RunKeepsFine(p: Setting, n: Net, acts: seq<Action>, end: Net, made: set<RoomId>)
    returns (grown: set<RoomId>)
    requires Fine(p, n, made) && Runs(p, n, acts, end)
    ensures Fine(p, end, grown) && made <= grown && (Opened(acts) ==> grown != {})
    ensures SomeMerged(p, n, made) || TwoOpened(p, n, acts, end) ==> SomeMerged(p, end, grown)
    decreases |acts|
  {
    if acts == [] {
      grown := made;
    } else {
      var next := Next(p, n, acts[0]);
      var step := StepKeepsFine(p, n, acts[0], made);
      OpenedFirst(acts);
      grown := RunKeepsFine(p, next, acts[1..], end, step);
    }
  }

  ghost predicate Idle(p: Setting, n: Net) {
    WellFormed(p, n) && n.line[p.ends.x] == n.line[p.ends.y] == []
  }

  /** Neither end has a room with the other yet, nor any under the ids they would mint. */
  ghost predicate FreshStart(p: Setting, n: Net) {
    && Idle(p, n) && p.ends.x != p.ends.y && Clean(p, n, p.ends.x) && Clean(p, n, p.ends.y)
    && Held(p, n, p.ends.x) == Held(p, n, p.ends.y) == {}
  }

  lemma StartFine(p: Setting, n: Net)
    requires FreshStart(p, n)
    ensures Fine(p, n, {})
  {
    assert {p.a, p.b} == {p.b, p.a};
  }

  /** From no room at all, each end opening when and as often as it likes, over ordered links:
      once nothing is under way both ends hold the same rooms of their own, among the two made;
      at least one if anybody opened; and only the least if an end opened while it held both.
      Every other room of either is as it was. */
  lemma {:induction false} CreationConverges(p: Setting, start: Net, acts: seq<Action>, end: Net)
    requires FreshStart(p, start) && Runs(p, start, acts, end)
    ensures WellFormed(p, end) && Clean(p, end, p.ends.x) && Clean(p, end, p.ends.y)
    ensures Idle(p, end) ==>
      && Held(p, end, p.ends.x) == Held(p, end, p.ends.y) <= {p.a, p.b}
      && (Held(p, end, p.ends.x) != {} <==> Opened(acts))
      && (TwoOpened(p, start, acts, end) ==> Held(p, end, p.ends.x) == {Least(p)})
  {
    StartFine(p, start);
    var made := RunKeepsFine(p, start, acts, end, {});
    assert acts != [] ==> acts[0] in acts && acts[0].OpenAt?;
  }
}
