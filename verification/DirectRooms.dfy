/** Private two-device rooms: opening one, and merging the duplicates that concurrent
    creation leaves on both ends. */
module DirectRooms {
  import opened Wrappers
  import Sorting

  type DeviceId = nat
  type RoomId = nat

  datatype Access = OpenAccess | InviteAccess

  datatype Room = Room(id: RoomId, name: string, members: seq<DeviceId>, owner: Option<DeviceId>,
    access: Option<Access>)

  /** The room plane's messages; an empty name stands for a missing or blank one. */
  datatype Message =
    | Invite(room: RoomId, name: string, members: seq<DeviceId>, access: Option<Access>)
    | Merge(room: RoomId, name: string, into: RoomId, members: seq<DeviceId>, access: Option<Access>)

  datatype Envelope = Envelope(to: seq<DeviceId>, message: Message)

  /** What a device keeps: its rooms, the calls it is in, and each room's chat, which
      stands for all records kept by room id. */
  datatype State = State(rooms: seq<Room>, joined: set<RoomId>, chat: map<RoomId, seq<string>>)

  /** This device, and who a room id says hosts the room. */
  datatype Device = Device(me: DeviceId, anchor: RoomId -> Option<DeviceId>)

  function MemberSet(members: seq<DeviceId>): set<DeviceId> {
    set d | d in members
  }

  predicate ExactPair(members: seq<DeviceId>, a: DeviceId, b: DeviceId) {
    |MemberSet(members)| == 2 && a in members && b in members
  }

  /** `[...new Set(members)]` */
  function Dedup(members: seq<DeviceId>): (r: seq<DeviceId>)
    ensures forall d :: d in r <==> d in members
  {
    if members == [] then []
    else
      var init := Dedup(members[..|members| - 1]);
      var last := members[|members| - 1];
      assert members == members[..|members| - 1] + [last];
      if last in init then init else init + [last]
  }

  predicate IsDirect(dev: Device, room: Room, peer: DeviceId) {
    ExactPair(room.members, dev.me, peer)
  }

  function Select(rooms: seq<Room>, ids: set<RoomId>): seq<Room> {
    if rooms == [] then []
    else
      var init := Select(rooms[..|rooms| - 1], ids);
      if rooms[|rooms| - 1].id in ids then init + [rooms[|rooms| - 1]] else init
  }

  function RoomIds(rooms: seq<Room>): set<RoomId> {
    set r | r in rooms :: r.id
  }

  function DirectIds(dev: Device, rooms: seq<Room>, peer: DeviceId): set<RoomId> {
    set r | r in rooms && IsDirect(dev, r, peer) :: r.id
  }

  ghost predicate UniqueRooms(rooms: seq<Room>) {
    forall i, j :: 0 <= i < j < |rooms| ==> rooms[i].id != rooms[j].id
  }

  function Find(rooms: seq<Room>, id: RoomId): (r: Option<Room>)
    ensures r.Some? ==> r.value in rooms && r.value.id == id
    ensures r.None? ==> forall room :: room in rooms ==> room.id != id
  {
    if rooms == [] then None
    else if rooms[0].id == id then Some(rooms[0])
    else Find(rooms[1..], id)
  }

  function HostOf(dev: Device, room: Room): Option<DeviceId> {
    if room.owner.Some? then room.owner else dev.anchor(room.id)
  }

  predicate IsHost(dev: Device, room: Room) {
    HostOf(dev, room).None? || HostOf(dev, room).value == dev.me
  }

  function AccessOf(room: Room): Access {
    if room.access.Some? then room.access.value else InviteAccess
  }

  function InviteTo(room: Room): Message {
    Invite(room.id, room.name, room.members, Some(AccessOf(room)))
  }

  function OthersIn(dev: Device, members: seq<DeviceId>): seq<DeviceId> {
    if members == [] then []
    else if members[0] == dev.me then OthersIn(dev, members[1..])
    else [members[0]] + OthersIn(dev, members[1..])
  }

  /** broadcastRoom: to everyone listed but us. */
  function Broadcast(dev: Device, room: Room): seq<Envelope> {
    var others := OthersIn(dev, room.members);
    if others == [] then [] else [Envelope(others, InviteTo(room))]
  }

  /** Drop rooms and everything kept under their ids. */
  function Drop(s: State, ids: set<RoomId>): State {
    State(Select(s.rooms, RoomIds(s.rooms) - ids), s.joined - ids, s.chat - ids)
  }

  function Replace(rooms: seq<Room>, room: Room): seq<Room> {
    seq(|rooms|, i requires 0 <= i < |rooms| => if rooms[i].id == room.id then room else rooms[i])
  }

  function NameOr(name: string, fallback: string): string {
    if name == "" then fallback else name
  }

  // openDirectRoom

  function ById(a: Room, b: Room): bool {
    a.id < b.id
  }

  function MergeNotices(duplicates: seq<Room>, keep: Room, peer: DeviceId): seq<Envelope> {
    seq(|duplicates|, i requires 0 <= i < |duplicates| =>
      Envelope([peer], Merge(duplicates[i].id, keep.name, keep.id, keep.members, Some(AccessOf(keep)))))
  }

  /** The device's direct rooms with a peer, least id first. */
  function SortedDirect(dev: Device, s: State, peer: DeviceId): seq<Room> {
    Sorting.Sort(ById, Select(s.rooms, DirectIds(dev, s.rooms, peer)))
  }

  /** Opening with no room yet makes one; otherwise the least is kept, the rest are dropped
      here and named to the peer, and a host restates the room kept. */
  function Open(dev: Device, s: State, peer: DeviceId, minted: RoomId, title: string): (State, seq<Envelope>) {
    var direct := SortedDirect(dev, s, peer);
    if direct == [] then
      var room := Room(minted, title, [dev.me, peer], Some(dev.me), Some(InviteAccess));
      (s.(rooms := s.rooms + [room]), Broadcast(dev, room))
    else
      var keep, duplicates := direct[0], direct[1..];
      if duplicates == [] then (s, [])
      else (Drop(s, RoomIds(duplicates)),
            MergeNotices(duplicates, keep, peer) + if IsHost(dev, keep) then Broadcast(dev, keep) else [])
  }

  // handleRoomMessage

  function OnInvite(dev: Device, s: State, sender: DeviceId, m: Message): State
    requires m.Invite?
  {
    var listed := Dedup(m.members);
    var members := if sender in listed then listed else listed + [sender];
    match Find(s.rooms, m.room)
    case Some(existing) =>
      var host := HostOf(dev, existing);
      if host.Some? && host.value != sender then s
      else if dev.me !in members then
        s.(rooms := Select(s.rooms, RoomIds(s.rooms) - {m.room}), joined := s.joined - {m.room})
      else
        s.(rooms := Replace(s.rooms, Room(m.room, NameOr(m.name, existing.name), members,
             if existing.owner.Some? then existing.owner else Some(sender),
             if m.access.Some? then m.access else existing.access)))
    case None =>
      if dev.me !in members then s
      else s.(rooms := s.rooms + [Room(m.room, NameOr(m.name, "Room"), members, Some(sender), m.access)])
  }

  /** The room a merge would keep, or none if the merge is not one to believe. */
  function MergeTarget(dev: Device, s: State, sender: DeviceId, m: Message): Option<Room>
    requires m.Merge?
  {
    var known := DirectIds(dev, s.rooms, sender);
    if !ExactPair(m.members, dev.me, sender) || m.into == m.room then None
    else if m.room !in known && m.into !in known then None
    else if exists id :: id in known && id < m.into then None
    else
      match Find(s.rooms, m.into)
      case Some(target) => if IsDirect(dev, target, sender) then Some(target) else None
      case None =>
        var owner := dev.anchor(m.into);
        if owner == Some(dev.me) || owner == Some(sender)
        then Some(Room(m.into, NameOr(m.name, "Private room"), Dedup(m.members), owner, m.access))
        else None
  }

  function OnMerge(dev: Device, s: State, sender: DeviceId, m: Message): (State, seq<Envelope>)
    requires m.Merge?
  {
    match MergeTarget(dev, s, sender, m)
    case None => (s, [])
    case Some(target) =>
      var rooms := if Find(s.rooms, m.into).Some? then s.rooms else s.rooms + [target];
      var dropped := Drop(s.(rooms := rooms), DirectIds(dev, rooms, sender) - {m.into});
      var kept := Room(m.into, NameOr(m.name, target.name), Dedup(m.members), target.owner,
                       if m.access.Some? then m.access else target.access);
      (dropped.(rooms := Replace(dropped.rooms, kept)), if IsHost(dev, kept) then Broadcast(dev, kept) else [])
  }

  function Receive(dev: Device, s: State, sender: DeviceId, m: Message): (State, seq<Envelope>) {
    if sender == dev.me then (s, [])
    else if m.Invite? then (OnInvite(dev, s, sender, m), [])
    else OnMerge(dev, s, sender, m)
  }

  // What these do to a room list

  lemma {:induction false} SelectMembers(rooms: seq<Room>, ids: set<RoomId>)
    ensures forall r :: r in Select(rooms, ids) <==> r in rooms && r.id in ids
    ensures UniqueRooms(rooms) ==> UniqueRooms(Select(rooms, ids))
  {
    if rooms == [] {
    } else {
      var init := rooms[..|rooms| - 1];
      SelectMembers(init, ids);
      assert rooms == init + [rooms[|rooms| - 1]];
      if UniqueRooms(rooms) {
        forall i | 0 <= i < |Select(init, ids)| ensures Select(init, ids)[i].id != rooms[|rooms| - 1].id {
          assert Select(init, ids)[i] in init;
        }
      }
    }
  }

  lemma {:induction false} SelectAll(rooms: seq<Room>, ids: set<RoomId>)
    requires forall r :: r in rooms ==> r.id in ids
    ensures Select(rooms, ids) == rooms
  {
    if rooms == [] {
    } else {
      assert rooms[|rooms| - 1] in rooms;
      SelectAll(rooms[..|rooms| - 1], ids);
      assert rooms == rooms[..|rooms| - 1] + [rooms[|rooms| - 1]];
    }
  }

  /** The rooms that are no private pair with this peer. */
  function NonDirect(dev: Device, rooms: seq<Room>, peer: DeviceId): seq<Room> {
    if rooms == [] then []
    else
      var init := NonDirect(dev, rooms[..|rooms| - 1], peer);
      var last := rooms[|rooms| - 1];
      if IsDirect(dev, last, peer) then init else init + [last]
  }

  lemma {:induction false} NonDirectMembers(dev: Device, rooms: seq<Room>, peer: DeviceId)
    ensures forall r :: r in NonDirect(dev, rooms, peer) <==> r in rooms && !IsDirect(dev, r, peer)
  {
    if rooms == [] {
    } else {
      NonDirectMembers(dev, rooms[..|rooms| - 1], peer);
      assert rooms == rooms[..|rooms| - 1] + [rooms[|rooms| - 1]];
    }
  }

  lemma SameRoom(rooms: seq<Room>, a: Room, b: Room)
    requires UniqueRooms(rooms) && a in rooms && b in rooms && a.id == b.id
    ensures a == b
  {
  }

  lemma {:induction false} DropKeepsNonDirect(dev: Device, rooms: seq<Room>, peer: DeviceId, ids: set<RoomId>)
    requires forall r :: r in rooms && !IsDirect(dev, r, peer) ==> r.id in ids
    ensures NonDirect(dev, Select(rooms, ids), peer) == NonDirect(dev, rooms, peer)
  {
    if rooms == [] {
    } else {
      var init, last := rooms[..|rooms| - 1], rooms[|rooms| - 1];
      assert rooms == init + [last];
      DropKeepsNonDirect(dev, init, peer, ids);
      if last.id in ids {
        assert Select(rooms, ids)[..|Select(rooms, ids)| - 1] == Select(init, ids);
      }
    }
  }

  lemma {:induction false} ReplaceKeepsNonDirect(dev: Device, rooms: seq<Room>, peer: DeviceId, room: Room)
    requires IsDirect(dev, room, peer)
    requires forall r :: r in rooms && r.id == room.id ==> IsDirect(dev, r, peer)
    ensures NonDirect(dev, Replace(rooms, room), peer) == NonDirect(dev, rooms, peer)
  {
    if rooms == [] {
    } else {
      var init, last := rooms[..|rooms| - 1], rooms[|rooms| - 1];
      assert rooms == init + [last];
      ReplaceKeepsNonDirect(dev, init, peer, room);
      assert Replace(rooms, room)[..|rooms| - 1] == Replace(init, room);
    }
  }

  lemma ReplaceMembers(rooms: seq<Room>, room: Room)
    ensures |Replace(rooms, room)| == |rooms|
    ensures forall r :: r in Replace(rooms, room) <==>
      (r in rooms && r.id != room.id) || (r == room && exists q :: q in rooms && q.id == room.id)
    ensures UniqueRooms(rooms) ==> UniqueRooms(Replace(rooms, room))
  {
    var after := Replace(rooms, room);
    forall r | r in after
      ensures (r in rooms && r.id != room.id) || (r == room && exists q :: q in rooms && q.id == room.id)
    {
      var i :| 0 <= i < |after| && after[i] == r;
      assert rooms[i] in rooms;
    }
    forall r | r in rooms ensures (if r.id == room.id then room else r) in after {
      var i :| 0 <= i < |rooms| && rooms[i] == r;
      assert after[i] == if r.id == room.id then room else r;
    }
  }

  lemma DedupKeepsPair(members: seq<DeviceId>, a: DeviceId, b: DeviceId)
    ensures ExactPair(Dedup(members), a, b) <==> ExactPair(members, a, b)
  {
    assert MemberSet(Dedup(members)) == MemberSet(members);
  }

  /** Dropping every direct room but one. */
  lemma DropOthers(dev: Device, rooms: seq<Room>, peer: DeviceId, keep: RoomId)
    requires UniqueRooms(rooms) && keep in DirectIds(dev, rooms, peer)
    ensures var left := Select(rooms, RoomIds(rooms) - (DirectIds(dev, rooms, peer) - {keep}));
            && UniqueRooms(left)
            && (forall r :: r in left <==> r in rooms && (IsDirect(dev, r, peer) ==> r.id == keep))
            && NonDirect(dev, left, peer) == NonDirect(dev, rooms, peer)
  {
    var ids := RoomIds(rooms) - (DirectIds(dev, rooms, peer) - {keep});
    SelectMembers(rooms, ids);
    forall r | r in rooms ensures r.id in ids <==> (IsDirect(dev, r, peer) ==> r.id == keep) {
      if r.id in DirectIds(dev, rooms, peer) {
        var q :| q in rooms && IsDirect(dev, q, peer) && q.id == r.id;
        SameRoom(rooms, q, r);
      }
    }
    DropKeepsNonDirect(dev, rooms, peer, ids);
  }

  /** The room list a merge works on: the target is there, and direct. */
  lemma MergeTargetIn(dev: Device, s: State, sender: DeviceId, m: Message)
    requires m.Merge? && UniqueRooms(s.rooms) && MergeTarget(dev, s, sender, m).Some?
    ensures var target := MergeTarget(dev, s, sender, m).value;
            var rooms := if Find(s.rooms, m.into).Some? then s.rooms else s.rooms + [target];
            && UniqueRooms(rooms) && target in rooms && target.id == m.into && IsDirect(dev, target, sender)
            && NonDirect(dev, rooms, sender) == NonDirect(dev, s.rooms, sender)
  {
    DedupKeepsPair(m.members, dev.me, sender);
    var target := MergeTarget(dev, s, sender, m).value;
    if Find(s.rooms, m.into).None? {
      assert (s.rooms + [target])[..|s.rooms|] == s.rooms;
    }
  }

  /** Replacing the one direct room by another copy of it. */
  lemma ReplaceOnlyDirect(dev: Device, left: seq<Room>, peer: DeviceId, kept: Room)
    requires UniqueRooms(left) && IsDirect(dev, kept, peer)
    requires forall r :: r in left ==> (IsDirect(dev, r, peer) <==> r.id == kept.id)
    requires exists r :: r in left && r.id == kept.id
    ensures var after := Replace(left, kept);
            && UniqueRooms(after) && DirectIds(dev, after, peer) == {kept.id}
            && NonDirect(dev, after, peer) == NonDirect(dev, left, peer)
  {
    ReplaceMembers(left, kept);
    ReplaceKeepsNonDirect(dev, left, peer, kept);
    var r :| r in left && r.id == kept.id;
    assert kept in Replace(left, kept);
  }

  /** A merge that is believed leaves exactly the room named, and no other room differs. */
  lemma MergeLeavesTarget(dev: Device, s: State, sender: DeviceId, m: Message)
    requires m.Merge? && UniqueRooms(s.rooms) && MergeTarget(dev, s, sender, m).Some?
    ensures var after := OnMerge(dev, s, sender, m).0;
            && UniqueRooms(after.rooms)
            && DirectIds(dev, after.rooms, sender) == {m.into}
            && NonDirect(dev, after.rooms, sender) == NonDirect(dev, s.rooms, sender)
  {
    var target := MergeTarget(dev, s, sender, m).value;
    var rooms := if Find(s.rooms, m.into).Some? then s.rooms else s.rooms + [target];
    var left := Select(rooms, RoomIds(rooms) - (DirectIds(dev, rooms, sender) - {m.into}));
    var kept := Room(m.into, NameOr(m.name, target.name), Dedup(m.members), target.owner,
                     if m.access.Some? then m.access else target.access);
    MergeTargetIn(dev, s, sender, m);
    DropOthers(dev, rooms, sender, m.into);
    DedupKeepsPair(m.members, dev.me, sender);
    assert target in left;
    forall r | r in left && r.id == m.into ensures IsDirect(dev, r, sender) {
      SameRoom(rooms, r, target);
    }
    ReplaceOnlyDirect(dev, left, sender, kept);
  }

  /** Everything kept under the ids of rooms that are no private pair with the sender. */
  ghost predicate SameElsewhere(dev: Device, s: State, after: State, peer: DeviceId) {
    && NonDirect(dev, after.rooms, peer) == NonDirect(dev, s.rooms, peer)
    && forall r :: r in s.rooms && !IsDirect(dev, r, peer) ==>
         && (r.id in after.joined <==> r.id in s.joined)
         && (r.id in after.chat <==> r.id in s.chat)
         && (r.id in s.chat ==> after.chat[r.id] == s.chat[r.id])
  }

  /** Whatever a merge message says and whoever sent it: no room but the exact pair of this
      device and the sender changes, is added or is lost, nor anything kept for one. */
  lemma MergeTouchesOnlyThePair(dev: Device, s: State, sender: DeviceId, m: Message)
    requires m.Merge? && UniqueRooms(s.rooms)
    ensures SameElsewhere(dev, s, OnMerge(dev, s, sender, m).0, sender)
  {
    if MergeTarget(dev, s, sender, m).Some? {
      MergeLeavesTarget(dev, s, sender, m);
      MergeTargetIn(dev, s, sender, m);
      var target := MergeTarget(dev, s, sender, m).value;
      var rooms := if Find(s.rooms, m.into).Some? then s.rooms else s.rooms + [target];
      forall r | r in s.rooms && !IsDirect(dev, r, sender) ensures r.id !in DirectIds(dev, rooms, sender) {
        if r.id in DirectIds(dev, rooms, sender) {
          var q :| q in rooms && IsDirect(dev, q, sender) && q.id == r.id;
          SameRoom(rooms, q, r);
        }
      }
    }
  }

  /** The rooms openDirectRoom sorts: the direct ones, least id first. */
  lemma DirectRoomsSorted(dev: Device, s: State, peer: DeviceId)
    requires UniqueRooms(s.rooms)
    ensures var direct := SortedDirect(dev, s, peer);
            && (forall r :: r in direct <==> r in s.rooms && IsDirect(dev, r, peer))
            && (forall i, j :: 0 <= i < j < |direct| ==> direct[i].id < direct[j].id)
            && RoomIds(direct) == DirectIds(dev, s.rooms, peer)
  {
    var ids := DirectIds(dev, s.rooms, peer);
    var chosen := Select(s.rooms, ids);
    var direct := SortedDirect(dev, s, peer);
    SelectMembers(s.rooms, ids);
    Sorting.SortSorts(ById, chosen);
    Sorting.DistinctPermutes(chosen, direct);
    forall r ensures r in direct <==> r in chosen {
      assert r in direct <==> r in multiset(chosen);
    }
    forall r | r in chosen ensures IsDirect(dev, r, peer) {
      var q :| q in s.rooms && IsDirect(dev, q, peer) && q.id == r.id;
      SameRoom(s.rooms, q, r);
    }
    forall i, j | 0 <= i < j < |direct| ensures direct[i].id < direct[j].id {
      assert !ById(direct[j], direct[i]) && direct[i] != direct[j];
      if direct[i].id == direct[j].id {
        SameRoom(s.rooms, direct[i], direct[j]);
      }
    }
  }

  lemma OneId(direct: seq<Room>, id: RoomId)
    requires RoomIds(direct) == {id} && forall i, j :: 0 <= i < j < |direct| ==> direct[i].id < direct[j].id
    ensures |direct| == 1 && direct[0].id == id
  {
    assert id in RoomIds(direct);
    var last := |direct| - 1;
    assert direct[0].id in RoomIds(direct) && direct[last].id in RoomIds(direct);
  }

  ghost predicate IsLeast(id: RoomId, ids: set<RoomId>) {
    id in ids && forall other :: other in ids ==> id <= other
  }

  /** What opening does when rooms with the peer exist: the least stays, every other is
      named to the peer as merged into it, and rooms elsewhere are untouched. */
  lemma OpenKeepsLeast(dev: Device, s: State, peer: DeviceId, minted: RoomId, title: string)
    requires UniqueRooms(s.rooms) && DirectIds(dev, s.rooms, peer) != {}
    ensures var after := Open(dev, s, peer, minted, title).0;
            var keep := SortedDirect(dev, s, peer);
            && keep != [] && IsLeast(keep[0].id, DirectIds(dev, s.rooms, peer))
            && UniqueRooms(after.rooms) && DirectIds(dev, after.rooms, peer) == {keep[0].id}
            && NonDirect(dev, after.rooms, peer) == NonDirect(dev, s.rooms, peer)
            && keep[0] in after.rooms
  {
    var direct := SortedDirect(dev, s, peer);
    var ids := DirectIds(dev, s.rooms, peer);
    DirectRoomsSorted(dev, s, peer);
    assert RoomIds(direct) == ids;
    assert direct != [];
    var keep := direct[0];
    FirstIsLeast(direct);
    DropOthers(dev, s.rooms, peer, keep.id);
    RestIds(direct);
    assert RoomIds(direct[1..]) == ids - {keep.id};
  }

  lemma FirstIsLeast(direct: seq<Room>)
    requires direct != [] && forall i, j :: 0 <= i < j < |direct| ==> direct[i].id < direct[j].id
    ensures direct[0] in direct && IsLeast(direct[0].id, RoomIds(direct))
  {
    forall other | other in RoomIds(direct) ensures direct[0].id <= other {
      var r :| r in direct && r.id == other;
      var i :| 0 <= i < |direct| && direct[i] == r;
    }
  }

  lemma RestIds(direct: seq<Room>)
    requires direct != [] && forall i, j :: 0 <= i < j < |direct| ==> direct[i].id < direct[j].id
    ensures RoomIds(direct[1..]) == RoomIds(direct) - {direct[0].id}
  {
    forall id | id in RoomIds(direct) && id != direct[0].id ensures id in RoomIds(direct[1..]) {
      var r :| r in direct && r.id == id;
      var i :| 0 <= i < |direct| && direct[i] == r;
      assert direct[1..][i - 1] == r;
    }
  }
}
