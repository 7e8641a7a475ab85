/** The store's room list as it is kept in place: opening a private room, and the invite
    and merge messages, each step ending in the state DirectRooms gives for it. */
module RoomKeeping {
  import opened Wrappers
  import Sorting
  import opened DirectRooms

  lemma {:induction false} SelectTwice(rooms: seq<Room>, a: set<RoomId>, b: set<RoomId>)
    ensures Select(Select(rooms, a), b) == Select(rooms, a * b)
  {
    if rooms == [] {
    } else {
      var init, last := rooms[..|rooms| - 1], rooms[|rooms| - 1];
      SelectTwice(init, a, b);
      if last.id in a {
        assert (Select(init, a) + [last])[..|Select(init, a)|] == Select(init, a);
      }
    }
  }

  lemma {:induction false} SelectAgrees(rooms: seq<Room>, a: set<RoomId>, b: set<RoomId>)
    requires forall r :: r in rooms ==> (r.id in a <==> r.id in b)
    ensures Select(rooms, a) == Select(rooms, b)
  {
    if rooms == [] {
    } else {
      assert rooms[|rooms| - 1] in rooms;
      SelectAgrees(rooms[..|rooms| - 1], a, b);
    }
  }

  /** Dropping rooms in two goes is dropping them all at once. */
  lemma DropTwice(s: State, a: set<RoomId>, b: set<RoomId>)
    ensures Drop(Drop(s, a), b) == Drop(s, a + b)
  {
    var first := Select(s.rooms, RoomIds(s.rooms) - a);
    SelectMembers(s.rooms, RoomIds(s.rooms) - a);
    SelectTwice(s.rooms, RoomIds(s.rooms) - a, RoomIds(first) - b);
    forall r | r in s.rooms
      ensures r.id in (RoomIds(s.rooms) - a) * (RoomIds(first) - b) <==> r.id in RoomIds(s.rooms) - (a + b)
    {
      if r.id !in a {
        assert r in first;
      }
    }
    SelectAgrees(s.rooms, (RoomIds(s.rooms) - a) * (RoomIds(first) - b), RoomIds(s.rooms) - (a + b));
    assert s.chat - a - b == s.chat - (a + b);
  }

  lemma DropNothing(s: State)
    ensures Drop(s, {}) == s
  {
    SelectAll(s.rooms, RoomIds(s.rooms));
    assert RoomIds(s.rooms) - {} == RoomIds(s.rooms);
    assert s.joined - {} == s.joined && s.chat - {} == s.chat;
  }

  lemma DropNextDuplicate(s: State, duplicates: seq<Room>, i: nat)
    requires i < |duplicates|
    ensures Drop(Drop(s, RoomIds(duplicates[..i])), {duplicates[i].id}) == Drop(s, RoomIds(duplicates[..i + 1]))
  {
    DropTwice(s, RoomIds(duplicates[..i]), {duplicates[i].id});
    assert duplicates[..i + 1] == duplicates[..i] + [duplicates[i]];
    assert RoomIds(duplicates[..i + 1]) == RoomIds(duplicates[..i]) + {duplicates[i].id};
  }

  /** What the merge case's loop has dropped after its first i rooms. */
  function Dropped(dev: Device, rooms: seq<Room>, i: nat, sender: DeviceId, into: RoomId): set<RoomId>
    requires i <= |rooms|
  {
    DirectIds(dev, rooms[..i], sender) - {into}
  }

  lemma DropNextDirect(dev: Device, s: State, rooms: seq<Room>, i: nat, sender: DeviceId, into: RoomId)
    requires i < |rooms|
    ensures Drop(s, Dropped(dev, rooms, i + 1, sender, into)) ==
      if rooms[i].id != into && IsDirect(dev, rooms[i], sender)
      then Drop(Drop(s, Dropped(dev, rooms, i, sender, into)), {rooms[i].id})
      else Drop(s, Dropped(dev, rooms, i, sender, into))
  {
    var gone := Dropped(dev, rooms, i, sender, into);
    assert rooms[..i + 1] == rooms[..i] + [rooms[i]];
    if rooms[i].id != into && IsDirect(dev, rooms[i], sender) {
      DropTwice(s, gone, {rooms[i].id});
      assert Dropped(dev, rooms, i + 1, sender, into) == gone + {rooms[i].id};
    } else {
      assert Dropped(dev, rooms, i + 1, sender, into) == gone;
    }
  }

  lemma {:induction false} DedupDistinct(members: seq<DeviceId>)
    ensures |Dedup(members)| == |MemberSet(members)|
  {
    if members == [] {
    } else {
      var init, last := members[..|members| - 1], members[|members| - 1];
      DedupDistinct(init);
      assert members == init + [last];
      assert MemberSet(members) == MemberSet(init) + {last};
      assert last in MemberSet(init) <==> last in Dedup(init);
      assert last in MemberSet(init) ==> MemberSet(members) == MemberSet(init);
    }
  }

  class RoomStore {
    const dev: Device
    var rooms: seq<Room>
    var joined: set<RoomId>
    var chat: map<RoomId, seq<string>>
    /** The messages handed to the network so far. */
    var sent: seq<Envelope>

    ghost function View(): State
      reads this
    {
      State(rooms, joined, chat)
    }

    constructor (dev: Device)
      ensures this.dev == dev && View() == State([], {}, map[]) && sent == []
    {
      this.dev := dev;
      rooms, joined, chat, sent := [], {}, map[], [];
    }

    method RemoveMergedRoom(roomId: RoomId)
      modifies this`rooms, this`joined, this`chat
      ensures View() == Drop(old(View()), {roomId})
    {
      joined := joined - {roomId};
      rooms := Select(rooms, RoomIds(rooms) - {roomId});
      chat := chat - {roomId};
    }

    method RemoveMergedRooms(duplicates: seq<Room>)
      modifies this`rooms, this`joined, this`chat
      ensures View() == Drop(old(View()), RoomIds(duplicates))
    {
      ghost var before := View();
      DropNothing(before);
      assert RoomIds(duplicates[..0]) == {};
      var i: nat := 0;
      while i < |duplicates|
        invariant i <= |duplicates|
        invariant View() == Drop(before, RoomIds(duplicates[..i]))
      {
        DropNextDuplicate(before, duplicates, i);
        RemoveMergedRoom(duplicates[i].id);
        i := i + 1;
      }
      assert duplicates[..i] == duplicates;
    }

    method SendMerges(duplicates: seq<Room>, keep: Room, peer: DeviceId)
      modifies this`sent
      ensures sent == old(sent) + MergeNotices(duplicates, keep, peer)
    {
      var i: nat := 0;
      while i < |duplicates|
        invariant i <= |duplicates|
        invariant sent == old(sent) + MergeNotices(duplicates, keep, peer)[..i]
      {
        var notice := Merge(duplicates[i].id, keep.name, keep.id, keep.members, Some(AccessOf(keep)));
        sent := sent + [Envelope([peer], notice)];
        i := i + 1;
      }
    }

    method OpenDirectRoom(peer: DeviceId, minted: RoomId, title: string)
      modifies this
      ensures var (after, out) := Open(dev, old(View()), peer, minted, title);
              View() == after && sent == old(sent) + out
    {
      var direct := SortedDirect(dev, State(rooms, joined, chat), peer);
      if direct == [] {
        var room := Room(minted, title, [dev.me, peer], Some(dev.me), Some(InviteAccess));
        rooms := rooms + [room];
        sent := sent + Broadcast(dev, room);
        return;
      }
      var keep: Room, duplicates: seq<Room> := direct[0], direct[1..];
      if duplicates == [] {
        return;
      }
      RemoveMergedRooms(duplicates);
      SendMerges(duplicates, keep, peer);
      if IsHost(dev, keep) {
        sent := sent + Broadcast(dev, keep);
      }
    }

    method HandleInvite(sender: DeviceId, m: Message)
      requires m.Invite?
      modifies this`rooms, this`joined
      ensures View() == OnInvite(dev, old(View()), sender, m)
    {
      var members: seq<DeviceId> := Dedup(m.members);
      if sender !in members {
        members := members + [sender];
      }
      var listsMe := dev.me in members;
      var existing := Find(rooms, m.room);
      if existing.Some? {
        var host := HostOf(dev, existing.value);
        if host.Some? && host.value != sender {
          return;
        }
        if !listsMe {
          joined := joined - {m.room};
          rooms := Select(rooms, RoomIds(rooms) - {m.room});
          return;
        }
        var owner := if existing.value.owner.Some? then existing.value.owner else Some(sender);
        var access := if m.access.Some? then m.access else existing.value.access;
        rooms := Replace(rooms, Room(m.room, NameOr(m.name, existing.value.name), members, owner, access));
      } else if listsMe {
        rooms := rooms + [Room(m.room, NameOr(m.name, "Room"), members, Some(sender), m.access)];
      }
    }

    method HandleMerge(sender: DeviceId, m: Message)
      requires m.Merge?
      modifies this
      ensures var (after, out) := OnMerge(dev, old(View()), sender, m);
              View() == after && sent == old(sent) + out
    {
      DedupDistinct(m.members);
      var members: seq<DeviceId> := Dedup(m.members);
      var validPair := |members| == 2 && dev.me in members && sender in members;
      if !validPair || m.into == m.room {
        return;
      }
      var candidates: set<RoomId> := DirectIds(dev, rooms, sender);
      if m.room !in candidates && m.into !in candidates {
        return;
      }
      if exists id :: id in candidates && id < m.into {
        return;
      }
      var found := Find(rooms, m.into);
      if found.Some? && !IsDirect(dev, found.value, sender) {
        return;
      }
      var target: Room;
      if found.Some? {
        target := found.value;
      } else {
        var owner := dev.anchor(m.into);
        if owner.None? || (owner.value != dev.me && owner.value != sender) {
          return;
        }
        target := Room(m.into, NameOr(m.name, "Private room"), members, owner, m.access);
        rooms := rooms + [target];
      }
      assert MergeTarget(dev, old(View()), sender, m) == Some(target);
      DropDuplicates(sender, m.into);
      target := Room(m.into, NameOr(m.name, target.name), members, target.owner,
                     if m.access.Some? then m.access else target.access);
      rooms := Replace(rooms, target);
      if IsHost(dev, target) {
        sent := sent + Broadcast(dev, target);
      }
    }

    /** The merge case's loop over a copy of the rooms. */
    method DropDuplicates(sender: DeviceId, into: RoomId)
      modifies this`rooms, this`joined, this`chat
      ensures View() == Drop(old(View()), DirectIds(dev, old(rooms), sender) - {into})
    {
      var copy: seq<Room> := rooms;
      ghost var before := View();
      DropNothing(before);
      assert Dropped(dev, copy, 0, sender, into) == {};
      var i: nat := 0;
      while i < |copy|
        invariant i <= |copy|
        invariant View() == Drop(before, Dropped(dev, copy, i, sender, into))
      {
        DropNextDirect(dev, before, copy, i, sender, into);
        if copy[i].id != into && IsDirect(dev, copy[i], sender) {
          RemoveMergedRoom(copy[i].id);
        }
        i := i + 1;
      }
      assert copy[..i] == copy;
    }

    method HandleRoomMessage(sender: DeviceId, m: Message)
      modifies this
      ensures var (after, out) := Receive(dev, old(View()), sender, m);
              View() == after && sent == old(sent) + out
    {
      if sender == dev.me {
        return;
      }
      if m.Invite? {
        HandleInvite(sender, m);
      } else {
        HandleMerge(sender, m);
      }
    }
  }
}
