/** Whose word counts for a room: what an invite does to a known and to an unknown room, and
    what nobody but the host can do in any run of messages. */
module RoomInvites {
  import opened Wrappers
  import opened DirectRooms

  lemma {:induction false} DedupOnce(members: seq<DeviceId>)
    ensures forall i, j :: 0 <= i < j < |Dedup(members)| ==> Dedup(members)[i] != Dedup(members)[j]
  {
    if members == [] {
    } else {
      DedupOnce(members[..|members| - 1]);
    }
  }

  lemma FindUnique(rooms: seq<Room>, room: Room)
    requires UniqueRooms(rooms) && room in rooms
    ensures Find(rooms, room.id) == Some(room)
  {
    SameRoom(rooms, room, Find(rooms, room.id).value);
  }

  /** Whether the room answers to somebody else than the sender: to its owner or, if none is
      recorded, to whom its id names. */
  predicate HostedElsewhere(dev: Device, room: Room, sender: DeviceId) {
    if room.owner.Some? then room.owner != Some(sender)
    else dev.anchor(room.id).Some? && dev.anchor(room.id) != Some(sender)
  }

  /** An invite to a known room from anyone but its known host changes nothing at all. */
  lemma InviteNeedsHost(dev: Device, s: State, sender: DeviceId, m: Message, room: Room)
    requires m.Invite? && UniqueRooms(s.rooms) && room in s.rooms && room.id == m.room
    requires HostedElsewhere(dev, room, sender)
    ensures OnInvite(dev, s, sender, m) == s
  {
    FindUnique(s.rooms, room);
  }

  /** The room as an invite states it: the members named and the sender, each once, the name
      and access where given, and the sender as owner where none is recorded. */
  ghost predicate RestatedBy(before: Room, after: Room, sender: DeviceId, m: Message)
    requires m.Invite?
  {
    && after.id == before.id == m.room
    && (forall d :: d in after.members <==> d in m.members || d == sender)
    && (forall i, j :: 0 <= i < j < |after.members| ==> after.members[i] != after.members[j])
    && after.name == (if m.name != "" then m.name else before.name)
    && after.access == (if m.access != None then m.access else before.access)
    && after.owner == (if before.owner != None then before.owner else Some(sender))
  }

  /** An invite from the host that lists this device: just that room is restated, in place. */
  lemma HostRestates(dev: Device, s: State, sender: DeviceId, m: Message, k: nat)
    requires m.Invite? && UniqueRooms(s.rooms) && k < |s.rooms| && s.rooms[k].id == m.room
    requires !HostedElsewhere(dev, s.rooms[k], sender) && (dev.me in m.members || dev.me == sender)
    ensures var after := OnInvite(dev, s, sender, m);
            && after.rooms == s.rooms[k := after.rooms[k]] && RestatedBy(s.rooms[k], after.rooms[k], sender, m)
            && after.joined == s.joined && after.chat == s.chat
  {
    FindUnique(s.rooms, s.rooms[k]);
    DedupOnce(m.members);
  }

  lemma {:induction false} SelectSplit(rooms: seq<Room>, ids: set<RoomId>, k: nat)
    requires k < |rooms| && rooms[k].id !in ids
    requires forall i :: 0 <= i < |rooms| && i != k ==> rooms[i].id in ids
    ensures Select(rooms, ids) == rooms[..k] + rooms[k + 1..]
  {
    var n := |rooms| - 1;
    if k == n {
      SelectAll(rooms[..n], ids);
    } else {
      SelectSplit(rooms[..n], ids, k);
      assert rooms[..n][..k] + rooms[..n][k + 1..] + [rooms[n]] == rooms[..k] + rooms[k + 1..];
    }
  }

  /** An invite from the host that does not list this device: just that room goes, and with
      it the call. */
  lemma HostRemoves(dev: Device, s: State, sender: DeviceId, m: Message, k: nat)
    requires m.Invite? && UniqueRooms(s.rooms) && k < |s.rooms| && s.rooms[k].id == m.room
    requires !HostedElsewhere(dev, s.rooms[k], sender) && dev.me !in m.members && dev.me != sender
    ensures var after := OnInvite(dev, s, sender, m);
            && after.rooms == s.rooms[..k] + s.rooms[k + 1..]
            && after.joined == s.joined - {m.room} && after.chat == s.chat
  {
    FindUnique(s.rooms, s.rooms[k]);
    SelectSplit(s.rooms, RoomIds(s.rooms) - {m.room}, k);
  }

  /** An invite to an unknown room adds it, answering to the sender, exactly if it lists this
      device; nothing else changes. */
  lemma UnknownInvite(dev: Device, s: State, sender: DeviceId, m: Message)
    requires m.Invite? && dev.me != sender && forall r :: r in s.rooms ==> r.id != m.room
    ensures var after := OnInvite(dev, s, sender, m);
            && (dev.me !in m.members ==> after == s)
            && (dev.me in m.members ==>
                  && |after.rooms| == |s.rooms| + 1 && after == s.(rooms := s.rooms + [after.rooms[|s.rooms|]])
                  && RestatedBy(Room(m.room, "Room", [], None, None), after.rooms[|s.rooms|], sender, m))
  {
    DedupOnce(m.members);
  }

  /** What this device keeps of one room. */
  ghost predicate KeepsRoom(s: State, after: State, room: Room) {
    && room in after.rooms && (room.id in after.joined <==> room.id in s.joined)
    && (room.id in after.chat <==> room.id in s.chat)
    && (room.id in s.chat ==> after.chat[room.id] == s.chat[room.id])
  }

  lemma InviteKeepsOthers(dev: Device, s: State, sender: DeviceId, m: Message, room: Room)
    requires m.Invite? && UniqueRooms(s.rooms) && room in s.rooms && dev.me != sender
    requires room.id == m.room ==> HostedElsewhere(dev, room, sender)
    ensures UniqueRooms(OnInvite(dev, s, sender, m).rooms) && KeepsRoom(s, OnInvite(dev, s, sender, m), room)
  {
    var found := Find(s.rooms, m.room);
    if found.None? {
      UnknownInvite(dev, s, sender, m);
    } else if HostedElsewhere(dev, found.value, sender) {
      InviteNeedsHost(dev, s, sender, m, found.value);
    } else {
      var k :| 0 <= k < |s.rooms| && s.rooms[k] == found.value;
      var at :| 0 <= at < |s.rooms| && s.rooms[at] == room;
      assert at != k;
      if dev.me in m.members {
        HostRestates(dev, s, sender, m, k);
        assert s.rooms[k := OnInvite(dev, s, sender, m).rooms[k]][at] == room;
      } else {
        HostRemoves(dev, s, sender, m, k);
      }
    }
  }

  lemma MergeKeepsOthers(dev: Device, s: State, sender: DeviceId, m: Message, room: Room)
    requires m.Merge? && UniqueRooms(s.rooms) && room in s.rooms && !IsDirect(dev, room, sender)
    ensures UniqueRooms(OnMerge(dev, s, sender, m).0.rooms) && KeepsRoom(s, OnMerge(dev, s, sender, m).0, room)
  {
    MergeTouchesOnlyThePair(dev, s, sender, m);
    NonDirectMembers(dev, s.rooms, sender);
    NonDirectMembers(dev, OnMerge(dev, s, sender, m).0.rooms, sender);
    if MergeTarget(dev, s, sender, m).Some? {
      MergeLeavesTarget(dev, s, sender, m);
    }
  }

  datatype Heard = Heard(sender: DeviceId, message: Message)

  /** What is kept after hearing some messages. */
  ghost function AfterAll(dev: Device, s: State, heard: seq<Heard>): State
    decreases |heard|
  {
    if heard == [] then s
    else AfterAll(dev, Receive(dev, s, heard[0].sender, heard[0].message).0, heard[1..])
  }

  /** A room its host says nothing about stays as it is, call and chat too, whatever everybody
      else says of it or of any other room; only the other half of a private pair may merge it. */
  lemma {:induction false} OnlyHostChangesRoom(dev: Device, s: State, heard: seq<Heard>, room: Room)
    requires UniqueRooms(s.rooms) && room in s.rooms
    requires forall h :: h in heard ==>
      && (h.message.Invite? && h.message.room == room.id ==> h.sender == dev.me || HostedElsewhere(dev, room, h.sender))
      && (h.message.Merge? ==> !IsDirect(dev, room, h.sender))
    ensures UniqueRooms(AfterAll(dev, s, heard).rooms) && KeepsRoom(s, AfterAll(dev, s, heard), room)
    decreases |heard|
  {
    if heard == [] {
    } else {
      var h := heard[0];
      var next := Receive(dev, s, h.sender, h.message).0;
      if h.sender == dev.me {
      } else if h.message.Invite? {
        InviteKeepsOthers(dev, s, h.sender, h.message, room);
      } else {
        MergeKeepsOthers(dev, s, h.sender, h.message, room);
      }
      OnlyHostChangesRoom(dev, next, heard[1..], room);
    }
  }
}
