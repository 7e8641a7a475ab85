/** What opening a private room and hearing of a merge keep, forget and tell: which merges are
    believed, and who restates the room that is kept. */
module RoomNotices {
  import opened Wrappers
  import opened DirectRooms

  /** This device answers for the room: it is the owner, or nobody is and the id names it or
      nobody. */
  ghost predicate AnswersFor(dev: Device, room: Room) {
    || room.owner == Some(dev.me)
    || (room.owner == None && (dev.anchor(room.id) == None || dev.anchor(room.id) == Some(dev.me)))
  }

  lemma HostIffAnswers(dev: Device, room: Room)
    ensures IsHost(dev, room) <==> AnswersFor(dev, room)
  {
  }

  /** The room as it is restated: its own id, name and roster, and its access, by invitation if
      none is recorded. */
  ghost predicate Restates(m: Message, room: Room) {
    && m.Invite? && m.room == room.id && m.name == room.name && m.members == room.members
    && m.access == Some(if room.access == None then InviteAccess else room.access.value)
  }

  /** One envelope that restates the room, to each member but this device. */
  ghost predicate OneRestatement(dev: Device, sent: seq<Envelope>, room: Room) {
    && |sent| == 1 && Restates(sent[0].message, room)
    && forall d :: d in sent[0].to <==> d in room.members && d != dev.me
  }

  lemma {:induction false} OthersAre(dev: Device, members: seq<DeviceId>)
    ensures forall d :: d in OthersIn(dev, members) <==> d in members && d != dev.me
  {
    if members == [] {
    } else {
      OthersAre(dev, members[1..]);
      assert members == [members[0]] + members[1..];
    }
  }

  lemma RestatedIfAnswering(dev: Device, room: Room, peer: DeviceId)
    requires IsDirect(dev, room, peer) && dev.me != peer
    ensures OneRestatement(dev, Broadcast(dev, room), room)
  {
    OthersAre(dev, room.members);
    assert peer in OthersIn(dev, room.members);
  }

  // Opening

  /** The notice that one direct room has been merged into another. */
  ghost predicate TellsMerge(e: Envelope, peer: DeviceId, gone: RoomId, keep: Room) {
    && e.to == [peer] && e.message.Merge? && e.message.room == gone && e.message.into == keep.id
    && e.message.name == keep.name && e.message.members == keep.members
    && e.message.access == Some(if keep.access == None then InviteAccess else keep.access.value)
  }

  /** Each of these rooms is told of once, and no other. */
  ghost predicate TellAll(notices: seq<Envelope>, peer: DeviceId, gone: set<RoomId>, keep: Room) {
    && (forall id :: id in gone ==> exists i :: 0 <= i < |notices| && TellsMerge(notices[i], peer, id, keep))
    && (forall i :: 0 <= i < |notices| ==>
          notices[i].message.room in gone && TellsMerge(notices[i], peer, notices[i].message.room, keep))
    && forall i, j :: 0 <= i < j < |notices| ==> notices[i].message.room != notices[j].message.room
  }

  lemma OpenSent(dev: Device, s: State, peer: DeviceId, minted: RoomId, title: string)
    requires |SortedDirect(dev, s, peer)| > 1
    ensures var direct := SortedDirect(dev, s, peer);
            Open(dev, s, peer, minted, title).1 ==
              MergeNotices(direct[1..], direct[0], peer)
              + if IsHost(dev, direct[0]) then Broadcast(dev, direct[0]) else []
  {
  }

  /** Opening with several rooms: the peer is told of each but the least that it is merged into
      the least, once each; and if this device answers for the least it restates it last. */
  lemma OpenTells(dev: Device, s: State, peer: DeviceId, minted: RoomId, title: string, keep: Room)
    returns (notices: seq<Envelope>, rest: seq<Envelope>)
    requires UniqueRooms(s.rooms) && dev.me != peer && keep in s.rooms && IsDirect(dev, keep, peer)
    requires IsLeast(keep.id, DirectIds(dev, s.rooms, peer)) && DirectIds(dev, s.rooms, peer) != {keep.id}
    ensures Open(dev, s, peer, minted, title).1 == notices + rest
    ensures TellAll(notices, peer, DirectIds(dev, s.rooms, peer) - {keep.id}, keep)
    ensures if AnswersFor(dev, keep) then OneRestatement(dev, rest, keep) else rest == []
  {
    var direct := SortedDirect(dev, s, peer);
    LeastFirst(dev, s, peer, minted, title);
    OpenSent(dev, s, peer, minted, title);
    SameRoom(s.rooms, keep, direct[0]);
    HostIffAnswers(dev, keep);
    RestatedIfAnswering(dev, keep, peer);
    NoticesTell(direct, peer);
    notices := MergeNotices(direct[1..], keep, peer);
    rest := if IsHost(dev, keep) then Broadcast(dev, keep) else [];
  }

  /** The rooms that opening sorts: the least comes first, the others after it. */
  lemma LeastFirst(dev: Device, s: State, peer: DeviceId, minted: RoomId, title: string)
    requires UniqueRooms(s.rooms) && DirectIds(dev, s.rooms, peer) != {}
    ensures var direct, ids := SortedDirect(dev, s, peer), DirectIds(dev, s.rooms, peer);
            && direct != [] && direct[0] in s.rooms && IsLeast(direct[0].id, ids)
            && RoomIds(direct) == ids && RoomIds(direct[1..]) == ids - {direct[0].id}
            && (forall i, j :: 0 <= i < j < |direct| ==> direct[i].id < direct[j].id)
            && (|direct| == 1 <==> ids == {direct[0].id})
  {
    var direct := SortedDirect(dev, s, peer);
    DirectRoomsSorted(dev, s, peer);
    OpenKeepsLeast(dev, s, peer, minted, title);
    RestIds(direct);
    assert direct[0] in direct;
    assert |direct| > 1 ==> direct[1..][0].id in RoomIds(direct[1..]);
  }

  lemma NoticesTell(direct: seq<Room>, peer: DeviceId)
    requires direct != [] && forall i, j :: 0 <= i < j < |direct| ==> direct[i].id < direct[j].id
    ensures TellAll(MergeNotices(direct[1..], direct[0], peer), peer, RoomIds(direct[1..]), direct[0])
  {
    RestInOrder(direct);
    NoticesTellRest(direct[1..], direct[0], peer);
  }

  lemma RestInOrder(direct: seq<Room>)
    requires direct != [] && forall i, j :: 0 <= i < j < |direct| ==> direct[i].id < direct[j].id
    ensures forall i, j :: 0 <= i < j < |direct[1..]| ==> direct[1..][i].id < direct[1..][j].id
  {
  }

  lemma NoticesTellRest(rest: seq<Room>, keep: Room, peer: DeviceId)
    requires forall i, j :: 0 <= i < j < |rest| ==> rest[i].id < rest[j].id
    ensures TellAll(MergeNotices(rest, keep, peer), peer, RoomIds(rest), keep)
  {
    var notices := MergeNotices(rest, keep, peer);
    forall i | 0 <= i < |rest| ensures TellsMerge(notices[i], peer, rest[i].id, keep) && rest[i].id in RoomIds(rest) {
      assert rest[i] in rest;
    }
    forall id | id in RoomIds(rest) ensures exists i :: 0 <= i < |notices| && TellsMerge(notices[i], peer, id, keep) {
      var r :| r in rest && r.id == id;
      var k :| 0 <= k < |rest| && rest[k] == r;
      assert TellsMerge(notices[k], peer, id, keep);
    }
  }

  /** What is kept by room id, once some rooms are gone: nothing of those, all of the others. */
  ghost predicate Forgets(s: State, after: State, gone: set<RoomId>) {
    && after.joined == s.joined - gone && after.chat.Keys == s.chat.Keys - gone
    && forall id :: id in after.chat ==> after.chat[id] == s.chat[id]
  }

  /** Opening forgets the call and the chat of each room merged away, and of no other; with one
      room or none it forgets nothing. */
  lemma OpenForgets(dev: Device, s: State, peer: DeviceId, minted: RoomId, title: string, least: RoomId)
    requires UniqueRooms(s.rooms)
    ensures IsLeast(least, DirectIds(dev, s.rooms, peer)) ==>
      Forgets(s, Open(dev, s, peer, minted, title).0, DirectIds(dev, s.rooms, peer) - {least})
    ensures DirectIds(dev, s.rooms, peer) == {} ==> Forgets(s, Open(dev, s, peer, minted, title).0, {})
  {
    var direct := SortedDirect(dev, s, peer);
    if DirectIds(dev, s.rooms, peer) == {} {
      DirectRoomsSorted(dev, s, peer);
      assert direct != [] ==> direct[0] in direct;
    } else {
      LeastFirst(dev, s, peer, minted, title);
    }
  }

  // Merging

  /** A merge is believed if it lists just this device and its sender, names another room than it
      drops, one of the two known as private with the sender, keeps none greater than one known,
      and keeps a known room only if it is private with the sender, an unknown one only if its
      id names one of the two as host. */
  ghost predicate Believed(dev: Device, s: State, sender: DeviceId, m: Message)
    requires m.Merge?
  {
    && |MemberSet(m.members)| == 2 && dev.me in m.members && sender in m.members
    && m.into != m.room
    && (exists r :: r in s.rooms && IsDirect(dev, r, sender) && (r.id == m.room || r.id == m.into))
    && (forall r :: r in s.rooms && IsDirect(dev, r, sender) ==> m.into <= r.id)
    && (forall r :: r in s.rooms && r.id == m.into ==> IsDirect(dev, r, sender))
    && ((forall r :: r in s.rooms ==> r.id != m.into) ==>
          dev.anchor(m.into) == Some(dev.me) || dev.anchor(m.into) == Some(sender))
  }

  lemma BelievedIffTarget(dev: Device, s: State, sender: DeviceId, m: Message)
    requires m.Merge? && UniqueRooms(s.rooms)
    ensures MergeTarget(dev, s, sender, m).Some? <==> Believed(dev, s, sender, m)
    ensures forall r :: Believed(dev, s, sender, m) && r in s.rooms && r.id == m.into ==>
      MergeTarget(dev, s, sender, m) == Some(r)
  {
    var known := DirectIds(dev, s.rooms, sender);
    if Believed(dev, s, sender, m) {
      var r :| r in s.rooms && IsDirect(dev, r, sender) && (r.id == m.room || r.id == m.into);
      assert r.id in known;
    }
    if MergeTarget(dev, s, sender, m).Some? {
      forall r | r in s.rooms && IsDirect(dev, r, sender) ensures m.into <= r.id {
        assert r.id in known;
      }
    }
    var found := Find(s.rooms, m.into);
    if found.Some? {
      forall r | r in s.rooms && r.id == m.into ensures r == found.value {
        SameRoom(s.rooms, r, found.value);
      }
    }
  }

  /** The room a believed merge keeps: as it names and lists it, with the access it gives if any,
      and with the host it had, or if it was unknown the one its id names. */
  ghost predicate KeptRoom(dev: Device, s: State, m: Message, kept: Room)
    requires m.Merge?
  {
    && kept.id == m.into
    && (forall d :: d in kept.members <==> d in m.members)
    && (forall r :: r in s.rooms && r.id == m.into ==>
          && kept.name == (if m.name != "" then m.name else r.name) && kept.owner == r.owner
          && kept.access == (if m.access != None then m.access else r.access))
    && ((forall r :: r in s.rooms ==> r.id != m.into) ==>
          && kept.name == (if m.name != "" then m.name else "Private room") && kept.owner == dev.anchor(m.into)
          && kept.access == m.access)
  }

  /** What a merge message does: nothing at all unless it is believed; then of the rooms with the
      sender just the one named is left, restated if this device answers for it, and the call and
      chat of the others are forgotten. */
  lemma MergeMeans(dev: Device, s: State, sender: DeviceId, m: Message) returns (kept: Room)
    requires m.Merge? && UniqueRooms(s.rooms) && dev.me != sender
    ensures !Believed(dev, s, sender, m) ==> OnMerge(dev, s, sender, m) == (s, [])
    ensures Believed(dev, s, sender, m) ==>
      var (after, sent) := OnMerge(dev, s, sender, m);
      && kept in after.rooms && KeptRoom(dev, s, m, kept) && DirectIds(dev, after.rooms, sender) == {m.into}
      && NonDirect(dev, after.rooms, sender) == NonDirect(dev, s.rooms, sender)
      && Forgets(s, after, DirectIds(dev, s.rooms, sender) - {m.into})
      && (if AnswersFor(dev, kept) then OneRestatement(dev, sent, kept) else sent == [])
  {
    BelievedIffTarget(dev, s, sender, m);
    kept := Room(m.into, m.name, m.members, None, m.access);
    if Believed(dev, s, sender, m) {
      var target := MergeTarget(dev, s, sender, m).value;
      kept := Room(m.into, NameOr(m.name, target.name), Dedup(m.members), target.owner,
                   if m.access.Some? then m.access else target.access);
      MergeLeavesTarget(dev, s, sender, m);
      KeptIsIn(dev, s, sender, m, kept);
      DedupKeepsPair(m.members, dev.me, sender);
      HostIffAnswers(dev, kept);
      RestatedIfAnswering(dev, kept, sender);
      MergeForgets(dev, s, sender, m);
    }
  }

  lemma KeptIsIn(dev: Device, s: State, sender: DeviceId, m: Message, kept: Room)
    requires m.Merge? && UniqueRooms(s.rooms) && MergeTarget(dev, s, sender, m).Some?
    requires var target := MergeTarget(dev, s, sender, m).value;
             kept == Room(m.into, NameOr(m.name, target.name), Dedup(m.members), target.owner,
               if m.access.Some? then m.access else target.access)
    ensures kept in OnMerge(dev, s, sender, m).0.rooms
  {
    var target := MergeTarget(dev, s, sender, m).value;
    var rooms := if Find(s.rooms, m.into).Some? then s.rooms else s.rooms + [target];
    MergeTargetIn(dev, s, sender, m);
    var gone := DirectIds(dev, rooms, sender) - {m.into};
    SelectMembers(rooms, RoomIds(rooms) - gone);
    assert target in Select(rooms, RoomIds(rooms) - gone);
    ReplaceMembers(Select(rooms, RoomIds(rooms) - gone), kept);
  }

  lemma MergeForgets(dev: Device, s: State, sender: DeviceId, m: Message)
    requires m.Merge? && UniqueRooms(s.rooms) && MergeTarget(dev, s, sender, m).Some?
    ensures Forgets(s, OnMerge(dev, s, sender, m).0, DirectIds(dev, s.rooms, sender) - {m.into})
  {
    var target := MergeTarget(dev, s, sender, m).value;
    var rooms := if Find(s.rooms, m.into).Some? then s.rooms else s.rooms + [target];
    MergeTargetIn(dev, s, sender, m);
    SameButOne(dev, s.rooms, sender, target);
    MergeDrops(dev, s, sender, m, DirectIds(dev, rooms, sender) - {m.into});
    LeavesOthers(s, OnMerge(dev, s, sender, m).0, DirectIds(dev, s.rooms, sender) - {m.into});
  }

  lemma MergeDrops(dev: Device, s: State, sender: DeviceId, m: Message, gone: set<RoomId>)
    requires m.Merge? && MergeTarget(dev, s, sender, m).Some?
    requires var target := MergeTarget(dev, s, sender, m).value;
             var rooms := if Find(s.rooms, m.into).Some? then s.rooms else s.rooms + [target];
             gone == DirectIds(dev, rooms, sender) - {m.into}
    ensures OnMerge(dev, s, sender, m).0.joined == s.joined - gone && OnMerge(dev, s, sender, m).0.chat == s.chat - gone
  {
  }

  lemma LeavesOthers(s: State, after: State, gone: set<RoomId>)
    requires after.joined == s.joined - gone && after.chat == s.chat - gone
    ensures Forgets(s, after, gone)
  {
  }

  lemma SameButOne(dev: Device, rooms: seq<Room>, peer: DeviceId, added: Room)
    ensures DirectIds(dev, rooms + [added], peer) - {added.id} == DirectIds(dev, rooms, peer) - {added.id}
  {
    assert forall r :: r in rooms + [added] <==> r in rooms || r == added;
  }
}
