/** The bytes of one video poll: packets, each behind its length in little-endian order. */
module VideoBatch {

  type Byte = b: int | 0 <= b < 256

  const HEADER := 28

  function Length32(bytes: seq<Byte>): nat
    requires |bytes| == 4
  {
    var a: int, b: int, c: int, d: int := bytes[0], bytes[1], bytes[2], bytes[3];
    a + 0x100 * b + 0x1_0000 * c + 0x100_0000 * d
  }

  function LittleEndian32(n: nat): seq<Byte>
    requires n < 0x1_0000_0000
  {
    [n % 0x100, n / 0x100 % 0x100, n / 0x1_0000 % 0x100, n / 0x100_0000 % 0x100]
  }

  /** A packet the watcher can read: a whole header, of a known kind. */
  predicate Recognized(packet: seq<Byte>) {
    |packet| >= HEADER && 1 <= packet[0] <= 3
  }

  predicate Whole(packet: seq<Byte>) {
    0 < |packet| < 0x1_0000_0000
  }

  predicate AllWhole(packets: seq<seq<Byte>>) {
    forall k :: 0 <= k < |packets| ==> Whole(packets[k])
  }

  function Framed(packet: seq<Byte>): seq<Byte>
    requires Whole(packet)
  {
    LittleEndian32(|packet|) + packet
  }

  /** The backend's side of a poll. */
  function Pack(packets: seq<seq<Byte>>): seq<Byte>
    requires AllWhole(packets)
  {
    if packets == [] then [] else assert AllWhole(packets[1..]); Framed(packets[0]) + Pack(packets[1..])
  }

  function KeepRecognized(packets: seq<seq<Byte>>): seq<seq<Byte>> {
    if packets == [] then []
    else
      var init, last := KeepRecognized(packets[..|packets| - 1]), packets[|packets| - 1];
      if Recognized(last) then init + [last] else init
  }

  /** The packets from an offset on, up to the batch's end, a zero length, or one cut short. */
  function UnpackFrom(batch: seq<Byte>, offset: nat): seq<seq<Byte>>
    decreases |batch| - offset
  {
    if offset + 4 > |batch| then []
    else
      var len := Length32(batch[offset..offset + 4]);
      if len == 0 || offset + 4 + len > |batch| then []
      else [batch[offset + 4..offset + 4 + len]] + UnpackFrom(batch, offset + 4 + len)
  }

  function Unpack(batch: seq<Byte>): seq<seq<Byte>> {
    UnpackFrom(batch, 0)
  }

  lemma LengthRoundTrip(n: nat)
    requires n < 0x1_0000_0000
    ensures Length32(LittleEndian32(n)) == n
  {
    assert n / 0x1_0000 == n / 0x100 / 0x100;
    assert n / 0x100_0000 == n / 0x1_0000 / 0x100;
  }

  lemma {:induction false} UnpackShift(front: seq<Byte>, batch: seq<Byte>, offset: nat)
    ensures UnpackFrom(front + batch, |front| + offset) == UnpackFrom(batch, offset)
    decreases |batch| - offset
  {
    if offset + 4 > |batch| {
    } else {
      var at, len := |front| + offset, Length32(batch[offset..offset + 4]);
      assert (front + batch)[at..at + 4] == batch[offset..offset + 4];
      if len > 0 && offset + 4 + len <= |batch| {
        assert (front + batch)[at + 4..at + 4 + len] == batch[offset + 4..offset + 4 + len];
        UnpackShift(front, batch, offset + 4 + len);
      }
    }
  }

  lemma UnpackFramed(packet: seq<Byte>, rest: seq<Byte>)
    requires Whole(packet)
    ensures Unpack(Framed(packet) + rest) == [packet] + Unpack(rest)
  {
    var batch := Framed(packet) + rest;
    LengthRoundTrip(|packet|);
    assert batch[0..4] == LittleEndian32(|packet|);
    assert batch[4..4 + |packet|] == packet;
    UnpackShift(Framed(packet), rest, 0);
  }

  /** Every packet comes out of its batch, whole and in order. */
  lemma {:induction false} UnpackPack(packets: seq<seq<Byte>>)
    requires AllWhole(packets)
    ensures Unpack(Pack(packets)) == packets
  {
    if packets == [] {
    } else {
      assert AllWhole(packets[1..]);
      UnpackFramed(packets[0], Pack(packets[1..]));
      UnpackPack(packets[1..]);
    }
  }

  /** Bytes the packets take up in a batch. */
  function Size(packets: seq<seq<Byte>>): nat {
    if packets == [] then 0 else 4 + |packets[0]| + Size(packets[1..])
  }

  /** How many packets lie wholly before a cut. */
  function WholeBefore(packets: seq<seq<Byte>>, cut: nat): (k: nat)
    ensures k <= |packets|
  {
    if packets == [] || cut < 4 + |packets[0]| then 0 else 1 + WholeBefore(packets[1..], cut - 4 - |packets[0]|)
  }

  lemma {:induction false} WholeBeforeFits(packets: seq<seq<Byte>>, cut: nat)
    ensures var k := WholeBefore(packets, cut);
            Size(packets[..k]) <= cut && (k < |packets| ==> cut < Size(packets[..k + 1]))
  {
    if packets == [] || cut < 4 + |packets[0]| {
    } else {
      var rest := packets[1..];
      var k := WholeBefore(rest, cut - 4 - |packets[0]|);
      WholeBeforeFits(rest, cut - 4 - |packets[0]|);
      assert packets[..k + 1][1..] == rest[..k];
      assert k < |rest| ==> packets[..k + 2][1..] == rest[..k + 1];
    }
  }

  /** A batch cut short anywhere loses nothing before the cut: what comes out are the packets
      that lie wholly before it. */
  lemma {:induction false} UnpackCut(packets: seq<seq<Byte>>, cut: nat)
    requires AllWhole(packets) && cut <= |Pack(packets)|
    ensures Unpack(Pack(packets)[..cut]) == packets[..WholeBefore(packets, cut)]
  {
    if packets == [] {
    } else {
      var first, rest := packets[0], packets[1..];
      assert AllWhole(rest);
      var whole := |Framed(first)|;
      if cut < whole {
        CutInFirst(first, Pack(rest), cut);
      } else {
        UnpackCut(rest, cut - whole);
        assert Pack(packets)[..cut] == Framed(first) + Pack(rest)[..cut - whole];
        UnpackFramed(first, Pack(rest)[..cut - whole]);
        assert packets[..WholeBefore(packets, cut)] == [first] + rest[..WholeBefore(rest, cut - whole)];
      }
    }
  }

  lemma CutInFirst(packet: seq<Byte>, rest: seq<Byte>, cut: nat)
    requires Whole(packet) && cut < |Framed(packet)|
    ensures Unpack((Framed(packet) + rest)[..cut]) == []
  {
    var batch := (Framed(packet) + rest)[..cut];
    if cut >= 4 {
      LengthRoundTrip(|packet|);
      assert batch[0..4] == LittleEndian32(|packet|);
    }
  }

  /** Reading one packet more. */
  lemma ReadNext(batch: seq<Byte>, read: seq<seq<Byte>>, offset: nat, len: nat)
    requires offset + 4 <= |batch| && len == Length32(batch[offset..offset + 4])
    requires Unpack(batch) == read + UnpackFrom(batch, offset)
    ensures len > 0 && offset + 4 + len <= |batch| ==>
      Unpack(batch) == read + [batch[offset + 4..offset + 4 + len]] + UnpackFrom(batch, offset + 4 + len)
    ensures len == 0 || offset + 4 + len > |batch| ==> Unpack(batch) == read
  {
  }

  lemma KeepOneMore(packets: seq<seq<Byte>>, packet: seq<Byte>)
    ensures KeepRecognized(packets + [packet]) == KeepRecognized(packets) + if Recognized(packet) then [packet] else []
  {
    assert (packets + [packet])[..|packets|] == packets;
  }

  /** A packet of at least 28 bytes whose first is 1, 2 or 3: a picture, a stream or raw pixels. */
  predicate Readable(packet: seq<Byte>) {
    |packet| >= 28 && (packet[0] == 1 || packet[0] == 2 || packet[0] == 3)
  }

  /** Where the packets that are kept stood: ascending, and at exactly the readable ones. */
  ghost predicate DrawnFrom(kept: seq<seq<Byte>>, packets: seq<seq<Byte>>, at: seq<nat>) {
    && |at| == |kept| && (forall i :: 0 <= i < |at| ==> at[i] < |packets| && kept[i] == packets[at[i]])
    && (forall i, j :: 0 <= i < j < |at| ==> at[i] < at[j])
    && (forall k: nat :: k in at <==> k < |packets| && Readable(packets[k]))
  }

  lemma DrawnOneMore(kept: seq<seq<Byte>>, packets: seq<seq<Byte>>, at: seq<nat>, next: seq<Byte>)
    requires DrawnFrom(kept, packets, at)
    ensures Readable(next) ==> DrawnFrom(kept + [next], packets + [next], at + [|packets|])
    ensures !Readable(next) ==> DrawnFrom(kept, packets + [next], at)
  {
    assert forall k: nat :: k in at + [|packets|] <==> k in at || k == |packets|;
  }

  /** What is handed on: in order, exactly the readable packets. */
  lemma {:induction false} HandedOn(packets: seq<seq<Byte>>) returns (at: seq<nat>)
    ensures DrawnFrom(KeepRecognized(packets), packets, at)
  {
    if packets == [] {
      at := [];
    } else {
      var init, last := packets[..|packets| - 1], packets[|packets| - 1];
      at := HandedOn(init);
      assert packets == init + [last];
      DrawnOneMore(KeepRecognized(init), init, at, last);
      if Readable(last) {
        at := at + [|init|];
      }
    }
  }

  /** A poll hands on, in order, exactly what the backend packed and the watcher can read. */
  lemma PollHandsOn(packets: seq<seq<Byte>>) returns (at: seq<nat>)
    requires AllWhole(packets)
    ensures DrawnFrom(KeepRecognized(Unpack(Pack(packets))), packets, at)
  {
    UnpackPack(packets);
    at := HandedOn(packets);
  }

  /** The loop part of the way. */
  ghost predicate ReadSoFar(batch: seq<Byte>, frames: seq<seq<Byte>>, read: seq<seq<Byte>>, offset: nat) {
    offset <= |batch| && Unpack(batch) == read + UnpackFrom(batch, offset) && frames == KeepRecognized(read)
  }

  lemma ReadOn(batch: seq<Byte>, frames: seq<seq<Byte>>, read: seq<seq<Byte>>, offset: nat, len: nat)
    requires ReadSoFar(batch, frames, read, offset)
    requires offset + 4 <= |batch| && len == Length32(batch[offset..offset + 4]) && len > 0
      && offset + 4 + len <= |batch|
    ensures var packet := batch[offset + 4..offset + 4 + len];
            ReadSoFar(batch, frames + (if Recognized(packet) then [packet] else []), read + [packet], offset + 4 + len)
  {
    ReadNext(batch, read, offset, len);
    KeepOneMore(read, batch[offset + 4..offset + 4 + len]);
  }

  lemma ReadAll(batch: seq<Byte>, frames: seq<seq<Byte>>, read: seq<seq<Byte>>, offset: nat)
    requires ReadSoFar(batch, frames, read, offset)
    requires offset + 4 > |batch| || Length32(batch[offset..offset + 4]) == 0
      || offset + 4 + Length32(batch[offset..offset + 4]) > |batch|
    ensures frames == KeepRecognized(Unpack(batch))
  {
    assert read + [] == read;
  }

  /** watchVideo's loop over one batch: the packets handed on are the recognized ones. */
  method ReadBatch(batch: seq<Byte>) returns (frames: seq<seq<Byte>>)
    ensures frames == KeepRecognized(Unpack(batch))
  {
    frames := [];
    var offset: nat := 0;
    ghost var read: seq<seq<Byte>> := [];
    while offset + 4 <= |batch|
      invariant ReadSoFar(batch, frames, read, offset)
    {
      var len: nat := Length32(batch[offset..offset + 4]);
      if len == 0 || offset + 4 + len > |batch| {
        ReadAll(batch, frames, read, offset);
        return;
      }
      var packet: seq<Byte> := batch[offset + 4..offset + 4 + len];
      ReadOn(batch, frames, read, offset, len);
      read := read + [packet];
      offset := offset + 4 + len;
      if Recognized(packet) {
        frames := frames + [packet];
      }
    }
    ReadAll(batch, frames, read, offset);
  }
}
