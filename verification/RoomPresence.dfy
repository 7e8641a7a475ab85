/** Who is in a room's call: joins and leaves fanned out to the roster over ordered links,
    and the echo by which a newcomer learns who was there already. */
module RoomPresence {

  type DeviceId = nat

  datatype Message = Join | Leave

  datatype Envelope = Envelope(from: DeviceId, to: DeviceId, message: Message)

  /** One device and one room: whether it has the room, whether it is in the call, how many
      joins still wait for the room scope to start, and whom it lists as present. */
  datatype Local = Local(known: bool, joined: bool, resuming: nat, present: set<DeviceId>)

  datatype Input = Learn | StartJoin | ResumeJoin | HangUp | Hear(from: DeviceId, message: Message)

  /** One message to every member but the sender. */
  function Fan(me: DeviceId, roster: seq<DeviceId>, message: Message): seq<Envelope> {
    if roster == [] then []
    else (if roster[0] == me then [] else [Envelope(me, roster[0], message)]) + Fan(me, roster[1..], message)
  }

  /** What a device does with one input, and sends. Joining is two steps: the call counts as
      joined at once, and is announced when the room scope has started. */
  function React(me: DeviceId, roster: seq<DeviceId>, s: Local, input: Input): (Local, seq<Envelope>) {
    match input
    case Learn => (s.(known := true), [])
    case StartJoin =>
      if s.known && !s.joined then (s.(joined := true, resuming := s.resuming + 1), []) else (s, [])
    case ResumeJoin =>
      if s.resuming == 0 then (s, [])
      else (s.(resuming := s.resuming - 1, present := s.present + {me}), Fan(me, roster, Join))
    case HangUp =>
      if s.joined then (s.(joined := false, present := s.present - {me}), Fan(me, roster, Leave)) else (s, [])
    case Hear(from, Join) =>
      if !s.known then (s, [])
      else (s.(present := s.present + {from}),
            if from !in s.present && s.joined then [Envelope(me, from, Join)] else [])
    case Hear(from, Leave) => (s.(present := s.present - {from}), [])
  }

  // The devices and the messages between them

  datatype Net = Net(locals: map<DeviceId, Local>, flight: seq<Envelope>)

  /** A device acts on its own, or the message at one place in flight arrives. */
  datatype Step = Act(device: DeviceId, input: Input) | Arrive(at: nat)

  predicate FirstOnItsLink(flight: seq<Envelope>, at: nat)
    requires at < |flight|
  {
    forall j :: 0 <= j < at ==> flight[j].from != flight[at].from || flight[j].to != flight[at].to
  }

  ghost predicate BetweenMembers(roster: seq<DeviceId>, flight: seq<Envelope>) {
    forall e :: e in flight ==> e.from in roster && e.to in roster && e.from != e.to
  }

  ghost predicate WellFormed(roster: seq<DeviceId>, n: Net) {
    && (forall i, j :: 0 <= i < j < |roster| ==> roster[i] != roster[j])
    && (forall d :: d in roster <==> d in n.locals)
    && BetweenMembers(roster, n.flight)
  }

  ghost predicate Enabled(roster: seq<DeviceId>, n: Net, step: Step) {
    && WellFormed(roster, n)
    && match step
       case Act(d, input) => d in roster && !input.Hear?
       case Arrive(at) => at < |n.flight| && FirstOnItsLink(n.flight, at)
  }

  ghost function Actor(roster: seq<DeviceId>, n: Net, step: Step): DeviceId
    requires Enabled(roster, n, step)
  {
    if step.Act? then step.device else n.flight[step.at].to
  }

  ghost function InputOf(roster: seq<DeviceId>, n: Net, step: Step): Input
    requires Enabled(roster, n, step)
  {
    if step.Act? then step.input else Hear(n.flight[step.at].from, n.flight[step.at].message)
  }

  ghost function Rest(n: Net, step: Step): seq<Envelope>
    requires step.Arrive? ==> step.at < |n.flight|
  {
    if step.Act? then n.flight else n.flight[..step.at] + n.flight[step.at + 1..]
  }

  ghost function Next(roster: seq<DeviceId>, n: Net, step: Step): Net
    requires Enabled(roster, n, step)
  {
    var d := Actor(roster, n, step);
    var (after, sent) := React(d, roster, n.locals[d], InputOf(roster, n, step));
    Net(n.locals[d := after], Rest(n, step) + sent)
  }

  /** The messages in flight on one link, oldest first. */
  function Link(flight: seq<Envelope>, from: DeviceId, to: DeviceId): seq<Message> {
    if flight == [] then []
    else
      var first := if flight[0].from == from && flight[0].to == to then [flight[0].message] else [];
      first + Link(flight[1..], from, to)
  }

  // One link, and the receiver's listing of the sender

  datatype Channel = Channel(seen: bool, link: seq<Message>)

  /** Whether the sender will be listed once the link has drained. */
  function Settled(c: Channel): bool {
    if c.link == [] then c.seen else c.link[|c.link| - 1] == Join
  }

  /** Whether some join on the link will arrive while the sender is not listed. */
  ghost predicate WillEcho(c: Channel) {
    exists k :: 0 <= k < |c.link| && c.link[k] == Join && !Settled(Channel(c.seen, c.link[..k]))
  }

  function Sent(c: Channel, messages: seq<Message>): Channel {
    Channel(c.seen, c.link + messages)
  }

  function Arrived(c: Channel): Channel
    requires c.link != []
  {
    Channel(c.link[0] == Join, c.link[1..])
  }

  lemma SentOne(c: Channel, m: Message)
    ensures Settled(Sent(c, [m])) <==> m == Join
    ensures WillEcho(c) ==> WillEcho(Sent(c, [m]))
    ensures m == Join && !Settled(c) ==> WillEcho(Sent(c, [m]))
  {
    var after := Sent(c, [m]);
    if WillEcho(c) {
      var k :| 0 <= k < |c.link| && c.link[k] == Join && !Settled(Channel(c.seen, c.link[..k]));
      assert after.link[..k] == c.link[..k];
      assert after.link[k] == Join;
    } else if m == Join && !Settled(c) {
      assert after.link[..|c.link|] == c.link;
      assert after.link[|c.link|] == Join;
    }
  }

  lemma ArrivedOne(c: Channel)
    requires c.link != []
    ensures Settled(Arrived(c)) <==> Settled(c)
    ensures WillEcho(c) ==> WillEcho(Arrived(c)) || (c.link[0] == Join && !c.seen)
  {
    if WillEcho(c) {
      var k :| 0 <= k < |c.link| && c.link[k] == Join && !Settled(Channel(c.seen, c.link[..k]));
      if k > 0 {
        var after := Arrived(c);
        assert after.link[k - 1] == Join;
        assert after.link[..k - 1] == c.link[..k][1..];
        assert !Settled(Channel(after.seen, after.link[..k - 1]));
      }
    }
  }

  // What holds between two devices

  /** In the call, with every join announced. */
  predicate Up(s: Local) {
    s.joined && s.resuming == 0
  }

  /** `out` carries x's messages to y, `back` carries y's to x. */
  ghost predicate PairOk(sx: Local, sy: Local, out: Channel, back: Channel) {
    && (!sx.known ==> !sx.joined && sx.resuming == 0 && out == Channel(false, []))
    && (Up(sx) && out.link != [] ==> out.link[|out.link| - 1] == Join)
    && (Up(sx) && Up(sy) ==> Settled(out) || WillEcho(back))
    && (Up(sy) && Settled(out) ==> Settled(back) || WillEcho(out))
  }

  ghost predicate BothOk(sx: Local, sy: Local, out: Channel, back: Channel) {
    PairOk(sx, sy, out, back) && PairOk(sy, sx, back, out)
  }

  /** A step a device takes by itself, with what it puts on this link. */
  lemma AloneKeepsPair(sx: Local, sy: Local, out: Channel, back: Channel, input: Input, after: Local,
      posted: seq<Message>)
    requires BothOk(sx, sy, out, back) && !input.Hear?
    requires sx.known ==> after.known
    requires input.Learn? ==> after == sx.(known := true) && posted == []
    requires input.StartJoin? ==>
      posted == [] && (after == sx || (sx.known && after == sx.(joined := true, resuming := sx.resuming + 1)))
    requires input.ResumeJoin? && sx.resuming == 0 ==> after == sx && posted == []
    requires input.ResumeJoin? && sx.resuming > 0 ==>
      after.joined == sx.joined && after.resuming == sx.resuming - 1 && posted == [Join]
    requires input.HangUp? && !sx.joined ==> after == sx && posted == []
    requires input.HangUp? && sx.joined ==> !after.joined && after.resuming == sx.resuming && posted == [Leave]
    ensures BothOk(after, sy, Sent(out, posted), back)
  {
    if posted == [] {
      assert Sent(out, []) == out;
    } else {
      SentOne(out, posted[0]);
    }
  }

  /** The hearing of a message, by a device that has the room. */
  lemma HearingKeepsPair(sx: Local, sy: Local, out: Channel, back: Channel, after: Local, echo: bool)
    requires BothOk(sx, sy, out, back) && back.link != [] && sx.known
    requires after.known && after.joined == sx.joined && after.resuming == sx.resuming
    requires echo <==> back.link[0] == Join && !back.seen && sx.joined
    ensures BothOk(after, sy, if echo then Sent(out, [Join]) else out, Arrived(back))
  {
    SentOne(out, Join);
    ArrivedOne(back);
  }

  /** The hearing of a message by a device that does not have the room. */
  lemma IgnoringKeepsPair(sx: Local, sy: Local, out: Channel, back: Channel, seen: bool)
    requires BothOk(sx, sy, out, back) && back.link != [] && !sx.known && (seen ==> back.seen)
    ensures BothOk(sx, sy, out, Channel(seen, back.link[1..]))
  {
  }

  // What a step does to the links

  lemma {:induction false} LinkConcat(a: seq<Envelope>, b: seq<Envelope>, from: DeviceId, to: DeviceId)
    ensures Link(a + b, from, to) == Link(a, from, to) + Link(b, from, to)
  {
    if a == [] {
      assert a + b == b;
    } else {
      assert (a + b)[1..] == a[1..] + b;
      LinkConcat(a[1..], b, from, to);
    }
  }

  lemma {:induction false} LinkNone(flight: seq<Envelope>, from: DeviceId, to: DeviceId)
    requires forall e :: e in flight ==> e.from != from || e.to != to
    ensures Link(flight, from, to) == []
  {
    if flight == [] {
    } else {
      assert flight[0] in flight;
      LinkNone(flight[1..], from, to);
    }
  }

  lemma {:induction false} LinkFan(me: DeviceId, roster: seq<DeviceId>, message: Message, to: DeviceId)
    requires forall i, j :: 0 <= i < j < |roster| ==> roster[i] != roster[j]
    ensures Link(Fan(me, roster, message), me, to) == if to in roster && to != me then [message] else []
  {
    if roster == [] {
    } else {
      LinkFan(me, roster[1..], message, to);
      var first := if roster[0] == me then [] else [Envelope(me, roster[0], message)];
      LinkConcat(first, Fan(me, roster[1..], message), me, to);
      assert to in roster[1..] ==> to != roster[0];
    }
  }

  lemma {:induction false} FanEnvelopes(me: DeviceId, roster: seq<DeviceId>, message: Message)
    ensures forall e :: e in Fan(me, roster, message) ==>
      e.from == me && e.to in roster && e.to != me && e.message == message
  {
    if roster == [] {
    } else {
      FanEnvelopes(me, roster[1..], message);
    }
  }

  lemma Around(flight: seq<Envelope>, at: nat)
    requires at < |flight|
    ensures flight == flight[..at] + ([flight[at]] + flight[at + 1..])
  {
  }

  lemma {:induction false} LinkWithout(flight: seq<Envelope>, at: nat, from: DeviceId, to: DeviceId)
    requires at < |flight| && FirstOnItsLink(flight, at)
    ensures var rest := Link(flight[..at] + flight[at + 1..], from, to);
            if flight[at].from == from && flight[at].to == to
            then Link(flight, from, to) == [flight[at].message] + rest
            else Link(flight, from, to) == rest
  {
    var without := flight[..at] + flight[at + 1..];
    if at == 0 {
      assert without == flight[1..];
    } else {
      LinkWithout(flight[1..], at - 1, from, to);
      assert without[1..] == flight[1..][..at - 1] + flight[1..][at..];
    }
  }

  function ChannelOf(n: Net, from: DeviceId, to: DeviceId): Channel
    requires to in n.locals
  {
    Channel(from in n.locals[to].present, Link(n.flight, from, to))
  }

  /** What the acting device puts on its link to one other. */
  function Posted(me: DeviceId, roster: seq<DeviceId>, s: Local, input: Input, to: DeviceId): seq<Message> {
    match input
    case ResumeJoin => if s.resuming > 0 then [Join] else []
    case HangUp => if s.joined then [Leave] else []
    case Hear(from, Join) => if from == to && s.known && from !in s.present && s.joined then [Join] else []
    case _ => []
  }

  /** What a device's input leaves of the link from one other. */
  function Left(back: Channel, after: Local, input: Input, y: DeviceId): Channel {
    Channel(y in after.present, if input.Hear? && input.from == y && back.link != [] then back.link[1..] else back.link)
  }

  lemma PostedIsSent(me: DeviceId, roster: seq<DeviceId>, s: Local, input: Input, to: DeviceId)
    requires forall i, j :: 0 <= i < j < |roster| ==> roster[i] != roster[j]
    requires to in roster && to != me
    ensures Link(React(me, roster, s, input).1, me, to) == Posted(me, roster, s, input, to)
    ensures forall x :: x != me ==> Link(React(me, roster, s, input).1, x, to) == []
    ensures forall x :: x != me ==> Link(React(me, roster, s, input).1, x, me) == []
  {
    LinkFan(me, roster, Join, to);
    LinkFan(me, roster, Leave, to);
    FanEnvelopes(me, roster, Join);
    FanEnvelopes(me, roster, Leave);
    var sent := React(me, roster, s, input).1;
    forall x | x != me ensures Link(sent, x, to) == [] && Link(sent, x, me) == [] {
      LinkNone(sent, x, to);
      LinkNone(sent, x, me);
    }
  }

  lemma NextChannels(roster: seq<DeviceId>, n: Net, step: Step, x: DeviceId, y: DeviceId)
    requires Enabled(roster, n, step) && x == Actor(roster, n, step) && y in roster && x != y
    ensures y in Next(roster, n, step).locals && x in Next(roster, n, step).locals && x in n.locals && y in n.locals
    ensures var input, next := InputOf(roster, n, step), Next(roster, n, step);
            && ChannelOf(next, x, y) == Sent(ChannelOf(n, x, y), Posted(x, roster, n.locals[x], input, y))
            && next.locals[x] == React(x, roster, n.locals[x], input).0 && next.locals[y] == n.locals[y]
            && (input.Hear? && input.from == y ==>
                  ChannelOf(n, y, x).link != [] && ChannelOf(n, y, x).link[0] == input.message)
            && ChannelOf(next, y, x) == Left(ChannelOf(n, y, x), next.locals[x], input, y)
  {
    var sent := React(x, roster, n.locals[x], InputOf(roster, n, step)).1;
    PostedIsSent(x, roster, n.locals[x], InputOf(roster, n, step), y);
    LinkConcat(Rest(n, step), sent, x, y);
    LinkConcat(Rest(n, step), sent, y, x);
    if step.Arrive? {
      LinkWithout(n.flight, step.at, x, y);
      LinkWithout(n.flight, step.at, y, x);
    }
  }

  lemma NextElsewhere(roster: seq<DeviceId>, n: Net, step: Step, x: DeviceId, y: DeviceId)
    requires Enabled(roster, n, step) && x in roster && y in roster && x != y
    requires x != Actor(roster, n, step) && y != Actor(roster, n, step)
    ensures x in Next(roster, n, step).locals && y in Next(roster, n, step).locals && x in n.locals && y in n.locals
    ensures Next(roster, n, step).locals[x] == n.locals[x] && Next(roster, n, step).locals[y] == n.locals[y]
    ensures Link(Next(roster, n, step).flight, x, y) == Link(n.flight, x, y)
  {
    var d := Actor(roster, n, step);
    var sent := React(d, roster, n.locals[d], InputOf(roster, n, step)).1;
    PostedIsSent(d, roster, n.locals[d], InputOf(roster, n, step), y);
    LinkConcat(Rest(n, step), sent, x, y);
    if step.Arrive? {
      LinkWithout(n.flight, step.at, x, y);
    }
  }

  // The invariant

  ghost predicate Agree(n: Net, x: DeviceId, y: DeviceId)
    requires x in n.locals && y in n.locals
  {
    BothOk(n.locals[x], n.locals[y], ChannelOf(n, x, y), ChannelOf(n, y, x))
  }

  ghost predicate Inv(roster: seq<DeviceId>, n: Net) {
    WellFormed(roster, n) && forall x, y :: x in roster && y in roster && x != y ==> Agree(n, x, y)
  }

  /** One device's reaction, seen from one other device. */
  lemma ReactKeepsPair(x: DeviceId, roster: seq<DeviceId>, sx: Local, sy: Local, out: Channel, back: Channel,
      input: Input, y: DeviceId)
    requires BothOk(sx, sy, out, back) && x != y && back.seen == (y in sx.present)
    requires input.Hear? && input.from == y ==> back.link != [] && back.link[0] == input.message
    ensures var after := React(x, roster, sx, input).0;
            BothOk(after, sy, Sent(out, Posted(x, roster, sx, input, y)), Left(back, after, input, y))
  {
    var after := React(x, roster, sx, input).0;
    var posted := Posted(x, roster, sx, input, y);
    assert Sent(out, []) == out;
    if !input.Hear? {
      AloneKeepsPair(sx, sy, out, back, input, after, posted);
    } else if input.from == y {
      if sx.known {
        HearingKeepsPair(sx, sy, out, back, after, posted == [Join]);
      } else {
        IgnoringKeepsPair(sx, sy, out, back, y in after.present);
      }
    }
  }

  lemma ActorKeepsPair(roster: seq<DeviceId>, n: Net, step: Step, x: DeviceId, y: DeviceId)
    requires Enabled(roster, n, step) && x == Actor(roster, n, step) && y in roster && x != y && x in n.locals
    requires Agree(n, x, y)
    ensures x in Next(roster, n, step).locals && y in Next(roster, n, step).locals && Agree(Next(roster, n, step), x, y)
  {
    NextChannels(roster, n, step, x, y);
    ReactKeepsPair(x, roster, n.locals[x], n.locals[y], ChannelOf(n, x, y), ChannelOf(n, y, x),
      InputOf(roster, n, step), y);
  }

  lemma SentBetweenMembers(me: DeviceId, roster: seq<DeviceId>, s: Local, input: Input)
    requires me in roster && (input.Hear? ==> input.from in roster && input.from != me)
    ensures forall e :: e in React(me, roster, s, input).1 ==> e.from in roster && e.to in roster && e.from != e.to
  {
    FanEnvelopes(me, roster, Join);
    FanEnvelopes(me, roster, Leave);
  }

  lemma NextWellFormed(roster: seq<DeviceId>, n: Net, step: Step)
    requires Enabled(roster, n, step)
    ensures WellFormed(roster, Next(roster, n, step))
  {
    var d, rest := Actor(roster, n, step), Rest(n, step);
    if step.Arrive? {
      assert n.flight[step.at] in n.flight;
    }
    SentBetweenMembers(d, roster, n.locals[d], InputOf(roster, n, step));
    assert forall e :: e in rest ==> e in n.flight;
  }

  lemma StepKeepsInv(roster: seq<DeviceId>, n: Net, step: Step)
    requires Inv(roster, n) && Enabled(roster, n, step)
    ensures Inv(roster, Next(roster, n, step))
  {
    NextWellFormed(roster, n, step);
    var next, d := Next(roster, n, step), Actor(roster, n, step);
    forall x, y | x in roster && y in roster && x != y ensures Agree(next, x, y) {
      assert Agree(n, x, y) && Agree(n, y, x);
      if x == d {
        ActorKeepsPair(roster, n, step, x, y);
      } else if y == d {
        ActorKeepsPair(roster, n, step, y, x);
      } else {
        NextElsewhere(roster, n, step, x, y);
        NextElsewhere(roster, n, step, y, x);
      }
    }
  }

  // Every run

  /** The steps taken in order lead from one net to the other. */
  ghost predicate Runs(roster: seq<DeviceId>, n: Net, steps: seq<Step>, end: Net)
    decreases |steps|
  {
    if steps == [] then end == n
    else Enabled(roster, n, steps[0]) && Runs(roster, Next(roster, n, steps[0]), steps[1..], end)
  }

  /** Nobody has joined yet, and nothing is in flight; each device may or may not have the room. */
  ghost predicate Quiet(s: Local) {
    !s.joined && s.resuming == 0 && s.present == {}
  }

  ghost predicate Start(roster: seq<DeviceId>, n: Net) {
    WellFormed(roster, n) && n.flight == [] && forall d :: d in roster ==> Quiet(n.locals[d])
  }

  lemma StartInv(roster: seq<DeviceId>, n: Net)
    requires Start(roster, n)
    ensures Inv(roster, n)
  {
    forall x, y | x in roster && y in roster && x != y ensures Agree(n, x, y) {
      assert Quiet(n.locals[x]) && Quiet(n.locals[y]);
    }
  }

  lemma {:induction false} RunKeepsInv(roster: seq<DeviceId>, n: Net, steps: seq<Step>, end: Net)
    requires Inv(roster, n) && Runs(roster, n, steps, end)
    ensures Inv(roster, end)
    decreases |steps|
  {
    if steps == [] {
    } else {
      StepKeepsInv(roster, n, steps[0]);
      RunKeepsInv(roster, Next(roster, n, steps[0]), steps[1..], end);
    }
  }

  /** Whatever the order of joins, hang-ups, learnings and deliveries: once nothing is in
      flight, any two devices in the call list each other, even if one did not have the
      room when the other's join arrived. */
  lemma JoinedListEachOther(roster: seq<DeviceId>, start: Net, steps: seq<Step>, end: Net, x: DeviceId, y: DeviceId)
    requires Start(roster, start) && Runs(roster, start, steps, end) && end.flight == []
    requires x in roster && y in roster && x != y
    ensures WellFormed(roster, end)
    ensures Up(end.locals[x]) && Up(end.locals[y]) ==> x in end.locals[y].present && y in end.locals[x].present
  {
    StartInv(roster, start);
    RunKeepsInv(roster, start, steps, end);
    assert Agree(end, x, y);
  }

  // Deliveries run out

  function Leaves(flight: seq<Envelope>): nat {
    if flight == [] then 0 else (if flight[0].message == Leave then 1 else 0) + Leaves(flight[1..])
  }

  lemma {:induction false} LeavesConcat(a: seq<Envelope>, b: seq<Envelope>)
    ensures Leaves(a + b) == Leaves(a) + Leaves(b)
  {
    if a == [] {
      assert a + b == b;
    } else {
      assert (a + b)[1..] == a[1..] + b;
      LeavesConcat(a[1..], b);
    }
  }

  /** Pairs of a device and a member it does not list. */
  ghost function Unlisted(roster: seq<DeviceId>, n: Net): set<(DeviceId, DeviceId)>
    requires WellFormed(roster, n)
  {
    set x, y | x in roster && y in roster && y !in n.locals[x].present :: (x, y)
  }

  ghost predicate Descends(roster: seq<DeviceId>, n: Net, after: Net)
    requires WellFormed(roster, n) && WellFormed(roster, after)
  {
    || Leaves(after.flight) < Leaves(n.flight)
    || (Leaves(after.flight) == Leaves(n.flight) && |Unlisted(roster, after)| < |Unlisted(roster, n)|)
    || (Leaves(after.flight) == Leaves(n.flight) && |Unlisted(roster, after)| == |Unlisted(roster, n)|
      && |after.flight| < |n.flight|)
  }

  lemma SubsetSmaller<T>(a: set<T>, b: set<T>)
    requires a < b
    ensures |a| < |b|
  {
    assert b == a + (b - a);
  }

  lemma LeavesWithout(flight: seq<Envelope>, at: nat)
    requires at < |flight|
    ensures Leaves(flight) == Leaves(flight[..at] + flight[at + 1..]) + if flight[at].message == Leave then 1 else 0
  {
    var before, taken, later := flight[..at], [flight[at]], flight[at + 1..];
    Around(flight, at);
    LeavesConcat(before, taken + later);
    LeavesConcat(taken, later);
    LeavesConcat(before, later);
  }

  /** Every delivery lowers the leaves in flight, else the unlisted pairs, else the messages
      in flight, so echoes cannot go on for ever in any order of delivery. */
  lemma DeliveryDescends(roster: seq<DeviceId>, n: Net, step: Step)
    requires Enabled(roster, n, step) && step.Arrive?
    ensures WellFormed(roster, Next(roster, n, step)) && Descends(roster, n, Next(roster, n, step))
  {
    NextWellFormed(roster, n, step);
    var next, e := Next(roster, n, step), n.flight[step.at];
    var sent := React(e.to, roster, n.locals[e.to], Hear(e.from, e.message)).1;
    assert n.flight[step.at] in n.flight;
    LeavesWithout(n.flight, step.at);
    LeavesConcat(Rest(n, step), sent);
    assert Leaves(sent) == 0;
    if e.message == Join {
      if next.locals[e.to] == n.locals[e.to] {
        assert next.locals == n.locals;
      } else {
        assert (e.to, e.from) in Unlisted(roster, n) && (e.to, e.from) !in Unlisted(roster, next);
        SubsetSmaller(Unlisted(roster, next), Unlisted(roster, n));
      }
    }
  }

  /** From any net, deliveries alone reach one with nothing in flight. */
  lemma {:induction false} DeliveriesDrain(roster: seq<DeviceId>, n: Net) returns (steps: seq<Step>, end: Net)
    requires WellFormed(roster, n)
    ensures Runs(roster, n, steps, end) && end.flight == []
    ensures forall k :: 0 <= k < |steps| ==> steps[k].Arrive?
    decreases Leaves(n.flight), |Unlisted(roster, n)|, |n.flight|
  {
    if n.flight == [] {
      return [], n;
    }
    var step := Arrive(0);
    DeliveryDescends(roster, n, step);
    var rest, last := DeliveriesDrain(roster, Next(roster, n, step));
    steps, end := [step] + rest, last;
    assert steps[1..] == rest;
  }

  // Who is listed without being in the call

  /** A hang-up never catches a join whose scope is still starting. */
  ghost predicate Calm(roster: seq<DeviceId>, n: Net, steps: seq<Step>)
    decreases |steps|
  {
    steps == [] || (Enabled(roster, n, steps[0])
      && (steps[0].Act? && steps[0].input.HangUp? ==> n.locals[steps[0].device].resuming == 0)
      && Calm(roster, Next(roster, n, steps[0]), steps[1..]))
  }

  ghost predicate GoneOk(s: Local, out: Channel) {
    !s.joined ==> s.resuming == 0 && !Settled(out)
  }

  ghost predicate NoneStale(roster: seq<DeviceId>, n: Net) {
    WellFormed(roster, n) && forall x, y :: x in roster && y in roster && x != y ==>
      GoneOk(n.locals[x], ChannelOf(n, x, y))
  }

  lemma ActorKeepsGone(x: DeviceId, roster: seq<DeviceId>, sx: Local, out: Channel, input: Input, y: DeviceId)
    requires GoneOk(sx, out) && (input.HangUp? ==> sx.resuming == 0) && (sx.joined ==> sx.known)
    ensures GoneOk(React(x, roster, sx, input).0, Sent(out, Posted(x, roster, sx, input, y)))
  {
    assert Sent(out, []) == out;
  }

  lemma HearerKeepsGone(sx: Local, out: Channel, sy: Local, after: Local, x: DeviceId, input: Input, y: DeviceId,
      roster: seq<DeviceId>)
    requires GoneOk(sx, out) && out.seen == (x in sy.present) && after == React(y, roster, sy, input).0 && x != y
    requires input.Hear? && input.from == x ==> out.link != [] && out.link[0] == input.message
    ensures GoneOk(sx, Left(out, after, input, x))
  {
    if input.Hear? && input.from == x && sy.known {
      ArrivedOne(out);
    }
  }

  lemma StepKeepsGone(roster: seq<DeviceId>, n: Net, step: Step)
    requires Inv(roster, n) && NoneStale(roster, n) && Enabled(roster, n, step)
    requires step.Act? && step.input.HangUp? ==> n.locals[step.device].resuming == 0
    ensures NoneStale(roster, Next(roster, n, step))
  {
    NextWellFormed(roster, n, step);
    var next, d := Next(roster, n, step), Actor(roster, n, step);
    forall x, y | x in roster && y in roster && x != y ensures GoneOk(next.locals[x], ChannelOf(next, x, y)) {
      assert GoneOk(n.locals[x], ChannelOf(n, x, y)) && Agree(n, x, y);
      if x == d {
        NextChannels(roster, n, step, x, y);
        ActorKeepsGone(x, roster, n.locals[x], ChannelOf(n, x, y), InputOf(roster, n, step), y);
      } else if y == d {
        NextChannels(roster, n, step, y, x);
        HearerKeepsGone(n.locals[x], ChannelOf(n, x, y), n.locals[y], next.locals[y], x, InputOf(roster, n, step), y,
          roster);
      } else {
        NextElsewhere(roster, n, step, x, y);
      }
    }
  }

  lemma {:induction false} CalmRunKeepsGone(roster: seq<DeviceId>, n: Net, steps: seq<Step>, end: Net)
    requires Inv(roster, n) && NoneStale(roster, n) && Runs(roster, n, steps, end) && Calm(roster, n, steps)
    ensures NoneStale(roster, end)
    decreases |steps|
  {
    if steps == [] {
    } else {
      StepKeepsInv(roster, n, steps[0]);
      StepKeepsGone(roster, n, steps[0]);
      CalmRunKeepsGone(roster, Next(roster, n, steps[0]), steps[1..], end);
    }
  }

  /** When no hang-up overtakes its own join, a settled listing names only devices in the call. */
  lemma ListedAreJoined(roster: seq<DeviceId>, start: Net, steps: seq<Step>, end: Net, x: DeviceId, y: DeviceId)
    requires Start(roster, start) && Runs(roster, start, steps, end) && Calm(roster, start, steps) && end.flight == []
    requires x in roster && y in roster && x != y
    ensures WellFormed(roster, end)
    ensures x in end.locals[y].present ==> end.locals[x].joined
  {
    StartInv(roster, start);
    forall a, b | a in roster && b in roster && a != b ensures GoneOk(start.locals[a], ChannelOf(start, a, b)) {
      assert Quiet(start.locals[a]) && Quiet(start.locals[b]);
    }
    CalmRunKeepsGone(roster, start, steps, end);
    assert GoneOk(end.locals[x], ChannelOf(end, x, y));
  }

  /** What a run says of x and y: whether x's last hang-up caught a join of its own still
      waiting, and whether y had the room when x's latest message reached it. */
  datatype Word = Word(caught: bool, heard: bool)

  const NO_WORD := Word(false, false)

  ghost function WordNext(roster: seq<DeviceId>, n: Net, step: Step, x: DeviceId, y: DeviceId, w: Word): Word
    requires Enabled(roster, n, step) && x in roster && y in roster
  {
    if step == Act(x, HangUp) && n.locals[x].joined then w.(caught := n.locals[x].resuming > 0)
    else if step.Arrive? && n.flight[step.at].from == x && n.flight[step.at].to == y then w.(heard := n.locals[y].known)
    else w
  }

  ghost function WordAfter(roster: seq<DeviceId>, n: Net, steps: seq<Step>, x: DeviceId, y: DeviceId, w: Word): Word
    requires x in roster && y in roster
    decreases |steps|
  {
    if steps == [] || !Enabled(roster, n, steps[0]) then w
    else WordAfter(roster, Next(roster, n, steps[0]), steps[1..], x, y, WordNext(roster, n, steps[0], x, y, w))
  }

  /** The last word x has sent y, or y's listing of x when every word has arrived. */
  ghost predicate WordOk(sx: Local, sy: Local, c: Channel, w: Word) {
    && (sx.resuming > 0 ==> sx.joined || w.caught)
    && (!sy.known ==> !c.seen)
    && (sx.resuming == 0 && c.link != [] ==> (c.link[|c.link| - 1] == Join <==> sx.joined || w.caught))
    && (sx.resuming == 0 && c.link == [] ==> (c.seen <==> (sx.joined || w.caught) && w.heard))
  }

  lemma SpeakerKeepsWord(x: DeviceId, roster: seq<DeviceId>, sx: Local, sy: Local, c: Channel, w: Word, input: Input,
      y: DeviceId)
    requires WordOk(sx, sy, c, w) && x != y
    ensures var caught := if input.HangUp? && sx.joined then sx.resuming > 0 else w.caught;
            WordOk(React(x, roster, sx, input).0, sy, Sent(c, Posted(x, roster, sx, input, y)), w.(caught := caught))
  {
    assert Sent(c, []) == c;
  }

  lemma HearerKeepsWord(sx: Local, sy: Local, c: Channel, w: Word, x: DeviceId, roster: seq<DeviceId>, input: Input,
      y: DeviceId)
    requires WordOk(sx, sy, c, w) && x != y && c.seen == (x in sy.present)
    requires input.Hear? && input.from == x ==> c.link != [] && c.link[0] == input.message
    ensures var after := React(y, roster, sy, input).0;
            var heard := if input.Hear? && input.from == x then sy.known else w.heard;
            WordOk(sx, after, Left(c, after, input, x), w.(heard := heard))
  {
  }

  /** What a step makes of the word, seen from who acts. */
  lemma WordParts(roster: seq<DeviceId>, n: Net, step: Step, x: DeviceId, y: DeviceId, w: Word)
    requires Enabled(roster, n, step) && x in roster && y in roster && x != y
    ensures var d, input, next := Actor(roster, n, step), InputOf(roster, n, step), WordNext(roster, n, step, x, y, w);
            var caught := if input.HangUp? && n.locals[x].joined then n.locals[x].resuming > 0 else w.caught;
            && (x == d ==> next == w.(caught := caught))
            && (y == d ==>
                  next == w.(heard := if input.Hear? && input.from == x then n.locals[y].known else w.heard))
            && (x != d && y != d ==> next == w)
  {
  }

  lemma SpeakerStepKeepsWord(roster: seq<DeviceId>, n: Net, step: Step, x: DeviceId, y: DeviceId, w: Word)
    requires Enabled(roster, n, step) && x == Actor(roster, n, step) && y in roster && x != y
    requires WordOk(n.locals[x], n.locals[y], ChannelOf(n, x, y), w)
    ensures var next := Next(roster, n, step);
            && x in next.locals && y in next.locals
            && WordOk(next.locals[x], next.locals[y], ChannelOf(next, x, y), WordNext(roster, n, step, x, y, w))
  {
    NextChannels(roster, n, step, x, y);
    WordParts(roster, n, step, x, y, w);
    SpeakerKeepsWord(x, roster, n.locals[x], n.locals[y], ChannelOf(n, x, y), w, InputOf(roster, n, step), y);
  }

  lemma HearerStepKeepsWord(roster: seq<DeviceId>, n: Net, step: Step, x: DeviceId, y: DeviceId, w: Word)
    requires Enabled(roster, n, step) && x in roster && y == Actor(roster, n, step) && x != y
    requires WordOk(n.locals[x], n.locals[y], ChannelOf(n, x, y), w)
    ensures var next := Next(roster, n, step);
            && x in next.locals && y in next.locals
            && WordOk(next.locals[x], next.locals[y], ChannelOf(next, x, y), WordNext(roster, n, step, x, y, w))
  {
    NextChannels(roster, n, step, y, x);
    WordParts(roster, n, step, x, y, w);
    HearerKeepsWord(n.locals[x], n.locals[y], ChannelOf(n, x, y), w, x, roster, InputOf(roster, n, step), y);
  }

  lemma StepKeepsWord(roster: seq<DeviceId>, n: Net, step: Step, x: DeviceId, y: DeviceId, w: Word)
    requires Enabled(roster, n, step) && x in roster && y in roster && x != y
    requires WordOk(n.locals[x], n.locals[y], ChannelOf(n, x, y), w)
    ensures WellFormed(roster, Next(roster, n, step))
    ensures var next := Next(roster, n, step);
            WordOk(next.locals[x], next.locals[y], ChannelOf(next, x, y), WordNext(roster, n, step, x, y, w))
  {
    NextWellFormed(roster, n, step);
    if x == Actor(roster, n, step) {
      SpeakerStepKeepsWord(roster, n, step, x, y, w);
    } else if y == Actor(roster, n, step) {
      HearerStepKeepsWord(roster, n, step, x, y, w);
    } else {
      NextElsewhere(roster, n, step, x, y);
      WordParts(roster, n, step, x, y, w);
    }
  }

  lemma {:induction false} RunKeepsWord(roster: seq<DeviceId>, n: Net, steps: seq<Step>, end: Net, x: DeviceId,
      y: DeviceId, w: Word)
    requires WellFormed(roster, n) && Runs(roster, n, steps, end) && x in roster && y in roster && x != y
    requires WordOk(n.locals[x], n.locals[y], ChannelOf(n, x, y), w)
    ensures WellFormed(roster, end)
    ensures WordOk(end.locals[x], end.locals[y], ChannelOf(end, x, y), WordAfter(roster, n, steps, x, y, w))
    decreases |steps|
  {
    if steps == [] {
    } else {
      StepKeepsWord(roster, n, steps[0], x, y, w);
      RunKeepsWord(roster, Next(roster, n, steps[0]), steps[1..], end, x, y, WordNext(roster, n, steps[0], x, y, w));
    }
  }

  /** In every run, once nothing is in flight and no join of x waits: y lists x if and only
      if x is in the call or its last hang-up caught a join waiting, and y had the room when
      x's latest message reached it. */
  lemma ListedExactly(roster: seq<DeviceId>, start: Net, steps: seq<Step>, end: Net, x: DeviceId, y: DeviceId)
    requires Start(roster, start) && Runs(roster, start, steps, end) && end.flight == []
    requires x in roster && y in roster && x != y
    ensures WellFormed(roster, end)
    ensures end.locals[x].resuming == 0 ==>
      var w := WordAfter(roster, start, steps, x, y, NO_WORD);
      (x in end.locals[y].present <==> (end.locals[x].joined || w.caught) && w.heard)
  {
    assert Quiet(start.locals[x]) && Quiet(start.locals[y]);
    RunKeepsWord(roster, start, steps, end, x, y, NO_WORD);
  }

  /** A device's listing of itself, as far as its waiting joins allow. */
  ghost predicate SelfOk(x: DeviceId, s: Local, caught: bool) {
    && (s.resuming > 0 ==> s.joined || caught)
    && (s.resuming == 0 ==> (x in s.present <==> s.joined || caught))
  }

  lemma ReactKeepsSelf(x: DeviceId, roster: seq<DeviceId>, s: Local, caught: bool, input: Input)
    requires SelfOk(x, s, caught) && (input.Hear? ==> input.from != x)
    ensures SelfOk(x, React(x, roster, s, input).0, if input.HangUp? && s.joined then s.resuming > 0 else caught)
  {
  }

  lemma StepKeepsSelf(roster: seq<DeviceId>, n: Net, step: Step, x: DeviceId, y: DeviceId, w: Word)
    requires Enabled(roster, n, step) && x in roster && y in roster && x != y && SelfOk(x, n.locals[x], w.caught)
    ensures WellFormed(roster, Next(roster, n, step))
    ensures SelfOk(x, Next(roster, n, step).locals[x], WordNext(roster, n, step, x, y, w).caught)
  {
    NextWellFormed(roster, n, step);
    WordParts(roster, n, step, x, y, w);
    if x == Actor(roster, n, step) {
      if step.Arrive? {
        assert n.flight[step.at] in n.flight;
      }
      ReactKeepsSelf(x, roster, n.locals[x], w.caught, InputOf(roster, n, step));
    }
  }

  lemma {:induction false} RunKeepsSelf(roster: seq<DeviceId>, n: Net, steps: seq<Step>, end: Net, x: DeviceId,
      y: DeviceId, w: Word)
    requires WellFormed(roster, n) && Runs(roster, n, steps, end) && x in roster && y in roster && x != y
    requires SelfOk(x, n.locals[x], w.caught)
    ensures WellFormed(roster, end) && SelfOk(x, end.locals[x], WordAfter(roster, n, steps, x, y, w).caught)
    decreases |steps|
  {
    if steps == [] {
    } else {
      StepKeepsSelf(roster, n, steps[0], x, y, w);
      RunKeepsSelf(roster, Next(roster, n, steps[0]), steps[1..], end, x, y, WordNext(roster, n, steps[0], x, y, w));
    }
  }

  /** In every run, with no join of its own waiting, a device lists itself if and only if it is
      in the call or its last hang-up caught a join waiting. */
  lemma ListsItself(roster: seq<DeviceId>, start: Net, steps: seq<Step>, end: Net, x: DeviceId, y: DeviceId)
    requires Start(roster, start) && Runs(roster, start, steps, end) && x in roster && y in roster && x != y
    ensures WellFormed(roster, end)
    ensures end.locals[x].resuming == 0 ==>
      (x in end.locals[x].present <==>
        end.locals[x].joined || WordAfter(roster, start, steps, x, y, NO_WORD).caught)
  {
    assert Quiet(start.locals[x]);
    RunKeepsSelf(roster, start, steps, end, x, y, NO_WORD);
  }

  // One hang-up, followed to the end

  /** y has the room, and x's latest message is under way to it or reached it so. */
  ghost predicate Reaches(n: Net, x: DeviceId, y: DeviceId, w: Word) {
    y in n.locals && n.locals[y].known && (Link(n.flight, x, y) != [] || w.heard)
  }

  lemma ReactKeeps(me: DeviceId, roster: seq<DeviceId>, s: Local, input: Input)
    ensures var after := React(me, roster, s, input).0;
            && (s.known ==> after.known)
            && (input.Hear? ==> after.joined == s.joined && after.resuming == s.resuming)
  {
  }

  lemma SpeakerReaches(roster: seq<DeviceId>, n: Net, step: Step, x: DeviceId, y: DeviceId)
    requires Enabled(roster, n, step) && x == Actor(roster, n, step) && y in roster && x != y
    ensures y in Next(roster, n, step).locals && Next(roster, n, step).locals[y] == n.locals[y]
    ensures Link(n.flight, x, y) != [] ==> Link(Next(roster, n, step).flight, x, y) != []
  {
    NextChannels(roster, n, step, x, y);
    assert ChannelOf(Next(roster, n, step), x, y).link == Link(Next(roster, n, step).flight, x, y);
  }

  lemma HearerReaches(roster: seq<DeviceId>, n: Net, step: Step, x: DeviceId, y: DeviceId)
    requires Enabled(roster, n, step) && y == Actor(roster, n, step) && x in roster && x != y
    ensures y in Next(roster, n, step).locals && (n.locals[y].known ==> Next(roster, n, step).locals[y].known)
    ensures Link(Next(roster, n, step).flight, x, y) == Link(n.flight, x, y) ||
      (step.Arrive? && n.flight[step.at].from == x && n.flight[step.at].to == y)
  {
    NextChannels(roster, n, step, y, x);
    ReactKeeps(y, roster, n.locals[y], InputOf(roster, n, step));
    assert ChannelOf(Next(roster, n, step), x, y).link == Link(Next(roster, n, step).flight, x, y);
  }

  lemma StepReaches(roster: seq<DeviceId>, n: Net, step: Step, x: DeviceId, y: DeviceId, w: Word)
    requires Enabled(roster, n, step) && x in roster && y in roster && x != y && Reaches(n, x, y, w)
    ensures Reaches(Next(roster, n, step), x, y, WordNext(roster, n, step, x, y, w))
  {
    var d := Actor(roster, n, step);
    if x == d {
      SpeakerReaches(roster, n, step, x, y);
    } else if y == d {
      HearerReaches(roster, n, step, x, y);
    } else {
      NextElsewhere(roster, n, step, x, y);
    }
  }

  lemma ReactStaysOut(me: DeviceId, roster: seq<DeviceId>, s: Local, input: Input)
    requires !s.joined && !input.StartJoin?
    ensures !React(me, roster, s, input).0.joined
  {
  }

  /** While x does not join again, what its hang-up found stands. */
  lemma StepStaysOut(roster: seq<DeviceId>, n: Net, step: Step, x: DeviceId, y: DeviceId, w: Word)
    requires Enabled(roster, n, step) && x in roster && y in roster && !n.locals[x].joined && step != Act(x, StartJoin)
    ensures x in Next(roster, n, step).locals && !Next(roster, n, step).locals[x].joined
    ensures WordNext(roster, n, step, x, y, w).caught == w.caught
  {
    if x == Actor(roster, n, step) {
      ReactStaysOut(x, roster, n.locals[x], InputOf(roster, n, step));
    }
  }

  lemma {:induction false} RunStaysOut(roster: seq<DeviceId>, n: Net, steps: seq<Step>, end: Net, x: DeviceId,
      y: DeviceId, w: Word)
    requires WellFormed(roster, n) && Runs(roster, n, steps, end) && x in roster && y in roster && x != y
    requires !n.locals[x].joined && Reaches(n, x, y, w)
    requires forall k :: 0 <= k < |steps| ==> steps[k] != Act(x, StartJoin)
    ensures WellFormed(roster, end) && !end.locals[x].joined
    ensures Reaches(end, x, y, WordAfter(roster, n, steps, x, y, w))
      && WordAfter(roster, n, steps, x, y, w).caught == w.caught
    decreases |steps|
  {
    if steps == [] {
    } else {
      NextWellFormed(roster, n, steps[0]);
      StepReaches(roster, n, steps[0], x, y, w);
      StepStaysOut(roster, n, steps[0], x, y, w);
      RunStaysOut(roster, Next(roster, n, steps[0]), steps[1..], end, x, y, WordNext(roster, n, steps[0], x, y, w));
    }
  }

  /** A device that hangs up, and does not join again, is still listed by one that has the
      room, when its waiting joins and all messages have run their course in whatever order,
      if and only if a join was waiting when it hung up. */
  lemma HangUpHeardUnlessJoining(roster: seq<DeviceId>, start: Net, before: seq<Step>, n: Net, steps: seq<Step>,
      end: Net, x: DeviceId, y: DeviceId)
    requires Start(roster, start) && Runs(roster, start, before, n) && WellFormed(roster, n)
    requires x in roster && y in roster && x != y && n.locals[x].joined && n.locals[y].known
    requires Runs(roster, Next(roster, n, Act(x, HangUp)), steps, end)
    requires forall k :: 0 <= k < |steps| ==> steps[k] != Act(x, StartJoin)
    ensures WellFormed(roster, end)
    ensures end.flight == [] && end.locals[x].resuming == 0 ==>
      (x in end.locals[y].present <==> n.locals[x].resuming > 0)
  {
    assert Quiet(start.locals[x]) && Quiet(start.locals[y]);
    RunKeepsWord(roster, start, before, n, x, y, NO_WORD);
    var w, out := WordAfter(roster, start, before, x, y, NO_WORD), Act(x, HangUp);
    var next, left := Next(roster, n, out), WordNext(roster, n, out, x, y, w);
    StepKeepsWord(roster, n, out, x, y, w);
    NextChannels(roster, n, out, x, y);
    RunKeepsWord(roster, next, steps, end, x, y, left);
    RunStaysOut(roster, next, steps, end, x, y, left);
  }

  lemma RunsFirst(roster: seq<DeviceId>, n: Net, step: Step, rest: seq<Step>, end: Net)
    requires Enabled(roster, n, step) && Runs(roster, Next(roster, n, step), rest, end)
    ensures Runs(roster, n, [step] + rest, end)
  {
    assert ([step] + rest)[1..] == rest;
  }

  lemma ArrivalKeepsJoining(roster: seq<DeviceId>, n: Net, step: Step, x: DeviceId)
    requires Enabled(roster, n, step) && step.Arrive? && x in roster
    ensures WellFormed(roster, Next(roster, n, step))
    ensures var after := Next(roster, n, step).locals[x];
            after.joined == n.locals[x].joined && after.resuming == n.locals[x].resuming
  {
    NextWellFormed(roster, n, step);
    ReactKeeps(Actor(roster, n, step), roster, n.locals[Actor(roster, n, step)], InputOf(roster, n, step));
  }

  lemma {:induction false} ArrivalsKeepJoining(roster: seq<DeviceId>, n: Net, steps: seq<Step>, end: Net, x: DeviceId)
    requires WellFormed(roster, n) && Runs(roster, n, steps, end) && x in roster
    requires forall k :: 0 <= k < |steps| ==> steps[k].Arrive?
    ensures WellFormed(roster, end)
    ensures end.locals[x].joined == n.locals[x].joined && end.locals[x].resuming == n.locals[x].resuming
    decreases |steps|
  {
    if steps == [] {
    } else {
      ArrivalKeepsJoining(roster, n, steps[0], x);
      ArrivalsKeepJoining(roster, Next(roster, n, steps[0]), steps[1..], end, x);
    }
  }

  /** A device acting alone changes its own state only. */
  lemma ActAlone(roster: seq<DeviceId>, n: Net, x: DeviceId, input: Input)
    requires WellFormed(roster, n) && x in roster && !input.Hear?
    ensures WellFormed(roster, Next(roster, n, Act(x, input)))
    ensures Next(roster, n, Act(x, input)).locals == n.locals[x := React(x, roster, n.locals[x], input).0]
  {
    NextWellFormed(roster, n, Act(x, input));
  }

  /** Three steps that lead from a joined, unannounced device to an announced absent one. */
  lemma CaughtJoin(roster: seq<DeviceId>, start: Net, x: DeviceId) returns (n: Net, left: Net, announced: Net)
    requires Start(roster, start) && x in roster && start.locals[x].known
    ensures n == Next(roster, start, Act(x, StartJoin)) && left == Next(roster, n, Act(x, HangUp))
    ensures WellFormed(roster, n) && WellFormed(roster, left) && WellFormed(roster, announced)
    ensures announced == Next(roster, left, Act(x, ResumeJoin))
    ensures n.locals == start.locals[x := start.locals[x].(joined := true, resuming := 1)]
    ensures !announced.locals[x].joined && announced.locals[x].resuming == 0
  {
    assert Quiet(start.locals[x]);
    ActAlone(roster, start, x, StartJoin);
    n := Next(roster, start, Act(x, StartJoin));
    ActAlone(roster, n, x, HangUp);
    left := Next(roster, n, Act(x, HangUp));
    ActAlone(roster, left, x, ResumeJoin);
    announced := Next(roster, left, Act(x, ResumeJoin));
  }

  /** It does happen, to any two members who have the room: one joins and hangs up before the
      room scope has started, and ends up listed by the other without being in the call. */
  lemma ListedButGone(roster: seq<DeviceId>, start: Net, x: DeviceId, y: DeviceId) returns (steps: seq<Step>, end: Net)
    requires Start(roster, start) && x in roster && y in roster && x != y
    requires start.locals[x].known && start.locals[y].known
    ensures Runs(roster, start, steps, end) && WellFormed(roster, end) && end.flight == []
    ensures x in end.locals[y].present && !end.locals[x].joined && end.locals[x].resuming == 0
  {
    var joining, out, resumed := Act(x, StartJoin), Act(x, HangUp), Act(x, ResumeJoin);
    var n, left, announced := CaughtJoin(roster, start, x);
    var rest: seq<Step>;
    rest, end := DeliveriesDrain(roster, announced);
    ArrivalsKeepJoining(roster, announced, rest, end, x);
    var later := [resumed] + rest;
    RunsFirst(roster, left, resumed, rest, end);
    CaughtIsListed(roster, start, n, later, end, x, y);
    RunsFirst(roster, n, out, later, end);
    steps := [joining] + ([out] + later);
    RunsFirst(roster, start, joining, [out] + later, end);
  }

  lemma CaughtIsListed(roster: seq<DeviceId>, start: Net, n: Net, later: seq<Step>, end: Net, x: DeviceId, y: DeviceId)
    requires Start(roster, start) && x in roster && y in roster && x != y && start.locals[y].known
    requires n == Next(roster, start, Act(x, StartJoin)) && WellFormed(roster, n)
    requires n.locals[x].joined && n.locals[x].resuming == 1 && n.locals[y] == start.locals[y]
    requires Runs(roster, Next(roster, n, Act(x, HangUp)), later, end) && WellFormed(roster, end)
    requires forall k :: 0 <= k < |later| ==> later[k] != Act(x, StartJoin)
    requires end.flight == [] && end.locals[x].resuming == 0
    ensures x in end.locals[y].present
  {
    RunsFirst(roster, start, Act(x, StartJoin), [], n);
    HangUpHeardUnlessJoining(roster, start, [Act(x, StartJoin)] + [], n, later, end, x, y);
  }

  // The call as the store keeps it

  class RoomCall {
    const me: DeviceId
    const members: seq<DeviceId>
    var known: bool
    var joined: bool
    var resuming: nat
    var present: seq<DeviceId>
    /** The messages handed to the network so far. */
    var sent: seq<Envelope>

    ghost function View(): Local
      reads this
    {
      Local(known, joined, resuming, set d | d in present)
    }

    constructor (me: DeviceId, members: seq<DeviceId>)
      ensures this.me == me && this.members == members
      ensures View() == Local(false, false, 0, {}) && sent == []
    {
      this.me, this.members := me, members;
      known, joined, resuming, present, sent := false, false, 0, [], [];
    }

    method PresenceAdd(member: DeviceId)
      modifies this`present
      ensures View() == old(View()).(present := old(View()).present + {member})
    {
      if member !in present {
        present := present + [member];
      }
    }

    method PresenceDrop(member: DeviceId)
      modifies this`present
      ensures View() == old(View()).(present := old(View()).present - {member})
    {
      var kept: seq<DeviceId> := [];
      var i: nat := 0;
      while i < |present|
        invariant i <= |present| && present == old(present)
        invariant forall d :: d in kept <==> d in present[..i] && d != member
      {
        if present[i] != member {
          kept := kept + [present[i]];
        }
        i := i + 1;
      }
      present := kept;
    }

    method BroadcastRoom(message: Message)
      modifies this`sent
      ensures sent == old(sent) + Fan(me, members, message)
    {
      var i: nat := 0;
      assert members[0..] == members;
      while i < |members|
        invariant i <= |members|
        invariant old(sent) + Fan(me, members, message) == sent + Fan(me, members[i..], message)
      {
        assert members[i..][1..] == members[i + 1..];
        if members[i] != me {
          sent := sent + [Envelope(me, members[i], message)];
        }
        i := i + 1;
      }
    }

    method JoinRoomHere()
      modifies this`joined, this`resuming
      ensures View() == React(me, members, old(View()), StartJoin).0
    {
      if known && !joined {
        joined, resuming := true, resuming + 1;
      }
    }

    /** What joining does once the room scope has started. */
    method ScopeStarted()
      requires resuming > 0
      modifies this`resuming, this`present, this`sent
      ensures var (after, out) := React(me, members, old(View()), ResumeJoin);
              View() == after && sent == old(sent) + out
    {
      resuming := resuming - 1;
      PresenceAdd(me);
      BroadcastRoom(Join);
    }

    method LeaveRoom()
      modifies this`joined, this`present, this`sent
      ensures var (after, out) := React(me, members, old(View()), HangUp);
              View() == after && sent == old(sent) + out
    {
      if !joined {
        return;
      }
      joined := false;
      PresenceDrop(me);
      BroadcastRoom(Leave);
    }

    method HandleJoin(sender: DeviceId)
      modifies this`present, this`sent
      ensures var (after, out) := React(me, members, old(View()), Hear(sender, Join));
              View() == after && sent == old(sent) + out
    {
      if known {
        var knewThem := sender in present;
        PresenceAdd(sender);
        if !knewThem && joined {
          sent := sent + [Envelope(me, sender, Join)];
        }
      }
    }

    method HandleLeave(sender: DeviceId)
      modifies this`present
      ensures View() == React(me, members, old(View()), Hear(sender, Leave)).0
    {
      PresenceDrop(sender);
    }
  }
}
