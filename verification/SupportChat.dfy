/** A technician's chat with a customer: lines shown at once under a temporary id, then
    reconciled by the send's reply and by the echo, in whichever order they come. */
module SupportChat {
  import opened Wrappers

  type Peer = nat
  type NodeId = nat

  /** A row is temporary until the node's id for it is known; the k-th send makes Local(k). */
  datatype LineId = Local(send: nat) | Node(id: NodeId)

  datatype Party = Technician | Client

  datatype Row = Row(id: LineId, from: Party, text: string, ts: int)

  type Thread = seq<Row>

  predicate Holds(thread: Thread, id: LineId) {
    exists i :: 0 <= i < |thread| && thread[i].id == id
  }

  predicate IsPending(row: Row, text: string) {
    row.id.Local? && row.from == Technician && row.text == text
  }

  /** `findIndex` of the first pending technician row with this text. */
  function PendingIndex(thread: Thread, text: string, start: nat): (r: Option<nat>)
    requires start <= |thread|
    ensures r.Some? ==> start <= r.value < |thread| && IsPending(thread[r.value], text)
    ensures r.None? ==> forall i :: start <= i < |thread| ==> !IsPending(thread[i], text)
    decreases |thread| - start
  {
    if start == |thread| then None
    else if IsPending(thread[start], text) then Some(start)
    else PendingIndex(thread, text, start + 1)
  }

  /** appendChat, on one customer's thread. */
  function Append(thread: Thread, row: Row): Thread {
    if Holds(thread, row.id) then thread
    else if row.from == Technician && PendingIndex(thread, row.text, 0).Some? then
      thread[PendingIndex(thread, row.text, 0).value := row]
    else thread + [row]
  }

  /** What sendChat does with the reply to its k-th send. */
  function Reconcile(thread: Thread, send: nat, id: NodeId, ts: int): Thread {
    if Holds(thread, Local(send)) && !Holds(thread, Node(id)) then
      seq(|thread|, i requires 0 <= i < |thread| =>
        if thread[i].id == Local(send) then thread[i].(id := Node(id), ts := ts) else thread[i])
    else thread
  }

  // The thread, the sends, and the lines the node has numbered

  datatype Line = Line(from: Party, text: string, ts: int)

  /** `accepted` is the id the node gave the send, if it has taken it. */
  datatype Sending = Sending(text: string, accepted: Option<NodeId>)

  datatype State = State(thread: Thread, sends: seq<Sending>, issued: map<NodeId, Line>, echoed: set<NodeId>)

  /** The node may take a send, or a line of somebody else, under any unused id; it echoes
      any line any number of times; a reply may come before or after echoes, or never. */
  datatype Step =
    | Send(text: string)
    | Accept(send: nat, id: NodeId, ts: int)
    | Foreign(id: NodeId, line: Line)
    | Echo(id: NodeId)
    | Reply(send: nat)

  predicate Enabled(s: State, step: Step) {
    match step
    case Send(_) => true
    case Accept(send, id, _) => send < |s.sends| && s.sends[send].accepted.None? && id !in s.issued
    case Foreign(id, _) => id !in s.issued
    case Echo(id) => id in s.issued
    case Reply(send) => send < |s.sends| && s.sends[send].accepted.Some? && s.sends[send].accepted.value in s.issued
  }

  function RowOf(id: NodeId, line: Line): Row {
    Row(Node(id), line.from, line.text, line.ts)
  }

  function Next(s: State, step: Step, now: int): State
    requires Enabled(s, step)
  {
    match step
    case Send(text) =>
      s.(thread := Append(s.thread, Row(Local(|s.sends|), Technician, text, now)),
         sends := s.sends + [Sending(text, None)])
    case Accept(send, id, ts) =>
      s.(sends := s.sends[send := s.sends[send].(accepted := Some(id))],
         issued := s.issued[id := Line(Technician, s.sends[send].text, ts)])
    case Foreign(id, line) => s.(issued := s.issued[id := line])
    case Echo(id) => s.(thread := Append(s.thread, RowOf(id, s.issued[id])), echoed := s.echoed + {id})
    case Reply(send) =>
      var id := s.sends[send].accepted.value;
      s.(thread := Reconcile(s.thread, send, id, s.issued[id].ts))
  }

  // What every run keeps

  ghost predicate EachIdOnce(thread: Thread) {
    forall i, j :: 0 <= i < j < |thread| ==> thread[i].id != thread[j].id
  }

  /** One pending row per text. */
  ghost predicate OnePending(thread: Thread) {
    forall i, j :: 0 <= i < j < |thread| && thread[i].id.Local? && thread[j].id.Local? ==>
      thread[i].text != thread[j].text
  }

  ghost predicate RowOk(s: State, row: Row) {
    match row.id
    case Node(id) => id in s.issued && row.from == s.issued[id].from && row.text == s.issued[id].text
    case Local(k) =>
      && k < |s.sends| && row.from == Technician && row.text == s.sends[k].text
      && (s.sends[k].accepted.Some? ==> !Holds(s.thread, Node(s.sends[k].accepted.value)))
  }

  ghost predicate SendsOk(s: State) {
    && (forall k :: 0 <= k < |s.sends| && s.sends[k].accepted.Some? ==> SendOk(s, s.sends[k]))
    && (forall j, k :: 0 <= j < k < |s.sends| && s.sends[j].accepted.Some? ==>
      s.sends[j].accepted != s.sends[k].accepted)
  }

  ghost predicate SendOk(s: State, send: Sending)
    requires send.accepted.Some?
  {
    var id := send.accepted.value;
    id in s.issued && s.issued[id].from == Technician && s.issued[id].text == send.text
  }

  ghost predicate Inv(s: State) {
    && EachIdOnce(s.thread) && OnePending(s.thread) && SendsOk(s)
    && (forall i :: 0 <= i < |s.thread| ==> RowOk(s, s.thread[i]))
    && (forall id :: id in s.echoed ==> id in s.issued && Holds(s.thread, Node(id)))
  }

  /** Appending adds the row; all it can lose is one pending row of the same text. */
  lemma AppendHolds(thread: Thread, row: Row)
    ensures Holds(Append(thread, row), row.id)
    ensures forall id :: Holds(thread, id) && id.Node? ==> Holds(Append(thread, row), id)
    ensures forall id :: Holds(Append(thread, row), id) ==> Holds(thread, id) || id == row.id
    ensures forall i :: 0 <= i < |Append(thread, row)| && Append(thread, row)[i] !in thread ==>
      Append(thread, row)[i] == row
  {
    var after := Append(thread, row);
    if after != thread {
      var pending := PendingIndex(thread, row.text, 0);
      var at := if row.from == Technician && pending.Some? then pending.value else |thread|;
      assert after[at] == row;
      forall id | Holds(thread, id) && id.Node? ensures Holds(after, id) {
        var i :| 0 <= i < |thread| && thread[i].id == id;
        assert after[i] == thread[i];
      }
    }
  }

  lemma AppendKeepsShape(thread: Thread, row: Row)
    requires EachIdOnce(thread) && OnePending(thread)
    requires row.id.Local? ==> row.from == Technician
    requires forall i :: 0 <= i < |thread| && thread[i].id.Local? ==> thread[i].from == Technician
    ensures EachIdOnce(Append(thread, row)) && OnePending(Append(thread, row))
    ensures row.from == Technician && !Holds(thread, row.id) ==>
      forall i :: 0 <= i < |Append(thread, row)| && Append(thread, row)[i].id.Local?
        && Append(thread, row)[i].text == row.text
        ==> Append(thread, row)[i] == row
  {
  }

  lemma SendKeepsInv(s: State, text: string, now: int)
    requires Inv(s)
    ensures Inv(Next(s, Send(text), now))
  {
    var row, after := Row(Local(|s.sends|), Technician, text, now), Next(s, Send(text), now);
    forall i | 0 <= i < |s.thread|
      ensures s.thread[i].id != row.id && (s.thread[i].id.Local? ==> s.thread[i].from == Technician)
    {
      assert RowOk(s, s.thread[i]);
    }
    AppendHolds(s.thread, row);
    AppendKeepsShape(s.thread, row);
    forall i | 0 <= i < |after.thread| ensures RowOk(after, after.thread[i]) {
      if after.thread[i] in s.thread {
        assert RowOk(s, after.thread[i]);
      }
    }
    forall k | 0 <= k < |s.sends| && s.sends[k].accepted.Some? ensures SendOk(after, s.sends[k]) {
      assert SendOk(s, s.sends[k]);
    }
  }

  lemma NumberingKeepsInv(s: State, step: Step, now: int)
    requires Inv(s) && Enabled(s, step) && (step.Accept? || step.Foreign?)
    ensures Inv(Next(s, step, now))
  {
    var after := Next(s, step, now);
    forall i | 0 <= i < |s.thread| ensures RowOk(after, s.thread[i]) && s.thread[i].id != Node(step.id) {
      assert RowOk(s, s.thread[i]);
    }
    forall k | 0 <= k < |s.sends| && s.sends[k].accepted.Some?
      ensures SendOk(after, s.sends[k]) && s.sends[k].accepted.value != step.id
    {
      assert SendOk(s, s.sends[k]);
    }
  }

  lemma EchoKeepsInv(s: State, id: NodeId, now: int)
    requires Inv(s) && id in s.issued
    ensures Inv(Next(s, Echo(id), now))
  {
    var row, after := RowOf(id, s.issued[id]), Next(s, Echo(id), now);
    forall i | 0 <= i < |s.thread| && s.thread[i].id.Local? ensures s.thread[i].from == Technician {
      assert RowOk(s, s.thread[i]);
    }
    AppendHolds(s.thread, row);
    AppendKeepsShape(s.thread, row);
    forall i | 0 <= i < |after.thread| ensures RowOk(after, after.thread[i]) {
      if after.thread[i] in s.thread {
        assert RowOk(s, after.thread[i]);
        if after.thread[i].id.Local? {
          EchoCollapses(s, id, after.thread, after.thread[i]);
        }
      }
    }
  }

  /** After a line's echo, its own temporary row is gone. */
  lemma EchoCollapses(s: State, id: NodeId, thread: Thread, row: Row)
    requires Inv(s) && id in s.issued && thread == Append(s.thread, RowOf(id, s.issued[id]))
    requires row in thread && row in s.thread && RowOk(s, row) && row.id.Local?
    ensures s.sends[row.id.send].accepted != Some(id)
  {
    AppendKeepsShape(s.thread, RowOf(id, s.issued[id])) by {
      forall i | 0 <= i < |s.thread| && s.thread[i].id.Local? ensures s.thread[i].from == Technician {
        assert RowOk(s, s.thread[i]);
      }
    }
  }

  lemma ReplyKeepsInv(s: State, send: nat, now: int)
    requires Inv(s) && Enabled(s, Reply(send))
    ensures Inv(Next(s, Reply(send), now))
  {
    var id, after := s.sends[send].accepted.value, Next(s, Reply(send), now);
    assert SendOk(s, s.sends[send]);
    if after.thread != s.thread {
      forall i | 0 <= i < |s.thread|
        ensures RowOk(s, s.thread[i])
        ensures after.thread[i].text == s.thread[i].text
          && (after.thread[i].id == s.thread[i].id || after.thread[i].id == Node(id))
      {
      }
      forall other | Holds(s.thread, Node(other)) ensures Holds(after.thread, Node(other)) {
        var i :| 0 <= i < |s.thread| && s.thread[i].id == Node(other);
        assert after.thread[i] == s.thread[i];
      }
      forall i | 0 <= i < |after.thread| ensures RowOk(after, after.thread[i]) {
      }
    }
  }

  lemma StepKeepsInv(s: State, step: Step, now: int)
    requires Inv(s) && Enabled(s, step)
    ensures Inv(Next(s, step, now))
  {
    match step
    case Send(text) => SendKeepsInv(s, text, now);
    case Accept(_, _, _) => NumberingKeepsInv(s, step, now);
    case Foreign(_, _) => NumberingKeepsInv(s, step, now);
    case Echo(id) => EchoKeepsInv(s, id, now);
    case Reply(send) => ReplyKeepsInv(s, send, now);
  }

  // The order of a thread

  /** Every row stands where it stood and tells the line it told, a numbered row is wholly as it
      was, and what is new comes after. */
  ghost predicate StaysInPlace(before: Thread, after: Thread) {
    && |before| <= |after|
    && forall i :: 0 <= i < |before| ==> RowStays(before[i], after[i])
  }

  ghost predicate RowStays(before: Row, after: Row) {
    && after.from == before.from && after.text == before.text
    && (before.id.Node? ==> after == before)
  }

  ghost predicate NewTo(thread: Thread, row: Row) {
    forall i :: 0 <= i < |thread| ==> thread[i].id != row.id
  }

  /** The row is what a temporary one was waiting for. */
  ghost predicate Answers(row: Row, waiting: Row) {
    row.from == waiting.from == Technician && waiting.id.Local? && waiting.text == row.text
  }

  /** A row whose id is there changes nothing; one that answers no temporary row comes last. */
  lemma AppendPlaces(thread: Thread, row: Row)
    ensures StaysInPlace(thread, Append(thread, row))
    ensures !NewTo(thread, row) ==> Append(thread, row) == thread
    ensures NewTo(thread, row) && (forall i :: 0 <= i < |thread| ==> !Answers(row, thread[i])) ==>
      Append(thread, row) == thread + [row]
  {
  }

  /** A new row replaces the first temporary row it answers. */
  lemma AppendReplaces(thread: Thread, row: Row, i: nat)
    requires NewTo(thread, row) && i < |thread| && Answers(row, thread[i])
    requires forall j :: 0 <= j < i ==> !Answers(row, thread[j])
    ensures Append(thread, row) == thread[i := row]
  {
    FirstPending(thread, row.text, 0, i);
  }

  lemma {:induction false} FirstPending(thread: Thread, text: string, start: nat, i: nat)
    requires start <= i < |thread| && IsPending(thread[i], text)
    requires forall j :: start <= j < i ==> !IsPending(thread[j], text)
    ensures PendingIndex(thread, text, start) == Some(i)
    decreases i - start
  {
    if start == i {
    } else {
      FirstPending(thread, text, start + 1, i);
    }
  }

  // Every run

  /** The steps taken in order, each at its clock reading, lead from one state to the other. */
  ghost predicate Runs(s: State, steps: seq<(Step, int)>, end: State)
    decreases |steps|
  {
    if steps == [] then end == s
    else Enabled(s, steps[0].0) && Runs(Next(s, steps[0].0, steps[0].1), steps[1..], end)
  }

  const START := State([], [], map[], {})

  lemma {:induction false} RunKeepsInv(s: State, steps: seq<(Step, int)>, end: State)
    requires Inv(s) && Runs(s, steps, end)
    ensures Inv(end)
    decreases |steps|
  {
    if steps == [] {
    } else {
      StepKeepsInv(s, steps[0].0, steps[0].1);
      RunKeepsInv(Next(s, steps[0].0, steps[0].1), steps[1..], end);
    }
  }

  lemma StepStaysInPlace(s: State, step: Step, now: int)
    requires Enabled(s, step)
    ensures StaysInPlace(s.thread, Next(s, step, now).thread)
  {
    match step
    case Send(text) => AppendPlaces(s.thread, Row(Local(|s.sends|), Technician, text, now));
    case Echo(id) => AppendPlaces(s.thread, RowOf(id, s.issued[id]));
    case _ =>
  }

  /** Whatever a thread shows at one time it shows in the same order ever after, and lines that
      come later stand after it. */
  lemma {:induction false} ThreadKeepsOrder(s: State, steps: seq<(Step, int)>, end: State)
    requires Runs(s, steps, end)
    ensures StaysInPlace(s.thread, end.thread)
    decreases |steps|
  {
    if steps == [] {
    } else {
      var next := Next(s, steps[0].0, steps[0].1);
      StepStaysInPlace(s, steps[0].0, steps[0].1);
      ThreadKeepsOrder(next, steps[1..], end);
      forall i | 0 <= i < |s.thread| ensures RowStays(s.thread[i], end.thread[i]) {
        assert RowStays(s.thread[i], next.thread[i]) && RowStays(next.thread[i], end.thread[i]);
      }
    }
  }

  /** In every interleaving of sends, replies and repeated echoes, no id ever stands twice,
      and every row tells the line the node numbered. */
  lemma NoLineTwice(steps: seq<(Step, int)>, end: State)
    requires Runs(START, steps, end)
    ensures EachIdOnce(end.thread)
    ensures forall i :: 0 <= i < |end.thread| && end.thread[i].id.Node? ==>
      && end.thread[i].id.id in end.issued
      && end.thread[i].from == end.issued[end.thread[i].id.id].from
      && end.thread[i].text == end.issued[end.thread[i].id.id].text
  {
    RunKeepsInv(START, steps, end);
    forall i | 0 <= i < |end.thread| && end.thread[i].id.Node? ensures RowOk(end, end.thread[i]) {
    }
  }

  ghost function NodeIds(thread: Thread): set<NodeId> {
    set row | row in thread && row.id.Node? :: row.id.id
  }

  /** Once every numbered line has been echoed, the thread shows exactly the numbered lines,
      and the only temporary rows left are of sends the node never took. */
  lemma EchoesSettle(steps: seq<(Step, int)>, end: State)
    requires Runs(START, steps, end) && end.echoed == end.issued.Keys
    ensures EachIdOnce(end.thread) && NodeIds(end.thread) == end.issued.Keys
    ensures forall i :: 0 <= i < |end.thread| && end.thread[i].id.Local? ==>
      end.thread[i].id.send < |end.sends| && end.sends[end.thread[i].id.send].accepted.None?
    ensures (forall k :: 0 <= k < |end.sends| ==> end.sends[k].accepted.Some?) ==> |end.thread| == |end.issued|
  {
    RunKeepsInv(START, steps, end);
    forall id | id in end.issued ensures id in NodeIds(end.thread) {
      assert Holds(end.thread, Node(id));
    }
    forall row | row in end.thread ensures RowOk(end, row) {
    }
    forall i | 0 <= i < |end.thread| && end.thread[i].id.Local?
      ensures end.thread[i].id.send < |end.sends| && end.sends[end.thread[i].id.send].accepted.None?
    {
      assert RowOk(end, end.thread[i]);
    }
    if forall k :: 0 <= k < |end.sends| ==> end.sends[k].accepted.Some? {
      CountRows(end.thread);
      assert NodeIds(end.thread) == end.issued.Keys;
    }
  }

  lemma {:induction false} CountRows(thread: Thread)
    requires EachIdOnce(thread) && forall i :: 0 <= i < |thread| ==> thread[i].id.Node?
    ensures |NodeIds(thread)| == |thread|
  {
    if thread == [] {
    } else {
      var init, last := thread[..|thread| - 1], thread[|thread| - 1];
      CountRows(init);
      assert thread == init + [last];
      assert last.id.id !in NodeIds(init);
      assert NodeIds(thread) == NodeIds(init) + {last.id.id};
    }
  }

  // What a reply alone can do

  /** A step that takes away the temporary row of a pending line with this text: another send
      of it, or the echo of a technician line of it that was not shown yet. */
  ghost predicate Disturbs(s: State, step: Step, text: string)
    requires Enabled(s, step)
  {
    match step
    case Send(other) => other == text
    case Echo(id) => s.issued[id].from == Technician && s.issued[id].text == text && !Holds(s.thread, Node(id))
    case _ => false
  }

  ghost predicate Undisturbed(s: State, steps: seq<(Step, int)>, text: string)
    decreases |steps|
  {
    steps == [] || (Enabled(s, steps[0].0) && !Disturbs(s, steps[0].0, text)
      && Undisturbed(Next(s, steps[0].0, steps[0].1), steps[1..], text))
  }

  /** Appending a row of another id keeps a pending row exactly unless it is a new technician
      row with the same text. */
  lemma AppendKeepsPending(thread: Thread, row: Row, pending: Row)
    requires EachIdOnce(thread) && OnePending(thread) && pending in thread && IsPending(pending, pending.text)
    requires row.id != pending.id
    ensures Holds(Append(thread, row), pending.id) <==>
      !(row.from == Technician && row.text == pending.text && !Holds(thread, row.id))
  {
    var i :| 0 <= i < |thread| && thread[i] == pending;
    var at := PendingIndex(thread, row.text, 0);
    var after := Append(thread, row);
    if !Holds(thread, row.id) && row.from == Technician && at.Some? && at.value == i {
      assert forall j :: 0 <= j < |after| ==> after[j].id != pending.id;
    } else {
      assert after[i] == pending;
    }
  }

  ghost predicate Waiting(s: State, send: nat) {
    send < |s.sends| && Holds(s.thread, Local(send))
  }

  lemma WaitingRow(s: State, send: nat) returns (row: Row)
    requires Inv(s) && Waiting(s, send)
    ensures row in s.thread && row.id == Local(send) && IsPending(row, s.sends[send].text)
      && row.text == s.sends[send].text
  {
    var i :| 0 <= i < |s.thread| && s.thread[i].id == Local(send);
    assert RowOk(s, s.thread[i]);
    row := s.thread[i];
  }

  lemma ReplyKeepsOthers(s: State, other: nat, send: nat, now: int)
    requires Inv(s) && Enabled(s, Reply(other)) && other != send
    ensures Waiting(Next(s, Reply(other), now), send) <==> Waiting(s, send)
  {
    var after := Next(s, Reply(other), now).thread;
    forall i | 0 <= i < |s.thread| ensures after[i].id == Local(send) <==> s.thread[i].id == Local(send) {
    }
  }

  /** A temporary row survives any step but its own reply exactly if the step does not disturb
      its text. */
  lemma StepKeepsWaiting(s: State, step: Step, now: int, send: nat)
    requires Inv(s) && Enabled(s, step) && Waiting(s, send) && step != Reply(send)
    ensures Waiting(Next(s, step, now), send) <==> !Disturbs(s, step, s.sends[send].text)
  {
    var row := WaitingRow(s, send);
    match step
    case Send(text) =>
      NoFreshLocal(s);
      AppendKeepsPending(s.thread, Row(Local(|s.sends|), Technician, text, now), row);
    case Echo(id) => AppendKeepsPending(s.thread, RowOf(id, s.issued[id]), row);
    case Reply(other) => ReplyKeepsOthers(s, other, send, now);
    case Accept(_, _, _) =>
    case Foreign(_, _) =>
  }

  lemma NoFreshLocal(s: State)
    requires Inv(s)
    ensures !Holds(s.thread, Local(|s.sends|))
  {
    forall i | 0 <= i < |s.thread| ensures s.thread[i].id != Local(|s.sends|) {
      assert RowOk(s, s.thread[i]);
    }
  }

  /** A temporary row that is gone does not come back. */
  lemma StepKeepsGone(s: State, step: Step, now: int, send: nat)
    requires Inv(s) && Enabled(s, step) && send < |s.sends| && !Holds(s.thread, Local(send))
    ensures send < |Next(s, step, now).sends| && !Holds(Next(s, step, now).thread, Local(send))
  {
    match step
    case Send(text) => AppendHolds(s.thread, Row(Local(|s.sends|), Technician, text, now));
    case Echo(id) => AppendHolds(s.thread, RowOf(id, s.issued[id]));
    case Reply(other) =>
      var after := Next(s, step, now).thread;
      forall i | 0 <= i < |after| ensures after[i].id != Local(send) {
        assert s.thread[i].id != Local(send);
      }
    case Accept(_, _, _) =>
    case Foreign(_, _) =>
  }

  /** The send's own line is shown only through its echo or its reply. */
  ghost predicate ShownByEcho(s: State, send: nat) {
    send < |s.sends| && (s.sends[send].accepted.Some? && Holds(s.thread, Node(s.sends[send].accepted.value)) ==>
      s.sends[send].accepted.value in s.echoed)
  }

  lemma StepKeepsShown(s: State, step: Step, now: int, send: nat)
    requires Inv(s) && Enabled(s, step) && step != Reply(send) && ShownByEcho(s, send)
    ensures ShownByEcho(Next(s, step, now), send) && Next(s, step, now).sends[send].text == s.sends[send].text
  {
    match step
    case Send(text) => AppendHolds(s.thread, Row(Local(|s.sends|), Technician, text, now));
    case Echo(id) => AppendHolds(s.thread, RowOf(id, s.issued[id]));
    case Reply(other) => ReplyShowsOwn(s, other, now);
    case Accept(_, id, _) => NotIssuedNotShown(s, id);
    case Foreign(_, _) =>
  }

  lemma ReplyShowsOwn(s: State, send: nat, now: int)
    requires Inv(s) && Enabled(s, Reply(send))
    ensures forall id :: Holds(Next(s, Reply(send), now).thread, Node(id)) <==>
      Holds(s.thread, Node(id)) || (id == s.sends[send].accepted.value && Waiting(s, send))
  {
    var own, after := s.sends[send].accepted.value, Next(s, Reply(send), now).thread;
    if Waiting(s, send) && !Holds(s.thread, Node(own)) {
      var i :| 0 <= i < |s.thread| && s.thread[i].id == Local(send);
      assert after[i].id == Node(own);
      forall j | 0 <= j < |s.thread|
        ensures after[j].id == if s.thread[j].id == Local(send) then Node(own) else s.thread[j].id
      {
      }
      forall id | Holds(s.thread, Node(id)) ensures Holds(after, Node(id)) {
        var j :| 0 <= j < |s.thread| && s.thread[j].id == Node(id);
        assert after[j].id == Node(id);
      }
    }
  }

  lemma NotIssuedNotShown(s: State, id: NodeId)
    requires Inv(s) && id !in s.issued
    ensures !Holds(s.thread, Node(id))
  {
    forall i | 0 <= i < |s.thread| ensures s.thread[i].id != Node(id) {
      assert RowOk(s, s.thread[i]);
    }
  }

  lemma {:induction false} RunKeepsWaiting(s: State, steps: seq<(Step, int)>, end: State, send: nat)
    requires Inv(s) && Runs(s, steps, end) && send < |s.sends| && ShownByEcho(s, send)
    requires forall k :: 0 <= k < |steps| ==> steps[k].0 != Reply(send)
    ensures Inv(end) && ShownByEcho(end, send)
    ensures Waiting(end, send) <==> Waiting(s, send) && Undisturbed(s, steps, s.sends[send].text)
    decreases |steps|
  {
    if steps == [] {
    } else {
      var (step, now) := steps[0];
      StepKeepsInv(s, step, now);
      StepKeepsShown(s, step, now, send);
      if Waiting(s, send) {
        StepKeepsWaiting(s, step, now, send);
      } else {
        StepKeepsGone(s, step, now, send);
      }
      RunKeepsWaiting(Next(s, step, now), steps[1..], end, send);
    }
  }

  /** A line's first reply, whatever happened since the line was sent, leaves the line shown
      if and only if its echo came before, or nothing in between disturbed its text: no other
      send of it, and no echo of a technician line of it not shown yet. */
  lemma ReplyShowsIffUndisturbed(before: seq<(Step, int)>, s: State, text: string, sentAt: int,
                                 steps: seq<(Step, int)>, end: State, repliedAt: int)
    requires Runs(START, before, s) && Runs(Next(s, Send(text), sentAt), steps, end)
    requires forall k :: 0 <= k < |steps| ==> steps[k].0 != Reply(|s.sends|)
    requires Enabled(end, Reply(|s.sends|))
    ensures var id := end.sends[|s.sends|].accepted.value;
            Holds(Next(end, Reply(|s.sends|), repliedAt).thread, Node(id)) <==>
              id in end.echoed || Undisturbed(Next(s, Send(text), sentAt), steps, text)
  {
    RunKeepsInv(START, before, s);
    SendKeepsInv(s, text, sentAt);
    var sent, send := Next(s, Send(text), sentAt), |s.sends|;
    NoFreshLocal(s);
    AppendHolds(s.thread, Row(Local(send), Technician, text, sentAt));
    assert Waiting(sent, send);
    RunKeepsWaiting(sent, steps, end, send);
    ReplyShowsOwn(end, send, repliedAt);
  }

  /** Replies alone do not do: of two lines with the same text, sent before either reply, the
      first is never shown when its echo is lost. */
  lemma RepliesAloneLoseALine(text: string, now: int)
    ensures var steps := [(Send(text), now), (Send(text), now), (Accept(0, 0, now), now), (Accept(1, 1, now), now),
                          (Reply(0), now), (Reply(1), now)];
            exists end :: Runs(START, steps, end) && end.thread == [Row(Node(1), Technician, text, now)]
              && 0 in end.issued
  {
    var line := Line(Technician, text, now);
    var s0 := State([Row(Local(0), Technician, text, now)], [Sending(text, None)], map[], {});
    var s1 := State([Row(Local(1), Technician, text, now)], [Sending(text, None), Sending(text, None)], map[], {});
    var s2 := State(s1.thread, [Sending(text, Some(0)), Sending(text, None)], map[0 := line], {});
    var s3 := State(s1.thread, [Sending(text, Some(0)), Sending(text, Some(1))], map[0 := line, 1 := line], {});
    var s4 := State([Row(Node(1), Technician, text, now)], s3.sends, s3.issued, {});
    assert Next(START, Send(text), now) == s0;
    assert PendingIndex(s0.thread, text, 0) == Some(0);
    assert Next(s0, Send(text), now) == s1;
    assert Next(s1, Accept(0, 0, now), now) == s2;
    assert Next(s2, Accept(1, 1, now), now) == s3;
    assert Next(s3, Reply(0), now) == s3;
    assert s3.thread[0].id == Local(1);
    assert Next(s3, Reply(1), now) == s4;
    RunsFirst(s3, (Reply(1), now), [], s4);
    RunsFirst(s3, (Reply(0), now), [(Reply(1), now)], s4);
    RunsFirst(s2, (Accept(1, 1, now), now), [(Reply(0), now), (Reply(1), now)], s4);
    RunsFirst(s1, (Accept(0, 0, now), now), [(Accept(1, 1, now), now), (Reply(0), now), (Reply(1), now)], s4);
    var rest := [(Accept(0, 0, now), now), (Accept(1, 1, now), now), (Reply(0), now), (Reply(1), now)];
    TwoSendsFirst(text, now, s1, rest, s4);
    assert [(Send(text), now), (Send(text), now)] + rest ==
      [(Send(text), now), (Send(text), now), (Accept(0, 0, now), now), (Accept(1, 1, now), now), (Reply(0), now),
        (Reply(1), now)];
  }

  lemma RunsFirst(s: State, step: (Step, int), rest: seq<(Step, int)>, end: State)
    requires Enabled(s, step.0) && Runs(Next(s, step.0, step.1), rest, end)
    ensures Runs(s, [step] + rest, end)
  {
    assert ([step] + rest)[1..] == rest;
  }

  lemma TwoSendsFirst(text: string, now: int, s: State, rest: seq<(Step, int)>, end: State)
    requires s == Next(Next(START, Send(text), now), Send(text), now) && Runs(s, rest, end)
    ensures Runs(START, [(Send(text), now), (Send(text), now)] + rest, end)
  {
    RunsFirst(Next(START, Send(text), now), (Send(text), now), rest, end);
    RunsFirst(START, (Send(text), now), [(Send(text), now)] + rest, end);
    assert [(Send(text), now)] + ([(Send(text), now)] + rest) == [(Send(text), now), (Send(text), now)] + rest;
  }

  // The threads as the store keeps them

  class Chats {
    var threads: map<Peer, Thread>
    var unread: map<Peer, nat>
    /** Sends made so far; the next temporary id is fresh. */
    var made: nat

    constructor ()
      ensures threads == map[] && unread == map[] && made == 0
    {
      threads, unread, made := map[], map[], 0;
    }

    function ThreadOf(peer: Peer): Thread
      reads this`threads
    {
      if peer in threads then threads[peer] else []
    }

    function UnreadOf(peer: Peer): nat
      reads this`unread
    {
      if peer in unread then unread[peer] else 0
    }

    method AppendChat(peer: Peer, row: Row)
      modifies this`threads, this`unread
      ensures ThreadOf(peer) == Append(old(ThreadOf(peer)), row)
      ensures UnreadOf(peer) ==
        old(UnreadOf(peer)) + if row.from == Client && !Holds(old(ThreadOf(peer)), row.id) then 1 else 0
      ensures forall other :: other != peer ==>
        ThreadOf(other) == old(ThreadOf(other)) && UnreadOf(other) == old(UnreadOf(other))
    {
      var thread: Thread := ThreadOf(peer);
      if Holds(thread, row.id) {
        return;
      }
      if row.from == Technician {
        var pending := PendingIndex(thread, row.text, 0);
        if pending.Some? {
          threads := threads[peer := thread[pending.value := row]];
          return;
        }
      }
      threads := threads[peer := thread + [row]];
      if row.from == Client {
        unread := unread[peer := UnreadOf(peer) + 1];
      }
    }

    /** sendChat up to its call to the node; `body` is the trimmed text. */
    method SendChat(peer: Peer, body: string, now: int) returns (send: Option<nat>)
      modifies this
      ensures body == [] ==> send == None && threads == old(threads) && made == old(made)
      ensures body != [] ==> send == Some(old(made)) && made == old(made) + 1
      ensures body != [] ==> ThreadOf(peer) == Append(old(ThreadOf(peer)), Row(Local(old(made)), Technician, body, now))
      ensures forall other :: other != peer ==> ThreadOf(other) == old(ThreadOf(other))
      ensures forall p :: UnreadOf(p) == old(UnreadOf(p))
    {
      if body == [] {
        return None;
      }
      send := Some(made);
      made := made + 1;
      AppendChat(peer, Row(Local(send.value), Technician, body, now));
    }

    /** sendChat after its reply; a missing reply does nothing. */
    method SendReplied(peer: Peer, send: nat, reply: Option<(NodeId, int)>)
      modifies this`threads
      ensures ThreadOf(peer) ==
        if reply.None? then old(ThreadOf(peer)) else Reconcile(old(ThreadOf(peer)), send, reply.value.0, reply.value.1)
      ensures forall other :: other != peer ==> ThreadOf(other) == old(ThreadOf(other))
    {
      if reply.None? {
        return;
      }
      var thread: Thread := ThreadOf(peer);
      var (id, ts) := reply.value;
      if Holds(thread, Local(send)) && !Holds(thread, Node(id)) {
        threads := threads[peer := Reconcile(thread, send, id, ts)];
      }
    }
  }
}
