/** Pulling video: polls kept to one at a time, driven by an event that only tells when an
    empty queue has filled. */
module VideoPolling {

  /** The scheduler's flags, with how many polls it has begun. */
  datatype Scheduler = Scheduler(stopped: bool, running: bool, pending: bool, begun: nat)

  function Request(s: Scheduler): Scheduler {
    if s.stopped then s
    else if s.running then s.(pending := true)
    else s.(running := true, pending := false, begun := s.begun + 1)
  }

  /** The loop's test after a poll has settled, well or badly. */
  function Settled(s: Scheduler): Scheduler {
    if !s.stopped && s.pending then s.(pending := false, begun := s.begun + 1) else s.(running := false)
  }

  function Stop(s: Scheduler): Scheduler {
    s.(stopped := true, pending := false)
  }

  /** The backend's queue, its ready events under way, whether the running poll has drained
      the queue, how many polls have ended, and the requests accepted: all of them, and those
      made before the newest poll began. */
  datatype State = State(scheduler: Scheduler, queued: nat, events: nat, drained: bool, ended: nat, accepted: nat,
    served: nat)

  datatype Step = Produce | EventArrives | Tick | Drain | PollEnds(failed: bool) | StopAll

  predicate Enabled(s: State, step: Step) {
    match step
    case EventArrives => s.events > 0
    case Drain => s.scheduler.running && !s.drained
    case PollEnds(failed) => s.scheduler.running && (failed || s.drained)
    case _ => true
  }

  function Requested(s: State): State {
    var after := Request(s.scheduler);
    var accepted := s.accepted + if s.scheduler.stopped then 0 else 1;
    if after.begun > s.scheduler.begun then
      s.(scheduler := after, drained := false, accepted := accepted, served := accepted)
    else s.(scheduler := after, accepted := accepted)
  }

  function Next(s: State, step: Step): State
    requires Enabled(s, step)
  {
    match step
    case Produce => s.(queued := s.queued + 1, events := if s.queued == 0 then s.events + 1 else s.events)
    case EventArrives => Requested(s.(events := s.events - 1))
    case Tick => Requested(s)
    case Drain => s.(queued := 0, drained := true)
    case PollEnds(_) =>
      var after := Settled(s.scheduler);
      if after.begun > s.scheduler.begun then
        s.(scheduler := after, ended := s.ended + 1, drained := false, served := s.accepted)
      else s.(scheduler := after, ended := s.ended + 1)
    case StopAll => s.(scheduler := Stop(s.scheduler))
  }

  ghost predicate Runs(s: State, steps: seq<Step>, end: State)
    decreases |steps|
  {
    if steps == [] then end == s else Enabled(s, steps[0]) && Runs(Next(s, steps[0]), steps[1..], end)
  }

  const START := State(Scheduler(false, false, false, 0), 0, 0, false, 0, 0, 0)

  ghost predicate Inv(s: State) {
    && s.scheduler.begun == s.ended + (if s.scheduler.running then 1 else 0)
    && (s.scheduler.pending ==> s.scheduler.running && !s.scheduler.stopped)
    && s.served <= s.accepted
    && (!s.scheduler.stopped ==> (s.served < s.accepted <==> s.scheduler.pending))
    && s.scheduler.begun + (if s.scheduler.pending then 1 else 0) <= s.accepted
  }

  /** Some poll, or some event that will bring one, is still to reach what is queued. */
  ghost predicate Covered(s: State) {
    !s.scheduler.stopped && s.queued > 0 ==> s.events > 0 || s.scheduler.pending || (s.scheduler.running && !s.drained)
  }

  predicate NeverFails(steps: seq<Step>) {
    forall k :: 0 <= k < |steps| ==> steps[k] != PollEnds(true)
  }

  lemma {:induction false} RunKeepsInv(s: State, steps: seq<Step>, end: State)
    requires Inv(s) && Runs(s, steps, end)
    ensures Inv(end)
    decreases |steps|
  {
    if steps == [] {
    } else {
      RunKeepsInv(Next(s, steps[0]), steps[1..], end);
    }
  }

  lemma {:induction false} RunKeepsCovered(s: State, steps: seq<Step>, end: State)
    requires Inv(s) && Covered(s) && Runs(s, steps, end) && NeverFails(steps)
    ensures Covered(end)
    decreases |steps|
  {
    if steps == [] {
    } else {
      assert steps[0] != PollEnds(true);
      RunKeepsCovered(Next(s, steps[0]), steps[1..], end);
    }
  }

  /** When polls do drain, no frame is stranded even without the timer: with no poll running
      and no ready event under way, the queue is empty. */
  lemma NoEdgeLost(steps: seq<Step>, end: State)
    requires Runs(START, steps, end) && NeverFails(steps)
    requires !end.scheduler.stopped && !end.scheduler.running && end.events == 0
    ensures end.queued == 0
  {
    RunKeepsInv(START, steps, end);
    RunKeepsCovered(START, steps, end);
  }

  /** At most one poll at a time, and none that no request asked for; with none running, the
      newest poll began no earlier than the newest request accepted; with one running, another
      waits exactly if a request came since it began. */
  lemma OnePollServesAll(steps: seq<Step>, end: State)
    requires Runs(START, steps, end)
    ensures end.ended <= end.scheduler.begun <= end.ended + 1
    ensures !end.scheduler.stopped && !end.scheduler.running ==> end.served == end.accepted
    ensures end.scheduler.begun <= end.accepted
    ensures !end.scheduler.stopped && end.scheduler.running ==> (end.served < end.accepted <==> end.scheduler.pending)
  {
    RunKeepsInv(START, steps, end);
  }

  /** A request waiting behind a poll gets its own, however that poll ends. */
  lemma PendingIsServed(steps: seq<Step>, end: State, failed: bool)
    requires Runs(START, steps, end) && Enabled(end, PollEnds(failed)) && !end.scheduler.stopped
    ensures var after := Next(end, PollEnds(failed));
            after.served == after.accepted && (after.scheduler.running <==> end.scheduler.pending)
  {
    RunKeepsInv(START, steps, end);
  }

  /** After stop nothing is polled any more. */
  lemma {:induction false} NonePolledAfterStop(s: State, steps: seq<Step>, end: State)
    requires s.scheduler.stopped && Runs(s, steps, end)
    ensures end.scheduler.stopped && end.scheduler.begun == s.scheduler.begun
    decreases |steps|
  {
    if steps == [] {
    } else {
      NonePolledAfterStop(Next(s, steps[0]), steps[1..], end);
    }
  }

  // Polls that fail

  ghost predicate Stranded(s: State) {
    !s.scheduler.stopped && !s.scheduler.running && !s.scheduler.pending && s.events == 0 && s.queued > 0
  }

  /** The one step that can strand frames is a failed poll with no request waiting behind it
      and no event under way. */
  lemma OnlyFailureStrands(s: State, step: Step)
    requires Inv(s) && Covered(s) && Enabled(s, step)
    ensures Stranded(Next(s, step)) <==>
      step.PollEnds? && !s.drained && !s.scheduler.stopped && !s.scheduler.pending && s.events == 0 && s.queued > 0
  {
  }

  /** It does happen: a frame arrives, its event starts a poll, and the poll fails. */
  lemma FailureStrands() returns (end: State)
    ensures Runs(START, [Produce, EventArrives, PollEnds(true)], end) && Stranded(end)
  {
    var produced := State(Scheduler(false, false, false, 0), 1, 1, false, 0, 0, 0);
    var polling := State(Scheduler(false, true, false, 1), 1, 0, false, 0, 1, 1);
    end := State(Scheduler(false, false, false, 1), 1, 0, false, 1, 1, 1);
    assert Next(START, Produce) == produced;
    assert Next(produced, EventArrives) == polling;
    assert Next(polling, PollEnds(true)) == end;
    RunsFirst(polling, PollEnds(true), [], end);
    RunsFirst(produced, EventArrives, [PollEnds(true)], end);
    RunsFirst(START, Produce, [EventArrives, PollEnds(true)], end);
  }

  lemma RunsFirst(s: State, step: Step, rest: seq<Step>, end: State)
    requires Enabled(s, step) && Runs(Next(s, step), rest, end)
    ensures Runs(s, [step] + rest, end)
  {
    assert ([step] + rest)[1..] == rest;
  }

  /** What is stranded stays so, with no poll begun, until the timer ticks (or all stops):
      frames that arrive later raise no event. */
  lemma {:induction false} StrandedUntilTick(s: State, steps: seq<Step>, end: State)
    requires Stranded(s) && Runs(s, steps, end)
    requires forall k :: 0 <= k < |steps| ==> steps[k] != Tick && steps[k] != StopAll
    ensures Stranded(end) && end.queued >= s.queued && end.scheduler.begun == s.scheduler.begun
    decreases |steps|
  {
    if steps == [] {
    } else {
      assert steps[0] != Tick && steps[0] != StopAll;
      StrandedUntilTick(Next(s, steps[0]), steps[1..], end);
    }
  }

  // The scheduler's own variables

  class PollScheduler {
    var stopped: bool
    var running: bool
    var pending: bool
    /** Polls begun so far. */
    var begun: nat

    ghost function View(): Scheduler
      reads this
    {
      Scheduler(stopped, running, pending, begun)
    }

    constructor ()
      ensures View() == START.scheduler
    {
      stopped, running, pending, begun := false, false, false, 0;
    }

    method RequestPoll()
      modifies this
      ensures View() == Request(old(View()))
    {
      if stopped {
        return;
      }
      if running {
        pending := true;
        return;
      }
      running := true;
      BeginPoll();
    }

    method BeginPoll()
      modifies this`pending, this`begun
      ensures !pending && begun == old(begun) + 1
    {
      pending := false;
      begun := begun + 1;
    }

    /** The awaited poll has settled; its failure is ignored. */
    method PollSettled()
      requires running
      modifies this
      ensures View() == Settled(old(View()))
    {
      if !stopped && pending {
        BeginPoll();
      } else {
        running := false;
      }
    }

    method StopPolling()
      modifies this
      ensures View() == Stop(old(View()))
    {
      stopped := true;
      pending := false;
    }
  }
}
