/** The console's video route: switches that wait for a teardown before they connect, and
    the epoch by which a newer switch overtakes an older one. */
module ConsoleVideo {
  import opened Wrappers

  type CapId = nat

  /** A route's id names its two ends; the catalog holds one instance under it at a time. */
  datatype RouteId = RouteId(from: CapId, to: CapId)

  type Instance = nat

  /** What an apply finds when it gets to connecting: the local sink for its input, if the
      input may be wired at all, and whether a new route would be authorized. */
  datatype Surroundings = Surroundings(sink: Option<CapId>, allowed: bool)

  /** `waiting` holds the epochs of the applies suspended on a teardown; `made` the
      instances the console created, and `unused` the next instance. */
  datatype State = State(
    open: bool, input: Option<CapId>, epoch: nat, owned: Option<RouteId>, live: Option<RouteId>,
    routes: map<RouteId, Instance>, waiting: set<nat>, made: set<Instance>, unused: Instance)

  /** applyConsoleVideo after its epoch check, with ownedConnect. */
  function Wire(s: State, around: Surroundings): State {
    if s.input.None? || around.sink.None? then s
    else
      var id := RouteId(s.input.value, around.sink.value);
      if id in s.routes then s.(live := Some(id), owned := None)
      else if !around.allowed then s.(live := None, owned := None)
      else s.(live := Some(id), owned := Some(id), routes := s.routes[id := s.unused],
              made := s.made + {s.unused}, unused := s.unused + 1)
  }

  /** applyConsoleVideo up to its await, or to its end when there is nothing to tear down. */
  function Apply(s: State, around: Surroundings): State {
    var begun := s.(epoch := s.epoch + 1, live := None);
    if s.owned.Some? then
      begun.(owned := None, routes := s.routes - {s.owned.value}, waiting := s.waiting + {begun.epoch})
    else Wire(begun, around)
  }

  /** The rest of a suspended apply. */
  function Resume(s: State, token: nat, around: Surroundings): State {
    var resumed := s.(live := None, waiting := s.waiting - {token});
    if token != s.epoch then resumed else Wire(resumed, around)
  }

  function Release(s: State): State {
    s.(owned := None, live := None, routes := if s.owned.Some? then s.routes - {s.owned.value} else s.routes)
  }

  /** Opening, closing and switching the console, its input leaving for a window of its own,
      suspended applies going on, and routes that others make or remove. */
  datatype Step =
    | OpenConsole(first: Option<CapId>)
    | CloseConsole
    | SetInput(cap: CapId, around: Surroundings)
    | Reapply(around: Surroundings)
    | GoOn(token: nat, around: Surroundings)
    | PopOut(cap: CapId)
    | OtherConnects(id: RouteId)
    | OtherDisconnects(id: RouteId)

  predicate Enabled(s: State, step: Step) {
    match step
    case OpenConsole(_) => !s.open
    case SetInput(_, _) => s.open
    case GoOn(token, _) => token in s.waiting
    case _ => true
  }

  function Next(s: State, step: Step): State {
    match step
    case OpenConsole(first) => s.(open := true, input := first, owned := None, live := None)
    case CloseConsole => Release(s).(open := false, input := None)
    case SetInput(cap, around) => if s.input == Some(cap) then s else Apply(s.(input := Some(cap)), around)
    case Reapply(around) => Apply(s, around)
    case GoOn(token, around) => Resume(s, token, around)
    case PopOut(cap) => if s.input == Some(cap) && s.live.Some? then Release(s) else s
    case OtherConnects(id) =>
      if id in s.routes then s else s.(routes := s.routes[id := s.unused], unused := s.unused + 1)
    case OtherDisconnects(id) => s.(routes := s.routes - {id})
  }

  // What every interleaving keeps

  ghost predicate Inv(s: State) {
    && (forall token :: token in s.waiting ==> token <= s.epoch)
    && (s.epoch in s.waiting ==> s.owned.None?)
    && (forall id :: id in s.routes ==> s.routes[id] < s.unused)
    && (forall i :: i in s.made ==> i < s.unused)
    && (forall id :: id in s.routes && s.routes[id] in s.made ==> s.owned == Some(id))
    && (s.owned.Some? ==> s.input == Some(s.owned.value.from))
    && (!s.open ==> s.input.None?)
    && (s.live.Some? ==> s.input == Some(s.live.value.from))
  }

  lemma WireKeepsInv(s: State, around: Surroundings)
    requires Inv(s) && s.owned.None? && s.epoch !in s.waiting
    ensures Inv(Wire(s, around))
  {
  }

  lemma ApplyKeepsInv(s: State, input: Option<CapId>, around: Surroundings)
    requires Inv(s) && (input.Some? ==> s.open)
    requires input != s.input ==> input.Some?
    ensures Inv(Apply(s.(input := input), around))
  {
    if s.owned.None? {
      WireKeepsInv(s.(input := input, epoch := s.epoch + 1, live := None), around);
    }
  }

  lemma StepKeepsInv(s: State, step: Step)
    requires Inv(s) && Enabled(s, step)
    ensures Inv(Next(s, step))
  {
    match step
    case SetInput(cap, around) => if s.input != Some(cap) { ApplyKeepsInv(s, Some(cap), around); }
    case Reapply(around) => ApplyKeepsInv(s, s.input, around);
    case GoOn(token, around) =>
      if token == s.epoch {
        WireKeepsInv(s.(live := None, waiting := s.waiting - {token}), around);
      }
    case _ =>
  }

  ghost predicate Runs(s: State, steps: seq<Step>, end: State)
    decreases |steps|
  {
    if steps == [] then end == s else Enabled(s, steps[0]) && Runs(Next(s, steps[0]), steps[1..], end)
  }

  /** The store at boot, with whatever routes the catalog already holds. */
  ghost predicate Start(s: State) {
    && !s.open && s.input.None? && s.owned.None? && s.live.None? && s.waiting == {} && s.made == {}
    && forall id :: id in s.routes ==> s.routes[id] < s.unused
  }

  lemma {:induction false} RunKeepsInv(s: State, steps: seq<Step>, end: State)
    requires Inv(s) && Runs(s, steps, end)
    ensures Inv(end) && s.epoch <= end.epoch
    decreases |steps|
  {
    if steps == [] {
    } else {
      StepKeepsInv(s, steps[0]);
      RunKeepsInv(Next(s, steps[0]), steps[1..], end);
    }
  }

  /** No switching, closing, reopening or popping out leaks a route: whatever console-made
      instance is in the catalog is the one the console owns, and it carries the input the
      console shows; a closed console has none. */
  lemma NoRouteLeaks(start: State, steps: seq<Step>, s: State)
    requires Start(start) && Runs(start, steps, s)
    ensures forall id :: id in s.routes && s.routes[id] in s.made ==> s.owned == Some(id) && s.input == Some(id.from)
    ensures !s.open ==> forall id :: id in s.routes ==> s.routes[id] !in s.made
  {
    RunKeepsInv(start, steps, s);
  }

  /** In every run, what is rendered comes from the input shown; a closed console renders nothing
      and owns nothing; and an input that is shown and rendered when it pops out leaves nothing
      rendered, owned or connected behind. */
  lemma RenderedIsShown(start: State, steps: seq<Step>, s: State, cap: CapId)
    requires Start(start) && Runs(start, steps, s)
    ensures s.live.Some? ==> s.open && s.input == Some(s.live.value.from)
    ensures !s.open ==> s.live.None? && s.owned.None?
    ensures var closed := Next(s, CloseConsole);
            && !closed.open && closed.input.None? && closed.live.None? && closed.owned.None?
            && forall id :: s.owned == Some(id) ==> id !in closed.routes
    ensures var out := Next(s, PopOut(cap));
            if s.live.Some? && s.live.value.from == cap
            then out.live.None? && out.owned.None? && forall id :: s.owned == Some(id) ==> id !in out.routes
            else out == s
  {
    RunKeepsInv(start, steps, s);
  }

  /** Every connect, in every run, is made owning nothing and by the newest apply. */
  lemma ConnectsOwnNothing(start: State, steps: seq<Step>, s: State, step: Step)
    requires Start(start) && Runs(start, steps, s) && Enabled(s, step)
    requires Next(s, step).made != s.made
    ensures s.owned.None? && (step.GoOn? ==> step.token == s.epoch)
    ensures exists id :: id !in s.routes && Next(s, step).owned == Some(id)
  {
    RunKeepsInv(start, steps, s);
    assert Next(s, step).owned.value !in s.routes;
  }

  predicate BeginsApply(s: State, step: Step) {
    step.Reapply? || (step.SetInput? && s.input != Some(step.cap))
  }

  /** A suspended apply that a newer one overtook never connects or disconnects anything,
      however late it goes on. */
  lemma OvertakenNeverConnects(s: State, token: nat, newer: Step, steps: seq<Step>, later: State, around: Surroundings)
    requires Inv(s) && token in s.waiting && Enabled(s, newer) && BeginsApply(s, newer)
    requires Runs(Next(s, newer), steps, later)
    ensures var after := Next(later, GoOn(token, around));
            after.routes == later.routes && after.owned == later.owned && after.made == later.made
  {
    StepKeepsInv(s, newer);
    RunKeepsInv(Next(s, newer), steps, later);
    assert Next(s, newer).epoch == s.epoch + 1;
  }

  // What a teardown takes

  /** What is in the catalog under the owned id is not the instance the console made. */
  ghost predicate Foreign(s: State) {
    s.owned.Some? && s.owned.value in s.routes && s.routes[s.owned.value] !in s.made
  }

  /** Whether somebody else has replaced the owned route: it was removed, and connected anew. */
  ghost function ReplacedNext(s: State, step: Step, replaced: bool): bool {
    if Next(s, step).owned != s.owned then false
    else if step.OtherConnects? && s.owned == Some(step.id) && step.id !in s.routes then true
    else if step.OtherDisconnects? && s.owned == Some(step.id) then false
    else replaced
  }

  ghost function Replaced(s: State, steps: seq<Step>, replaced: bool): bool
    decreases |steps|
  {
    if steps == [] then replaced
    else Replaced(Next(s, steps[0]), steps[1..], ReplacedNext(s, steps[0], replaced))
  }

  lemma StepKeepsForeign(s: State, step: Step)
    requires Inv(s) && Enabled(s, step)
    ensures Foreign(Next(s, step)) <==> ReplacedNext(s, step, Foreign(s))
  {
  }

  lemma {:induction false} ForeignIfReplaced(s: State, steps: seq<Step>, end: State)
    requires Inv(s) && Runs(s, steps, end)
    ensures Inv(end) && (Foreign(end) <==> Replaced(s, steps, Foreign(s)))
    decreases |steps|
  {
    if steps == [] {
    } else {
      StepKeepsInv(s, steps[0]);
      StepKeepsForeign(s, steps[0]);
      ForeignIfReplaced(Next(s, steps[0]), steps[1..], end);
    }
  }

  /** A step by which the console lets go of what it owns. */
  predicate LetsGo(s: State, step: Step) {
    s.owned.Some? &&
    (BeginsApply(s, step) || step.CloseConsole? || (step.PopOut? && s.input == Some(step.cap) && s.live.Some?))
  }

  /** In every run, what a step of the console takes out of the catalog are only instances the
      console made, if and only if it is not letting go of a route somebody else replaced. */
  lemma TeardownTakesOwn(start: State, steps: seq<Step>, s: State, step: Step)
    requires Start(start) && Runs(start, steps, s) && Enabled(s, step) && !step.OtherDisconnects?
    ensures (forall id :: id in s.routes && id !in Next(s, step).routes ==> s.routes[id] in s.made) <==>
      !(LetsGo(s, step) && Replaced(start, steps, false))
  {
    ForeignIfReplaced(start, steps, s);
    if LetsGo(s, step) && s.owned.value in s.routes {
      assert s.owned.value !in Next(s, step).routes;
    }
  }

  /** It does happen that closing takes down a route the console did not make. */
  lemma CloseTakesForeign(start: State, a: CapId, sink: CapId) returns (s: State)
    requires Start(start) && RouteId(a, sink) !in start.routes
    ensures var id := RouteId(a, sink);
            var again := Reapply(Surroundings(Some(sink), true));
            var steps := [OpenConsole(Some(a)), again, OtherDisconnects(id), OtherConnects(id)];
            && Runs(start, steps, s) && id in s.routes && s.routes[id] !in s.made && id !in Next(s, CloseConsole).routes
  {
    var id := RouteId(a, sink);
    var g1, g2 := OpenConsole(Some(a)), Reapply(Surroundings(Some(sink), true));
    var wired := WiredOn(start, a, sink);
    var removed := Next(wired, OtherDisconnects(id));
    s := Next(removed, OtherConnects(id));
    RunsFirst(removed, OtherConnects(id), [], s);
    RunsFirst(wired, OtherDisconnects(id), [OtherConnects(id)], s);
    RunsFirst(Next(start, g1), g2, [OtherDisconnects(id), OtherConnects(id)], s);
    RunsFirst(start, g1, [g2, OtherDisconnects(id), OtherConnects(id)], s);
  }

  // What the newest apply wires is rendered

  /** A step that decides what is to be rendered: it begins an apply, lets the newest one go
      on, opens or closes the console, or lifts the rendered input out. */
  predicate Decides(s: State, step: Step) {
    || BeginsApply(s, step) || step.OpenConsole? || step.CloseConsole?
    || (step.GoOn? && step.token == s.epoch)
    || (step.PopOut? && s.input == Some(step.cap) && s.live.Some?)
  }

  /** Any other step leaves the stage as it is, but one: an overtaken apply that goes on
      blanks it, be the route rendered the console's own or one it found. */
  lemma OnlyOvertakenBlanks(s: State, step: Step)
    requires Inv(s) && Enabled(s, step) && !Decides(s, step)
    ensures Next(s, step).live == s.live <==> !(step.GoOn? && step.token != s.epoch && s.live.Some?)
    ensures Next(s, step).epoch == s.epoch && Next(s, step).input == s.input && Next(s, step).owned == s.owned
    ensures s.epoch in s.waiting ==> s.epoch in Next(s, step).waiting
  {
  }

  /** Over all steps, deciding ones too: the route owned is the route rendered, unless an
      overtaken apply goes on. */
  predicate RendersOwned(s: State) {
    s.owned.Some? ==> s.live == s.owned
  }

  lemma OwnedRenderedUnlessOvertaken(s: State, step: Step)
    requires Inv(s) && Enabled(s, step) && RendersOwned(s)
    ensures RendersOwned(Next(s, step)) <==> !(step.GoOn? && step.token != s.epoch && s.owned.Some?)
  {
  }

  /** No step of the run decides what is to be rendered. */
  ghost predicate Undecided(s: State, steps: seq<Step>)
    decreases |steps|
  {
    steps == [] || (Enabled(s, steps[0]) && !Decides(s, steps[0]) && Undecided(Next(s, steps[0]), steps[1..]))
  }

  /** From one decision to the next, what is rendered stays rendered if and only if no
      overtaken apply goes on in between. */
  lemma {:induction false} RenderedUntilOvertaken(s: State, steps: seq<Step>, end: State)
    requires Inv(s) && Runs(s, steps, end) && Undecided(s, steps)
    ensures Inv(end) && end.epoch == s.epoch && end.input == s.input && end.owned == s.owned
    ensures s.epoch in s.waiting ==> s.epoch in end.waiting
    ensures end.live == s.live <==> s.live.None? || forall k :: 0 <= k < |steps| ==> !steps[k].GoOn?
    ensures end.live.Some? ==> end.live == s.live
    decreases |steps|
  {
    if steps == [] {
    } else {
      var next := Next(s, steps[0]);
      StepKeepsInv(s, steps[0]);
      OnlyOvertakenBlanks(s, steps[0]);
      RenderedUntilOvertaken(next, steps[1..], end);
      if steps[0].GoOn? {
      } else {
        assert forall k :: 1 <= k < |steps| ==> steps[k] == steps[1..][k - 1];
        assert (forall k :: 0 <= k < |steps| ==> !steps[k].GoOn?) <==>
          forall k :: 0 <= k < |steps[1..]| ==> !steps[1..][k].GoOn?;
      }
    }
  }

  /** The newest apply has run to its end: in one go, or after its teardown. */
  predicate EndsApply(s: State, step: Step) {
    (BeginsApply(s, step) && s.owned.None?) || (step.GoOn? && step.token == s.epoch)
  }

  function SurroundingsOf(step: Step): Surroundings
    requires step.SetInput? || step.Reapply? || step.GoOn?
  {
    step.around
  }

  /** When the newest apply ends, with an input, a sink for it, and a route that is there or
      allowed, the route from the input shown is in the catalog and rendered; and it is owned
      exactly if it was not there. */
  lemma NewestConnects(s: State, step: Step)
    requires Enabled(s, step) && EndsApply(s, step)
    requires Next(s, step).input.Some? && SurroundingsOf(step).sink.Some?
    requires SurroundingsOf(step).allowed
      || RouteId(Next(s, step).input.value, SurroundingsOf(step).sink.value) in s.routes
    ensures var id, after := RouteId(Next(s, step).input.value, SurroundingsOf(step).sink.value), Next(s, step);
            && id in after.routes && after.live == Some(id)
            && after.owned == (if id in s.routes then None else Some(id))
  {
  }

  /** A switch gets through: the console set on another input ends up, when its teardown is
      done before another decision, with the route from that input in the catalog and rendered. */
  lemma SwitchConnects(start: State, before: seq<Step>, s: State, cap: CapId, around: Surroundings,
                       meanwhile: seq<Step>, torn: State, later: Surroundings)
    requires Start(start) && Runs(start, before, s) && s.open && s.input != Some(cap) && s.owned.Some?
    requires Runs(Next(s, SetInput(cap, around)), meanwhile, torn)
      && Undecided(Next(s, SetInput(cap, around)), meanwhile)
    requires later.sink.Some? && later.allowed
    ensures Enabled(torn, GoOn(torn.epoch, later))
    ensures var id, after := RouteId(cap, later.sink.value), Next(torn, GoOn(torn.epoch, later));
            id in after.routes && after.live == Some(id) && after.input == Some(cap)
  {
    RunKeepsInv(start, before, s);
    StepKeepsInv(s, SetInput(cap, around));
    RenderedUntilOvertaken(Next(s, SetInput(cap, around)), meanwhile, torn);
    NewestConnects(torn, GoOn(torn.epoch, later));
  }

  /** Blanking does happen, and two quick switches are enough: the second connects at once, as
      nothing is owned while the first waits, and the first then blanks what it wired, whether
      the second made its route or found it. */
  lemma OvertakenBlanks(start: State, a: CapId, b: CapId, c: CapId, sink: CapId)
    requires Start(start) && RouteId(a, sink) !in start.routes && a != b && b != c && a != c
    ensures var around := Surroundings(Some(sink), true);
            var steps := [OpenConsole(Some(a)), Reapply(around), SetInput(b, around), SetInput(c, around),
              GoOn(start.epoch + 2, around)];
            exists end :: Runs(start, steps, end) && end.live == None && end.input == Some(c)
              && RouteId(c, sink) in end.routes
              && end.owned == if RouteId(c, sink) in start.routes then None else Some(RouteId(c, sink))
  {
    var around := Surroundings(Some(sink), true);
    var g1, g2, g3, g4, g5 := OpenConsole(Some(a)), Reapply(around), SetInput(b, around), SetInput(c, around),
      GoOn(start.epoch + 2, around);
    var s2 := WiredOn(start, a, sink);
    var s5 := TwoSwitches(s2, a, b, c, sink);
    RunsFirst(Next(Next(s2, g3), g4), g5, [], s5);
    RunsFirst(Next(s2, g3), g4, [g5], s5);
    RunsFirst(s2, g3, [g4, g5], s5);
    RunsFirst(Next(start, g1), g2, [g3, g4, g5], s5);
    RunsFirst(start, g1, [g2, g3, g4, g5], s5);
    assert [g1] + [g2, g3, g4, g5] == [g1, g2, g3, g4, g5];
  }

  lemma TwoSwitches(s: State, a: CapId, b: CapId, c: CapId, sink: CapId) returns (end: State)
    requires s.open && s.input == Some(a) && s.owned == Some(RouteId(a, sink)) && a != b && b != c && a != c
    ensures var around := Surroundings(Some(sink), true);
            var switched := Next(Next(s, SetInput(b, around)), SetInput(c, around));
            && switched.open && s.epoch + 1 in switched.waiting && end == Next(switched, GoOn(s.epoch + 1, around))
    ensures end.live == None && end.input == Some(c) && RouteId(c, sink) in end.routes
    ensures end.owned == if RouteId(c, sink) in s.routes then None else Some(RouteId(c, sink))
  {
    var around := Surroundings(Some(sink), true);
    end := Next(Next(Next(s, SetInput(b, around)), SetInput(c, around)), GoOn(s.epoch + 1, around));
  }

  /** A console opened where its first input is not wired yet comes to own the route. */
  lemma WiredOn(start: State, a: CapId, sink: CapId) returns (s: State)
    requires Start(start) && RouteId(a, sink) !in start.routes
    ensures Enabled(start, OpenConsole(Some(a)))
    ensures s == Next(Next(start, OpenConsole(Some(a))), Reapply(Surroundings(Some(sink), true)))
    ensures s.open && s.input == Some(a) && s.owned == Some(RouteId(a, sink))
    ensures s.routes == start.routes[RouteId(a, sink) := start.unused]
    ensures s.made == {start.unused} && s.unused == start.unused + 1
    ensures s.epoch == start.epoch + 1 && s.waiting == {}
  {
    s := Next(Next(start, OpenConsole(Some(a))), Reapply(Surroundings(Some(sink), true)));
  }

  lemma RunsFirst(s: State, step: Step, rest: seq<Step>, end: State)
    requires Enabled(s, step) && Runs(Next(s, step), rest, end)
    ensures Runs(s, [step] + rest, end)
  {
    assert ([step] + rest)[1..] == rest;
  }

  // The console's fields as the store keeps them

  class Stage {
    var open: bool
    var input: Option<CapId>
    var epoch: nat
    var owned: Option<RouteId>
    var live: Option<RouteId>
    var routes: map<RouteId, Instance>
    var unused: Instance
    ghost var waiting: set<nat>
    ghost var made: set<Instance>

    ghost function View(): State
      reads this
    {
      State(open, input, epoch, owned, live, routes, waiting, made, unused)
    }

    constructor (routes: map<RouteId, Instance>, unused: Instance)
      requires forall id :: id in routes ==> routes[id] < unused
      ensures Start(View()) && this.routes == routes
    {
      open, input, epoch, owned, live := false, None, 0, None, None;
      this.routes, this.unused, waiting, made := routes, unused, {}, {};
    }

    /** Tear a route down: the catalog forgets it at once. */
    method Disconnect(id: RouteId)
      modifies this`routes
      ensures routes == old(routes) - {id}
    {
      routes := routes - {id};
    }

    /** A route between two ends, and whether this call made it; none when it was refused. */
    method OwnedConnect(from: CapId, to: CapId, allowed: bool) returns (leg: Option<(RouteId, bool)>)
      modifies this`routes, this`unused, this`made
      ensures RouteId(from, to) in old(routes) || !allowed ==>
        && routes == old(routes) && unused == old(unused) && made == old(made)
        && leg == if RouteId(from, to) in old(routes) then Some((RouteId(from, to), false)) else None
      ensures RouteId(from, to) !in old(routes) && allowed ==>
        && routes == old(routes)[RouteId(from, to) := old(unused)] && unused == old(unused) + 1
        && made == old(made) + {old(unused)} && leg == Some((RouteId(from, to), true))
    {
      var id := RouteId(from, to);
      var existedBefore := id in routes;
      if !existedBefore && allowed {
        routes := routes[id := unused];
        made := made + {unused};
        unused := unused + 1;
      }
      leg := if id in routes then Some((id, !existedBefore)) else None;
    }

    method Connect(around: Surroundings)
      modifies this
      ensures View() == Wire(old(View()), around)
    {
      if input.None? || around.sink.None? {
        return;
      }
      var leg := OwnedConnect(input.value, around.sink.value, around.allowed);
      live := if leg.Some? then Some(leg.value.0) else None;
      owned := if leg.Some? && leg.value.1 then Some(leg.value.0) else None;
    }

    /** Runs to the end, or hands back the epoch under which it waits for its teardown. */
    method ApplyConsoleVideo(around: Surroundings) returns (suspended: Option<nat>)
      modifies this
      ensures View() == Apply(old(View()), around)
      ensures suspended == if old(owned).Some? then Some(epoch) else None
    {
      epoch := epoch + 1;
      if owned.Some? {
        var previous := owned.value;
        owned, live := None, None;
        Disconnect(previous);
        waiting := waiting + {epoch};
        return Some(epoch);
      }
      live := None;
      Connect(around);
      return None;
    }

    method TornDown(token: nat, around: Surroundings)
      requires token in waiting
      modifies this
      ensures View() == Resume(old(View()), token, around)
    {
      waiting := waiting - {token};
      live := None;
      if token != epoch {
        return;
      }
      Connect(around);
    }

    method OpenConsoleHere(first: Option<CapId>)
      requires !open
      modifies this
      ensures View() == Next(old(View()), OpenConsole(first))
    {
      open, owned, live, input := true, None, None, first;
    }

    method CloseConsole()
      modifies this
      ensures View() == Next(old(View()), Step.CloseConsole)
    {
      if owned.Some? {
        Disconnect(owned.value);
      }
      owned, live, open, input := None, None, false, None;
    }

    method SetConsoleInput(cap: CapId, around: Surroundings)
      requires open
      modifies this
      ensures View() == Next(old(View()), SetInput(cap, around))
    {
      if input == Some(cap) {
        return;
      }
      input := Some(cap);
      var suspended := ApplyConsoleVideo(around);
    }

    method PopOutConsoleInput(cap: CapId)
      modifies this
      ensures View() == Next(old(View()), PopOut(cap))
    {
      if input == Some(cap) && live.Some? {
        var releasing := owned;
        owned, live := None, None;
        if releasing.Some? {
          Disconnect(releasing.value);
        }
      }
    }
  }
}
