/** Keys forwarded to a remote machine, and the ordered record of those still held. */
module KeyForwarding {

  type KeyId = string

  datatype Held = Held(id: KeyId, key: string, code: string)

  /** A key event; an empty code stands for none. */
  datatype KeyEvent = KeyEvent(key: string, code: string, repeats: bool, down: bool)

  datatype Sent = Sent(key: string, code: string, down: bool)

  /** The physical code, or the key's value when there is no code. */
  function IdOf(key: string, code: string): KeyId {
    if code != "" then code else key
  }

  predicate IsModifier(key: string) {
    key in {"Shift", "Control", "Alt", "Meta", "AltGraph"}
  }

  function Ids(held: seq<Held>): seq<KeyId> {
    seq(|held|, i requires 0 <= i < |held| => held[i].id)
  }

  function Remove(held: seq<Held>, id: KeyId): seq<Held> {
    if held == [] then []
    else if held[0].id == id then Remove(held[1..], id)
    else [held[0]] + Remove(held[1..], id)
  }

  function LiftOf(h: Held): Sent {
    Sent(h.key, h.code, false)
  }

  /** Releases for all of these, first to last. */
  function Lifts(held: seq<Held>): seq<Sent> {
    seq(|held|, i requires 0 <= i < |held| => LiftOf(held[i]))
  }

  function Modifiers(held: seq<Held>): seq<Held> {
    if held == [] then []
    else (if IsModifier(held[0].key) then [held[0]] else []) + Modifiers(held[1..])
  }

  function NonModifiers(held: seq<Held>): seq<Held> {
    if held == [] then []
    else (if IsModifier(held[0].key) then [] else [held[0]]) + NonModifiers(held[1..])
  }

  function Reversed(held: seq<Held>): seq<Held> {
    seq(|held|, i requires 0 <= i < |held| => held[|held| - 1 - i])
  }

  /** onKey: what is held afterwards, and what is sent. */
  function OnKey(held: seq<Held>, e: KeyEvent): (seq<Held>, seq<Sent>) {
    var id := IdOf(e.key, e.code);
    if e.repeats then
      (held, if e.down && !IsModifier(e.key) then [Sent(e.key, e.code, true)] else [])
    else
      var rest := Remove(held, id);
      var now := if e.down then rest + [Held(id, e.key, e.code)] else rest;
      var sent := [Sent(e.key, e.code, e.down)];
      if !e.down && e.key == "Meta" then (Modifiers(now), sent + Lifts(NonModifiers(now))) else (now, sent)
  }

  // The remote's side

  /** The keys down on a remote that has been sent these. */
  function Pressed(log: seq<Sent>): set<KeyId> {
    if log == [] then {}
    else
      var before, last := Pressed(log[..|log| - 1]), log[|log| - 1];
      var id := IdOf(last.key, last.code);
      if last.down then before + {id} else before - {id}
  }

  function HeldIds(held: seq<Held>): set<KeyId> {
    set h | h in held :: h.id
  }

  /** Each held key stands once, under the id its own key and code give. */
  ghost predicate Inv(held: seq<Held>) {
    && (forall i, j :: 0 <= i < j < |held| ==> held[i].id != held[j].id)
    && (forall i :: 0 <= i < |held| ==> held[i].id == IdOf(held[i].key, held[i].code))
  }

  lemma PressedOne(log: seq<Sent>, a: Sent)
    ensures Pressed(log + [a]) ==
      if a.down then Pressed(log) + {IdOf(a.key, a.code)} else Pressed(log) - {IdOf(a.key, a.code)}
  {
    assert (log + [a])[..|log|] == log;
  }

  lemma LiftsOneMore(init: seq<Held>, last: Held)
    ensures Lifts(init + [last]) == Lifts(init) + [LiftOf(last)]
  {
  }

  lemma LiftsLast(log: seq<Sent>, init: seq<Held>, last: Held)
    ensures log + Lifts(init + [last]) == log + Lifts(init) + [LiftOf(last)]
  {
  }

  lemma IdsOneMore(init: seq<Held>, last: Held)
    ensures HeldIds(init + [last]) == HeldIds(init) + {last.id}
  {
    assert forall h :: h in init + [last] <==> h in init || h == last;
  }

  lemma {:induction false} PressedLifts(log: seq<Sent>, held: seq<Held>)
    requires forall i :: 0 <= i < |held| ==> held[i].id == IdOf(held[i].key, held[i].code)
    ensures Pressed(log + Lifts(held)) == Pressed(log) - HeldIds(held)
  {
    if held == [] {
      assert log + Lifts(held) == log;
    } else {
      var init, last := held[..|held| - 1], held[|held| - 1];
      PressedLifts(log, init);
      assert held == init + [last];
      LiftsLast(log, init, last);
      PressedOne(log + Lifts(init), LiftOf(last));
      IdsOneMore(init, last);
    }
  }

  lemma {:induction false} RemoveShape(held: seq<Held>, id: KeyId)
    ensures forall h :: h in Remove(held, id) <==> h in held && h.id != id
    ensures Inv(held) ==> Inv(Remove(held, id))
  {
    if held == [] {
    } else {
      RemoveShape(held[1..], id);
      assert held == [held[0]] + held[1..];
      if Inv(held) {
        assert forall h :: h in held[1..] ==> h.id != held[0].id;
        KeepsOrder(held[0], Remove(held[1..], id), held[1..]);
      }
    }
  }

  /** Putting the first back before what is left of the rest. */
  lemma KeepsOrder(first: Held, left: seq<Held>, rest: seq<Held>)
    requires Inv([first] + rest) && Inv(left) && forall h :: h in left ==> h in rest
    ensures Inv([first] + left)
  {
    var held := [first] + rest;
    forall h | h in rest ensures h.id != first.id {
      var i :| 0 <= i < |rest| && rest[i] == h;
      assert held[i + 1] == h;
    }
    assert held[0] == first;
  }

  lemma {:induction false} ModifiersShape(held: seq<Held>)
    ensures forall h :: h in Modifiers(held) <==> h in held && IsModifier(h.key)
    ensures Inv(held) ==> Inv(Modifiers(held))
  {
    if held == [] {
    } else {
      ModifiersShape(held[1..]);
      assert held == [held[0]] + held[1..];
      if Inv(held) {
        KeepsOrder(held[0], Modifiers(held[1..]), held[1..]);
      }
    }
  }

  lemma {:induction false} NonModifiersShape(held: seq<Held>)
    ensures forall h :: h in NonModifiers(held) <==> h in held && !IsModifier(h.key)
    ensures Inv(held) ==> Inv(NonModifiers(held))
  {
    if held == [] {
    } else {
      NonModifiersShape(held[1..]);
      assert held == [held[0]] + held[1..];
      if Inv(held) {
        KeepsOrder(held[0], NonModifiers(held[1..]), held[1..]);
      }
    }
  }

  lemma SplitModifiers(held: seq<Held>)
    ensures forall h :: h in Modifiers(held) <==> h in held && IsModifier(h.key)
    ensures forall h :: h in NonModifiers(held) <==> h in held && !IsModifier(h.key)
    ensures Inv(held) ==> Inv(Modifiers(held)) && Inv(NonModifiers(held))
  {
    ModifiersShape(held);
    NonModifiersShape(held);
  }

  lemma ModifierIds(held: seq<Held>)
    requires Inv(held)
    ensures HeldIds(Modifiers(held)) == HeldIds(held) - HeldIds(NonModifiers(held))
  {
    SplitModifiers(held);
    forall a, b | a in held && b in held && a.id == b.id ensures a == b {
    }
  }

  /** Keys not yet lifted in the order they were pressed, each once, and mirrored by the
      remote: kept by any event except a repeat of a key that is not being tracked. */
  ghost predicate Mirrors(held: seq<Held>, log: seq<Sent>) {
    Inv(held) && Pressed(log) == HeldIds(held)
  }

  predicate StrayRepeat(held: seq<Held>, e: KeyEvent) {
    e.repeats && e.down && !IsModifier(e.key) && IdOf(e.key, e.code) !in Ids(held)
  }

  lemma IdsMembers(held: seq<Held>)
    ensures forall id :: id in Ids(held) <==> id in HeldIds(held)
  {
    forall id | id in HeldIds(held) ensures id in Ids(held) {
      var h :| h in held && h.id == id;
      var i :| 0 <= i < |held| && held[i] == h;
      assert Ids(held)[i] == id;
    }
  }

  lemma IdsWithout(held: seq<Held>, id: KeyId)
    ensures HeldIds(Remove(held, id)) == HeldIds(held) - {id}
  {
    RemoveShape(held, id);
  }

  lemma PressKeepsMirror(held: seq<Held>, log: seq<Sent>, e: KeyEvent)
    requires Mirrors(held, log) && !e.repeats && e.down
    ensures Mirrors(OnKey(held, e).0, log + OnKey(held, e).1)
  {
    var id := IdOf(e.key, e.code);
    RemoveShape(held, id);
    PressedOne(log, Sent(e.key, e.code, true));
    IdsWithout(held, id);
    IdsOneMore(Remove(held, id), Held(id, e.key, e.code));
  }

  lemma SweepKeepsMirror(held: seq<Held>, log: seq<Sent>)
    requires Mirrors(held, log)
    ensures Mirrors(Modifiers(held), log + Lifts(NonModifiers(held)))
  {
    SplitModifiers(held);
    ModifierIds(held);
    PressedLifts(log, NonModifiers(held));
  }

  lemma RemoveKeepsMirror(held: seq<Held>, log: seq<Sent>, e: KeyEvent)
    requires Mirrors(held, log)
    ensures var id := IdOf(e.key, e.code);
            Mirrors(Remove(held, id), log + [Sent(e.key, e.code, false)])
  {
    var id := IdOf(e.key, e.code);
    RemoveShape(held, id);
    PressedOne(log, Sent(e.key, e.code, false));
    IdsWithout(held, id);
  }

  lemma ReleaseKeepsMirror(held: seq<Held>, log: seq<Sent>, e: KeyEvent)
    requires Mirrors(held, log) && !e.repeats && !e.down
    ensures Mirrors(OnKey(held, e).0, log + OnKey(held, e).1)
  {
    var rest, sent := Remove(held, IdOf(e.key, e.code)), Sent(e.key, e.code, false);
    RemoveKeepsMirror(held, log, e);
    if e.key == "Meta" {
      SweepKeepsMirror(rest, log + [sent]);
      assert log + ([sent] + Lifts(NonModifiers(rest))) == (log + [sent]) + Lifts(NonModifiers(rest));
    }
  }

  /** The remote has exactly the held keys down after an event, if and only if the event is
      not the repeat of a non-modifier that is not tracked. */
  lemma MirrorUnlessStray(held: seq<Held>, log: seq<Sent>, e: KeyEvent)
    requires Mirrors(held, log)
    ensures Mirrors(OnKey(held, e).0, log + OnKey(held, e).1) <==> !StrayRepeat(held, e)
  {
    IdsMembers(held);
    if e.repeats {
      assert log + [] == log;
      PressedOne(log, Sent(e.key, e.code, true));
    } else if e.down {
      PressKeepsMirror(held, log, e);
    } else {
      ReleaseKeepsMirror(held, log, e);
    }
  }

  /** What a stray repeat leaves: one key down on the remote beside the held ones. */
  ghost predicate MirrorsBut(held: seq<Held>, log: seq<Sent>, stray: KeyId) {
    Inv(held) && stray !in HeldIds(held) && Pressed(log) == HeldIds(held) + {stray}
  }

  lemma StrayLeavesOne(held: seq<Held>, log: seq<Sent>, e: KeyEvent)
    requires Mirrors(held, log) && StrayRepeat(held, e)
    ensures OnKey(held, e).0 == held && MirrorsBut(held, log + OnKey(held, e).1, IdOf(e.key, e.code))
  {
    IdsMembers(held);
    PressedOne(log, Sent(e.key, e.code, true));
  }

  /** A stray key stays down on the remote through every event, a Meta release too, but the
      release of that very key. */
  lemma StrayLiftedByItsKeyUp(held: seq<Held>, log: seq<Sent>, stray: KeyId, e: KeyEvent)
    requires MirrorsBut(held, log, stray)
    ensures stray in Pressed(log + OnKey(held, e).1) <==> !(!e.repeats && !e.down && IdOf(e.key, e.code) == stray)
  {
    var id, sent := IdOf(e.key, e.code), Sent(e.key, e.code, e.down);
    PressedOne(log, sent);
    PressedOne(log, Sent(e.key, e.code, true));
    if e.repeats {
      assert log + [] == log;
    } else if !e.down {
      var rest := Remove(held, id);
      RemoveShape(held, id);
      if e.key == "Meta" {
        assert log + ([sent] + Lifts(NonModifiers(rest))) == (log + [sent]) + Lifts(NonModifiers(rest));
        SplitModifiers(rest);
        PressedLifts(log + [sent], NonModifiers(rest));
      }
    }
  }

  /** Lifting everything held leaves exactly the stray key down. */
  lemma ReleaseAllLeavesStray(held: seq<Held>, log: seq<Sent>, stray: KeyId)
    requires MirrorsBut(held, log, stray)
    ensures Pressed(log + Lifts(Reversed(held))) == {stray}
  {
    ReversedMembers(held);
    assert HeldIds(Reversed(held)) == HeldIds(held);
    PressedLifts(log, Reversed(held));
  }

  /** A released Meta leaves only modifiers held, and on the remote. */
  lemma MetaLeavesModifiers(held: seq<Held>, log: seq<Sent>, e: KeyEvent)
    requires Mirrors(held, log) && !e.repeats && !e.down && e.key == "Meta"
    ensures var (after, sent) := OnKey(held, e);
            && (forall h :: h in after ==> h in held && IsModifier(h.key))
            && (forall h :: h in held && IsModifier(h.key) && h.id != IdOf(e.key, e.code) ==> h in after)
            && Pressed(log + sent) == HeldIds(after)
  {
    RemoveShape(held, IdOf(e.key, e.code));
    SplitModifiers(Remove(held, IdOf(e.key, e.code)));
    ReleaseKeepsMirror(held, log, e);
  }

  lemma ReversedMembers(held: seq<Held>)
    ensures forall h :: h in Reversed(held) <==> h in held
  {
    forall h | h in held ensures h in Reversed(held) {
      var i :| 0 <= i < |held| && held[i] == h;
      assert Reversed(held)[|held| - 1 - i] == h;
    }
  }

  lemma ReleaseAllEmpties(held: seq<Held>, log: seq<Sent>)
    requires Mirrors(held, log)
    ensures Pressed(log + Lifts(Reversed(held))) == {}
  {
    ReversedMembers(held);
    assert HeldIds(Reversed(held)) == HeldIds(held);
    PressedLifts(log, Reversed(held));
  }

  /** Lifting everything releases each held key once, last pressed first, and leaves none
      down on the remote. */
  lemma ReleaseAllLiftsReversed(held: seq<Held>, log: seq<Sent>)
    requires Mirrors(held, log)
    ensures var sent := Lifts(Reversed(held));
            && |sent| == |held|
            && (forall i :: 0 <= i < |held| ==> sent[i] == LiftOf(held[|held| - 1 - i]))
            && Pressed(log + sent) == {}
  {
    ReleaseAllEmpties(held, log);
  }

  // Every run

  datatype Step = Key(e: KeyEvent) | ReleaseAll

  function After(held: seq<Held>, step: Step): (seq<Held>, seq<Sent>) {
    match step
    case Key(e) => OnKey(held, e)
    case ReleaseAll => ([], Lifts(Reversed(held)))
  }

  ghost predicate Runs(held: seq<Held>, log: seq<Sent>, steps: seq<Step>, end: seq<Held>, endLog: seq<Sent>)
    decreases |steps|
  {
    if steps == [] then end == held && endLog == log
    else
      var (next, sent) := After(held, steps[0]);
      !(steps[0].Key? && StrayRepeat(held, steps[0].e)) && Runs(next, log + sent, steps[1..], end, endLog)
  }

  /** While repeats only follow tracked presses, the remote has exactly the held keys down
      after every event of every run. */
  lemma {:induction false} RemoteMirrorsHeld(held: seq<Held>, log: seq<Sent>, steps: seq<Step>, end: seq<Held>,
      endLog: seq<Sent>)
    requires Mirrors(held, log) && Runs(held, log, steps, end, endLog)
    ensures Mirrors(end, endLog)
    decreases |steps|
  {
    if steps == [] {
    } else {
      match steps[0] {
        case Key(e) => MirrorUnlessStray(held, log, e);
        case ReleaseAll => ReleaseAllLiftsReversed(held, log);
      }
      var (next, sent) := After(held, steps[0]);
      RemoteMirrorsHeld(next, log + sent, steps[1..], end, endLog);
    }
  }

  // The order of presses, and repeats

  ghost function HeldAfter(steps: seq<Step>): seq<Held> {
    if steps == [] then [] else After(HeldAfter(steps[..|steps| - 1]), steps[|steps| - 1]).0
  }

  ghost function LogAfter(steps: seq<Step>): seq<Sent> {
    if steps == [] then []
    else
      var before := steps[..|steps| - 1];
      LogAfter(before) + After(HeldAfter(before), steps[|steps| - 1]).1
  }

  /** The step presses the key of this id, and does not just repeat it. */
  predicate Presses(step: Step, id: KeyId) {
    step.Key? && step.e.down && !step.e.repeats && IdOf(step.e.key, step.e.code) == id
  }

  /** When the key of an id was last pressed; before all steps if it never was. */
  ghost function LastPress(steps: seq<Step>, id: KeyId): int {
    if steps == [] then -1
    else if Presses(steps[|steps| - 1], id) then |steps| - 1
    else LastPress(steps[..|steps| - 1], id)
  }

  ghost predicate InOrder(held: seq<Held>, at: KeyId -> int) {
    forall i, j :: 0 <= i < j < |held| ==> at(held[i].id) < at(held[j].id)
  }

  lemma RestInOrder(held: seq<Held>, at: KeyId -> int)
    requires held != [] && InOrder(held, at)
    ensures InOrder(held[1..], at) && forall h :: h in held[1..] ==> at(held[0].id) < at(h.id)
  {
    forall h | h in held[1..] ensures at(held[0].id) < at(h.id) {
      var i :| 0 <= i < |held[1..]| && held[1..][i] == h;
      assert held[i + 1] == h;
    }
  }

  lemma FirstInOrder(first: Held, rest: seq<Held>, at: KeyId -> int)
    requires InOrder(rest, at) && forall h :: h in rest ==> at(first.id) < at(h.id)
    ensures InOrder([first] + rest, at)
  {
  }

  lemma {:induction false} RemoveInOrder(held: seq<Held>, id: KeyId, at: KeyId -> int)
    requires InOrder(held, at)
    ensures InOrder(Remove(held, id), at)
  {
    if held == [] {
    } else {
      RestInOrder(held, at);
      RemoveInOrder(held[1..], id, at);
      RemoveShape(held[1..], id);
      FirstInOrder(held[0], Remove(held[1..], id), at);
    }
  }

  lemma {:induction false} ModifiersInOrder(held: seq<Held>, at: KeyId -> int)
    requires InOrder(held, at)
    ensures InOrder(Modifiers(held), at)
  {
    if held == [] {
    } else {
      RestInOrder(held, at);
      ModifiersInOrder(held[1..], at);
      ModifiersShape(held[1..]);
      FirstInOrder(held[0], Modifiers(held[1..]), at);
    }
  }

  lemma {:induction false} LastPressBefore(steps: seq<Step>, id: KeyId)
    ensures -1 <= LastPress(steps, id) < |steps|
    ensures LastPress(steps, id) >= 0 ==> Presses(steps[LastPress(steps, id)], id)
    ensures forall k :: LastPress(steps, id) < k < |steps| ==> !Presses(steps[k], id)
  {
    if steps == [] {
    } else {
      LastPressBefore(steps[..|steps| - 1], id);
    }
  }

  ghost function PressOrder(steps: seq<Step>): KeyId -> int {
    id => LastPress(steps, id)
  }

  lemma SameOrder(held: seq<Held>, was: KeyId -> int, now: KeyId -> int)
    requires InOrder(held, was) && forall h :: h in held ==> now(h.id) == was(h.id)
    ensures InOrder(held, now)
  {
  }

  lemma PressAddsLast(rest: seq<Held>, pressed: Held, was: KeyId -> int, now: KeyId -> int)
    requires InOrder(rest, was) && forall h :: h in rest ==> now(h.id) == was(h.id) < now(pressed.id)
    ensures InOrder(rest + [pressed], now)
  {
  }

  lemma StepOfAnother(steps: seq<Step>, step: Step, id: KeyId)
    ensures LastPress(steps + [step], id) == if Presses(step, id) then |steps| else LastPress(steps, id)
    ensures -1 <= LastPress(steps, id) < |steps|
  {
    assert (steps + [step])[..|steps|] == steps;
    LastPressBefore(steps, id);
  }

  lemma KeyKeepsOrder(steps: seq<Step>, held: seq<Held>, e: KeyEvent)
    requires InOrder(held, PressOrder(steps)) && !e.repeats
    ensures InOrder(OnKey(held, e).0, PressOrder(steps + [Key(e)]))
  {
    var id := IdOf(e.key, e.code);
    var rest, was, now := Remove(held, id), PressOrder(steps), PressOrder(steps + [Key(e)]);
    RemoveInOrder(held, id, was);
    RemoveShape(held, id);
    ModifiersInOrder(rest, was);
    ModifiersShape(rest);
    forall h | h in rest ensures now(h.id) == was(h.id) < |steps| {
      StepOfAnother(steps, Key(e), h.id);
    }
    StepOfAnother(steps, Key(e), id);
    if e.down {
      PressAddsLast(rest, Held(id, e.key, e.code), was, now);
    } else {
      SameOrder(rest, was, now);
      SameOrder(Modifiers(rest), was, now);
    }
  }

  /** In every run the record holds the keys in the order of their last presses, repeats not
      counted; so releasing in reverse lets go of the key pressed last first. */
  lemma {:induction false} HeldInPressOrder(steps: seq<Step>)
    ensures InOrder(HeldAfter(steps), PressOrder(steps))
  {
    if steps == [] {
    } else {
      var before, last := steps[..|steps| - 1], steps[|steps| - 1];
      HeldInPressOrder(before);
      assert steps == before + [last];
      if last.Key? && !last.e.repeats {
        KeyKeepsOrder(before, HeldAfter(before), last.e);
      } else {
        SameOrder(HeldAfter(before), PressOrder(before), PressOrder(steps));
      }
    }
  }

  /** How often a key with this name and code goes down, counting the repeats of any key that is
      no modifier. */
  ghost function Downs(steps: seq<Step>, key: string, code: string): nat {
    if steps == [] then 0
    else
      var last := steps[|steps| - 1];
      Downs(steps[..|steps| - 1], key, code) +
      if last.Key? && last.e.down && last.e.key == key && last.e.code == code
        && !(last.e.repeats && key in {"Shift", "Control", "Alt", "Meta", "AltGraph"}) then 1 else 0
  }

  lemma StepSendsPress(held: seq<Held>, step: Step, press: Sent)
    requires press.down
    ensures multiset(After(held, step).1)[press] ==
      if step.Key? && step.e.down && step.e.key == press.key && step.e.code == press.code
        && !(step.e.repeats && press.key in {"Shift", "Control", "Alt", "Meta", "AltGraph"}) then 1 else 0
  {
    if step.ReleaseAll? {
      LiftsHaveNoPress(Reversed(held), press);
    } else {
      LiftsHaveNoPress(NonModifiers(Remove(held, IdOf(step.e.key, step.e.code))), press);
    }
  }

  /** In every run each press is sent on, and each repeat but a modifier's, and no other press. */
  lemma {:induction false} PressesForwarded(steps: seq<Step>, key: string, code: string)
    ensures multiset(LogAfter(steps))[Sent(key, code, true)] == Downs(steps, key, code)
  {
    if steps == [] {
    } else {
      var before := steps[..|steps| - 1];
      PressesForwarded(before, key, code);
      StepSendsPress(HeldAfter(before), steps[|steps| - 1], Sent(key, code, true));
    }
  }

  lemma LiftsHaveNoPress(held: seq<Held>, press: Sent)
    requires press.down
    ensures multiset(Lifts(held))[press] == 0
  {
    forall s | s in Lifts(held) ensures !s.down {
      var i :| 0 <= i < |held| && Lifts(held)[i] == s;
    }
  }

  // The forwarder's own record

  lemma Associative(a: seq<Held>, b: seq<Held>, c: seq<Held>)
    ensures (a + b) + c == a + (b + c)
  {
  }

  lemma {:induction false} SplitConcat(a: seq<Held>, b: seq<Held>)
    ensures Modifiers(a + b) == Modifiers(a) + Modifiers(b)
    ensures NonModifiers(a + b) == NonModifiers(a) + NonModifiers(b)
  {
    if a == [] {
      assert a + b == b;
    } else {
      assert (a + b)[1..] == a[1..] + b;
      SplitConcat(a[1..], b);
      var mod, other := if IsModifier(a[0].key) then [a[0]] else [], if IsModifier(a[0].key) then [] else [a[0]];
      Associative(mod, Modifiers(a[1..]), Modifiers(b));
      Associative(other, NonModifiers(a[1..]), NonModifiers(b));
    }
  }

  /** What lifting one id sends. */
  function LiftFor(held: seq<Held>, id: KeyId): seq<Sent> {
    if held == [] then [] else if held[0].id == id then [LiftOf(held[0])] else LiftFor(held[1..], id)
  }

  lemma {:induction false} RemoveOne(a: seq<Held>, x: Held, b: seq<Held>)
    requires forall h :: h in a || h in b ==> h.id != x.id
    ensures Remove(a + ([x] + b), x.id) == a + b && LiftFor(a + ([x] + b), x.id) == [LiftOf(x)]
  {
    if a == [] {
      assert a + ([x] + b) == [x] + b && a + b == b;
      RemoveAbsent(b, x.id);
    } else {
      assert (a + ([x] + b))[1..] == a[1..] + ([x] + b);
      RemoveOne(a[1..], x, b);
      assert a + b == [a[0]] + (a[1..] + b);
    }
  }

  lemma {:induction false} RemoveAbsent(held: seq<Held>, id: KeyId)
    requires LiftFor(held, id) == [] || forall h :: h in held ==> h.id != id
    ensures Remove(held, id) == held
  {
    if held == [] {
    } else {
      RemoveAbsent(held[1..], id);
    }
  }

  /** The sweep half way: modifiers kept, the rest lifted, and the keys still to look at. */
  function SweptHeld(all: seq<Held>, i: nat): seq<Held>
    requires i <= |all|
  {
    Modifiers(all[..i]) + all[i..]
  }

  function SweptLog(all: seq<Held>, i: nat): seq<Sent>
    requires i <= |all|
  {
    Lifts(NonModifiers(all[..i]))
  }

  lemma OthersDiffer(all: seq<Held>, i: nat)
    requires Inv(all) && i < |all|
    ensures forall h :: h in Modifiers(all[..i]) || h in all[i + 1..] ==> h.id != all[i].id
  {
    SplitModifiers(all[..i]);
  }

  lemma SweepPrefix(all: seq<Held>, i: nat)
    requires i < |all|
    ensures Modifiers(all[..i + 1]) == Modifiers(all[..i]) + if IsModifier(all[i].key) then [all[i]] else []
    ensures NonModifiers(all[..i + 1]) == NonModifiers(all[..i]) + if IsModifier(all[i].key) then [] else [all[i]]
  {
    assert all[..i + 1] == all[..i] + [all[i]];
    SplitConcat(all[..i], [all[i]]);
  }

  lemma SentOn(before: seq<Sent>, a: seq<Sent>, b: seq<Sent>)
    ensures (before + a) + b == before + (a + b)
  {
  }

  lemma SweepEnds(all: seq<Held>)
    ensures SweptHeld(all, 0) == all && SweptLog(all, 0) == []
    ensures SweptHeld(all, |all|) == Modifiers(all) && SweptLog(all, |all|) == Lifts(NonModifiers(all))
  {
    assert all[..|all|] == all && all[|all|..] == [] && all[0..] == all && all[..0] == [];
  }

  lemma SweepModifier(all: seq<Held>, i: nat)
    requires i < |all| && IsModifier(all[i].key)
    ensures SweptHeld(all, i + 1) == SweptHeld(all, i) && SweptLog(all, i + 1) == SweptLog(all, i)
  {
    SweepPrefix(all, i);
    assert all[i..] == [all[i]] + all[i + 1..];
  }

  lemma SweepOther(all: seq<Held>, i: nat)
    requires Inv(all) && i < |all| && !IsModifier(all[i].key)
    ensures SweptHeld(all, i + 1) == Remove(SweptHeld(all, i), all[i].id)
    ensures SweptLog(all, i + 1) == SweptLog(all, i) + LiftFor(SweptHeld(all, i), all[i].id)
  {
    SweepPrefix(all, i);
    assert all[i..] == [all[i]] + all[i + 1..];
    OthersDiffer(all, i);
    RemoveOne(Modifiers(all[..i]), all[i], all[i + 1..]);
    LiftsOneMore(NonModifiers(all[..i]), all[i]);
  }

  lemma LiftLast(all: seq<Held>, n: nat)
    requires Inv(all) && n < |all|
    ensures Remove(all[..n + 1], all[n].id) == all[..n] && LiftFor(all[..n + 1], all[n].id) == [LiftOf(all[n])]
  {
    assert all[..n + 1] == all[..n] + ([all[n]] + []);
    RemoveOne(all[..n], all[n], []);
    assert all[..n] + [] == all[..n];
  }

  class Forwarder {
    var held: seq<Held>
    /** Everything sent so far. */
    var log: seq<Sent>

    constructor ()
      ensures held == [] && log == []
    {
      held, log := [], [];
    }

    method Lift(id: KeyId)
      modifies this
      ensures held == Remove(old(held), id) && log == old(log) + LiftFor(old(held), id)
    {
      var lifted: seq<Sent> := LiftFor(held, id);
      if lifted == [] {
        RemoveAbsent(held, id);
        return;
      }
      held := Remove(held, id);
      log := log + lifted;
    }

    method Forward(e: KeyEvent)
      requires Inv(held)
      modifies this
      ensures var (after, sent) := OnKey(old(held), e);
              held == after && log == old(log) + sent
    {
      var id := IdOf(e.key, e.code);
      if e.repeats {
        if e.down && !IsModifier(e.key) {
          log := log + [Sent(e.key, e.code, true)];
        }
        return;
      }
      RemoveShape(held, id);
      held := Remove(held, id);
      if e.down {
        held := held + [Held(id, e.key, e.code)];
      }
      log := log + [Sent(e.key, e.code, e.down)];
      if !e.down && e.key == "Meta" {
        Sweep();
      }
    }

    /** After a Meta release: lift whatever is no modifier, in press order. */
    method Sweep()
      requires Inv(held)
      modifies this
      ensures held == Modifiers(old(held)) && log == old(log) + Lifts(NonModifiers(old(held)))
    {
      var all: seq<Held> := held;
      ghost var before := log;
      var i: nat := 0;
      SweepEnds(all);
      assert log == before + [];
      while i < |all|
        invariant i <= |all| && Inv(all)
        invariant held == SweptHeld(all, i)
        invariant log == before + SweptLog(all, i)
      {
        if IsModifier(all[i].key) {
          SweepModifier(all, i);
        } else {
          SweepOther(all, i);
          SentOn(before, SweptLog(all, i), LiftFor(held, all[i].id));
          Lift(all[i].id);
        }
        i := i + 1;
      }
    }

    method LiftAll()
      requires Inv(held)
      modifies this
      ensures held == [] && log == old(log) + Lifts(Reversed(old(held)))
    {
      var all: seq<Held> := held;
      var n: nat := |all|;
      while n > 0
        invariant n <= |all| && Inv(all)
        invariant held == all[..n]
        invariant log == old(log) + Lifts(Reversed(all))[..|all| - n]
      {
        n := n - 1;
        LiftLast(all, n);
        Lift(all[n].id);
      }
    }
  }
}
