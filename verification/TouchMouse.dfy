/** Touches on the console stage: one finger as a trackpad, two fingers for the view and the
    wheel, and what reaches the remote machine's buttons. */
module TouchMouse {
  import opened Wrappers

  type Button = nat

  const LEFT: Button := 0
  const RIGHT: Button := 2

  const TAP_SLOP: real := 12.0
  const TAP_MS := 350
  const DOUBLE_MS := 350
  const DOUBLE_SLOP: real := 64.0
  const TWO_TAP_MS := 300
  const PAN_START: real := 12.0
  const SCROLL_PX: real := 28.0
  const SCALE_MIN: real := 1.0
  const SCALE_MAX: real := 8.0

  datatype Point = Point(x: real, y: real)

  datatype View = View(scale: real, x: real, y: real)

  datatype Touch = Touch(id: nat, at: Point)

  datatype Tap = Tap(at: Point, time: int)

  datatype Mode = Idle | Single | Gesture

  datatype Kind = Pending | Zoom | Scroll

  /** A two-finger gesture, with the anchors it is measured against. */
  datatype Pair = Pair(kind: Kind, startAt: int, spread0: real, mid0: Point, last: Point, view0: View, moved: bool,
    acc: Point)

  datatype State = State(
    touches: seq<Touch>, mode: Mode, downAt: int, downPoint: Point, glided: bool,
    held: Option<Button>, longArmed: bool, lastTap: Option<Tap>, pair: Pair)

  datatype Out =
    | Press(button: Button) | Release(button: Button)
    | MoveBy(dx: real, dy: real) | Wheel(linesX: int, linesY: int) | SetView(view: View) | GestureBegan

  /** The stage at the time of an event, and its distance and pinch-ratio tests. */
  datatype Host = Host(active: bool, view: View, center: Point, distance: (Point, Point) -> real,
    stretches: (real, real) -> bool)

  datatype Event =
    | Down(id: nat, at: Point, now: int)
    | Move(id: nat, at: Point)
    | Up(id: nat, at: Point, now: int)
    | Cancel(id: nat)
    | LongPress
    | Reset

  function Abs(r: real): real {
    if r < 0.0 then -r else r
  }

  function Max(a: real, b: real): real {
    if a < b then b else a
  }

  function Min(a: real, b: real): real {
    if a < b then a else b
  }

  /** Rounding toward zero. */
  function Trunc(r: real): int {
    if r < 0.0 then -((-r).Floor) else r.Floor
  }

  // The fingers down

  predicate Tracked(touches: seq<Touch>, id: nat) {
    exists i :: 0 <= i < |touches| && touches[i].id == id
  }

  function Place(touches: seq<Touch>, id: nat, at: Point): seq<Touch> {
    if touches == [] then [Touch(id, at)]
    else if touches[0].id == id then [Touch(id, at)] + touches[1..]
    else [touches[0]] + Place(touches[1..], id, at)
  }

  function Without(touches: seq<Touch>, id: nat): seq<Touch> {
    if touches == [] then []
    else if touches[0].id == id then touches[1..]
    else [touches[0]] + Without(touches[1..], id)
  }

  function Where(touches: seq<Touch>, id: nat): Point
    requires Tracked(touches, id)
  {
    if touches[0].id == id then touches[0].at else Where(touches[1..], id)
  }

  /** The midpoint of the first two. */
  function Mid(touches: seq<Touch>): Point
    requires |touches| >= 2
  {
    Point((touches[0].at.x + touches[1].at.x) / 2.0, (touches[0].at.y + touches[1].at.y) / 2.0)
  }

  function Spread(host: Host, touches: seq<Touch>): real
    requires |touches| >= 2
  {
    Max(1.0, host.distance(touches[0].at, touches[1].at))
  }

  function Rebaseline(host: Host, touches: seq<Touch>, pair: Pair): Pair {
    if |touches| < 2 then pair
    else pair.(spread0 := Spread(host, touches), mid0 := Mid(touches), last := Mid(touches), view0 := host.view)
  }

  function Lift(held: Option<Button>): seq<Out> {
    if held.Some? then [Release(held.value)] else []
  }

  // down

  function OnDown(host: Host, s: State, id: nat, at: Point, now: int): (State, seq<Out>) {
    var touches := Place(s.touches, id, at);
    if |touches| == 1 then
      var first := s.(touches := touches, mode := Single, downAt := now, downPoint := at, glided := false,
        longArmed := false);
      if !host.active then (first, [])
      else if s.lastTap.Some? && now - s.lastTap.value.time < DOUBLE_MS
        && host.distance(at, s.lastTap.value.at) < DOUBLE_SLOP then
        (first.(lastTap := None, held := Some(LEFT)), [Press(LEFT)])
      else (first.(longArmed := true), [])
    else if |touches| == 2 then
      (s.(touches := touches, longArmed := false, lastTap := None, held := None, mode := Gesture,
          pair := Rebaseline(host, touches, Pair(Pending, now, 1.0, at, at, host.view, false, Point(0.0, 0.0)))),
       Lift(s.held) + [GestureBegan])
    else (s.(touches := touches), [])
  }

  // move

  /** What the pair's movement so far makes of the gesture. */
  function Commit(host: Host, touches: seq<Touch>, pair: Pair): Kind
    requires |touches| >= 2
  {
    var spread, travel := Spread(host, touches), host.distance(Mid(touches), pair.mid0);
    var pinching := host.stretches(spread, pair.spread0) && Abs(spread - pair.spread0) > 16.0;
    var wiggle := travel > 4.0 || Abs(spread - pair.spread0) > 4.0;
    if pair.kind != Pending then pair.kind
    else if (pair.view0.scale > 1.001 && wiggle) || pinching then Zoom
    else if travel > PAN_START then (if host.active then Scroll else Zoom)
    else Pending
  }

  ghost predicate PairOk(pair: Pair) {
    pair.view0.scale > 0.0 && pair.spread0 >= 1.0
  }

  /** The scale asked for, within the limits. */
  function Clamp(scale: real): real {
    Min(SCALE_MAX, Max(SCALE_MIN, scale))
  }

  function Scaled(scale: real, spread: real, spread0: real): real
    requires spread0 > 0.0
  {
    Clamp(scale * spread / spread0)
  }

  function ScaleAsked(host: Host, touches: seq<Touch>, pair: Pair): real
    requires |touches| >= 2 && PairOk(pair)
  {
    Scaled(pair.view0.scale, Spread(host, touches), pair.spread0)
  }

  function ZoomView(host: Host, touches: seq<Touch>, pair: Pair): View
    requires |touches| >= 2 && PairOk(pair)
  {
    var c, mid := host.center, Mid(touches);
    var scale := ScaleAsked(host, touches, pair);
    var p0x := (pair.mid0.x - c.x - pair.view0.x) / pair.view0.scale;
    var p0y := (pair.mid0.y - c.y - pair.view0.y) / pair.view0.scale;
    View(scale, mid.x - c.x - p0x * scale, mid.y - c.y - p0y * scale)
  }

  function ScrollTo(pair: Pair, mid: Point): (Pair, seq<Out>) {
    var x, y := pair.acc.x + (mid.x - pair.last.x), pair.acc.y + (mid.y - pair.last.y);
    var linesX, linesY := Trunc(x / SCROLL_PX), Trunc(y / SCROLL_PX);
    if linesX != 0 || linesY != 0 then
      (pair.(last := mid, acc := Point(x - linesX as real * SCROLL_PX, y - linesY as real * SCROLL_PX)),
        [Wheel(-linesX, -linesY)])
    else (pair.(last := mid, acc := Point(x, y)), [])
  }

  function GestureMove(host: Host, s: State): (State, seq<Out>)
    requires |s.touches| >= 2 && PairOk(s.pair)
  {
    var kind := Commit(host, s.touches, s.pair);
    var pair := s.pair.(kind := kind, moved := true);
    match kind
    case Pending => (s, [])
    case Zoom => (s.(pair := pair), [SetView(ZoomView(host, s.touches, pair))])
    case Scroll =>
      var (scrolled, out) := ScrollTo(pair, Mid(s.touches));
      (s.(pair := scrolled), out)
  }

  function SingleMove(host: Host, s: State, before: Point, at: Point): (State, seq<Out>) {
    var wandered := !s.glided && host.distance(at, s.downPoint) > TAP_SLOP;
    var after := if wandered then s.(glided := true, longArmed := false, lastTap := None) else s;
    var dx, dy := at.x - before.x, at.y - before.y;
    (after, if host.active then [MoveBy(dx, dy)]
            else if host.view.scale > 1.001 then [SetView(View(host.view.scale, host.view.x + dx, host.view.y + dy))]
            else [])
  }

  function OnMove(host: Host, s: State, id: nat, at: Point): (State, seq<Out>)
    requires s.mode.Gesture? ==> PairOk(s.pair)
  {
    if !Tracked(s.touches, id) then (s, [])
    else
      var placed := s.(touches := Place(s.touches, id, at));
      if s.mode == Single then SingleMove(host, placed, Where(s.touches, id), at)
      else if s.mode != Gesture || |placed.touches| < 2 then (placed, [])
      else GestureMove(host, placed)
  }

  // up, cancel, reset and the long-press timer

  function SingleUp(host: Host, s: State, at: Point, now: int): (State, seq<Out>) {
    var idle := s.(longArmed := false, mode := Idle);
    if !host.active then (idle, [])
    else if s.held.Some? then (idle.(held := None, lastTap := None), [Release(s.held.value)])
    else if !s.glided && now - s.downAt < TAP_MS then
      (idle.(lastTap := Some(Tap(at, now))), [Press(LEFT), Release(LEFT)])
    else (idle.(lastTap := None), [])
  }

  function GestureUp(host: Host, s: State, now: int): (State, seq<Out>) {
    if |s.touches| >= 2 then (s.(pair := Rebaseline(host, s.touches, s.pair)), [])
    else
      var tapped := s.pair.kind == Pending && !s.pair.moved && now - s.pair.startAt < TWO_TAP_MS && host.active;
      var snapped := s.pair.kind == Zoom && host.view.scale < 1.02;
      (if |s.touches| == 1
         then s.(mode := Single, downAt := now, downPoint := s.touches[0].at, glided := true, lastTap := None)
         else s.(mode := Idle),
       (if tapped then [Press(RIGHT), Release(RIGHT)] else []) +
       (if snapped then [SetView(View(1.0, 0.0, 0.0))] else []))
  }

  function OnUp(host: Host, s: State, id: nat, at: Point, now: int): (State, seq<Out>) {
    if !Tracked(s.touches, id) then (s, [])
    else
      var left := s.(touches := Without(s.touches, id));
      match s.mode
      case Single => SingleUp(host, left, at, now)
      case Gesture => GestureUp(host, left, now)
      case Idle => (left, [])
  }

  function ModeOf(count: nat): Mode {
    if count >= 2 then Gesture else if count == 1 then Single else Idle
  }

  function OnCancel(host: Host, s: State, id: nat): (State, seq<Out>) {
    var touches := Without(s.touches, id);
    var mode := ModeOf(|touches|);
    (s.(touches := touches, longArmed := false, held := None, lastTap := None, mode := mode,
        glided := if mode == Single then true else s.glided,
        pair := if mode == Gesture then Rebaseline(host, touches, s.pair) else s.pair.(kind := Pending)),
     Lift(s.held))
  }

  function OnLongPress(s: State): (State, seq<Out>) {
    var fired := s.(longArmed := false);
    if s.mode != Single || s.glided || s.held.Some? then (fired, []) else (fired.(held := Some(RIGHT)), [Press(RIGHT)])
  }

  function OnReset(s: State): (State, seq<Out>) {
    (s.(longArmed := false, held := None, touches := [], lastTap := None, mode := Idle,
        pair := s.pair.(kind := Pending)),
     Lift(s.held))
  }

  function Handle(host: Host, s: State, event: Event): (State, seq<Out>)
    requires s.mode.Gesture? ==> PairOk(s.pair)
  {
    match event
    case Down(id, at, now) => OnDown(host, s, id, at, now)
    case Move(id, at) => OnMove(host, s, id, at)
    case Up(id, at, now) => OnUp(host, s, id, at, now)
    case Cancel(id) => OnCancel(host, s, id)
    case LongPress => OnLongPress(s)
    case Reset => OnReset(s)
  }

  // What the fingers make of the mode, and of the remote's buttons

  ghost predicate Inv(s: State, active: bool) {
    && (forall i, j :: 0 <= i < j < |s.touches| ==> s.touches[i].id != s.touches[j].id)
    && s.mode == ModeOf(|s.touches|)
    && (s.mode != Single || !active ==> s.held.None? && !s.longArmed)
    && (s.longArmed ==> s.held.None?)
    && (s.mode == Gesture ==> PairOk(s.pair))
  }

  /** A pointer goes down once before it goes up; the timer fires only while it is set; and
      the stage's picture is never scaled to nothing. */
  predicate Enabled(host: Host, s: State, event: Event) {
    && host.view.scale > 0.0
    && (event.Down? ==> !Tracked(s.touches, event.id))
    && (event.LongPress? ==> s.longArmed)
  }

  lemma {:induction false} PlaceShape(touches: seq<Touch>, id: nat, at: Point)
    requires forall i, j :: 0 <= i < j < |touches| ==> touches[i].id != touches[j].id
    ensures var after := Place(touches, id, at);
            && |after| == |touches| + (if Tracked(touches, id) then 0 else 1)
            && (forall i :: 0 <= i < |touches| ==>
                  after[i] == if touches[i].id == id then Touch(id, at) else touches[i])
            && (!Tracked(touches, id) ==> after[|touches|] == Touch(id, at))
            && forall i, j :: 0 <= i < j < |after| ==> after[i].id != after[j].id
  {
    if touches == [] {
    } else {
      if touches[0].id != id {
        PlaceShape(touches[1..], id, at);
        assert Tracked(touches, id) ==> Tracked(touches[1..], id);
        assert Tracked(touches[1..], id) ==> Tracked(touches, id) by {
          if i :| 0 <= i < |touches[1..]| && touches[1..][i].id == id {
            assert touches[i + 1].id == id;
          }
        }
      }
    }
  }

  lemma {:induction false} WithoutShape(touches: seq<Touch>, id: nat)
    requires forall i, j :: 0 <= i < j < |touches| ==> touches[i].id != touches[j].id
    ensures var after := Without(touches, id);
            && |after| == |touches| - (if Tracked(touches, id) then 1 else 0)
            && (forall t :: t in after ==> t in touches)
            && forall i, j :: 0 <= i < j < |after| ==> after[i].id != after[j].id
  {
    if touches == [] {
    } else {
      if touches[0].id != id {
        WithoutShape(touches[1..], id);
        var rest := Without(touches[1..], id);
        forall i | 0 <= i < |rest| ensures rest[i].id != touches[0].id {
          assert rest[i] in rest && rest[i] in touches[1..];
        }
        assert Tracked(touches, id) ==> Tracked(touches[1..], id);
        assert Tracked(touches[1..], id) ==> Tracked(touches, id) by {
          if i :| 0 <= i < |touches[1..]| && touches[1..][i].id == id {
            assert touches[i + 1].id == id;
          }
        }
      }
    }
  }

  lemma DownKeepsInv(host: Host, s: State, id: nat, at: Point, now: int)
    requires Inv(s, host.active) && host.view.scale > 0.0 && !Tracked(s.touches, id)
    ensures Inv(OnDown(host, s, id, at, now).0, host.active)
  {
    PlaceShape(s.touches, id, at);
  }

  lemma MoveKeepsInv(host: Host, s: State, id: nat, at: Point)
    requires Inv(s, host.active)
    ensures Inv(OnMove(host, s, id, at).0, host.active)
  {
    PlaceShape(s.touches, id, at);
  }

  lemma UpKeepsInv(host: Host, s: State, id: nat, at: Point, now: int)
    requires Inv(s, host.active) && host.view.scale > 0.0
    ensures Inv(OnUp(host, s, id, at, now).0, host.active)
  {
    WithoutShape(s.touches, id);
  }

  lemma CancelKeepsInv(host: Host, s: State, id: nat)
    requires Inv(s, host.active) && host.view.scale > 0.0
    ensures Inv(OnCancel(host, s, id).0, host.active)
  {
    WithoutShape(s.touches, id);
  }

  lemma HandleKeepsInv(host: Host, s: State, event: Event)
    requires Inv(s, host.active) && Enabled(host, s, event)
    ensures Inv(Handle(host, s, event).0, host.active)
  {
    match event
    case Down(id, at, now) => DownKeepsInv(host, s, id, at, now);
    case Move(id, at) => MoveKeepsInv(host, s, id, at);
    case Up(id, at, now) => UpKeepsInv(host, s, id, at, now);
    case Cancel(id) => CancelKeepsInv(host, s, id);
    case _ =>
  }

  /** The buttons down on the remote after a log; none if the log ever presses a button that
      is down or releases one that is not. */
  function Pressed(log: seq<Out>): Option<set<Button>> {
    if log == [] then Some({})
    else
      var before, last := Pressed(log[..|log| - 1]), log[|log| - 1];
      match last
      case Press(b) => if before.Some? && b !in before.value then Some(before.value + {b}) else None
      case Release(b) => if before.Some? && b in before.value then Some(before.value - {b}) else None
      case _ => before
  }

  function HeldSet(held: Option<Button>): set<Button> {
    if held.Some? then {held.value} else {}
  }

  /** One more output, and two more. */
  lemma PressedOne(log: seq<Out>, a: Out)
    ensures Pressed(log + [a]) ==
      match a
      case Press(b) => if Pressed(log).Some? && b !in Pressed(log).value then Some(Pressed(log).value + {b}) else None
      case Release(b) => if Pressed(log).Some? && b in Pressed(log).value then Some(Pressed(log).value - {b}) else None
      case _ => Pressed(log)
  {
    assert (log + [a])[..|log|] == log;
  }

  /** What a handler may emit: buttons only as `held` changes, or clicked while none is held. */
  ghost predicate Balanced(held: Option<Button>, out: seq<Out>, after: Option<Button>) {
    forall log :: Pressed(log) == Some(HeldSet(held)) ==> Pressed(log + out) == Some(HeldSet(after))
  }

  lemma NothingBalanced(held: Option<Button>, out: seq<Out>)
    requires |out| <= 1 && forall i :: 0 <= i < |out| ==> !out[i].Press? && !out[i].Release?
    ensures Balanced(held, out, held)
  {
    forall log | Pressed(log) == Some(HeldSet(held)) ensures Pressed(log + out) == Some(HeldSet(held)) {
      if out == [] {
        assert log + out == log;
      } else {
        PressedOne(log, out[0]);
        assert log + out == log + [out[0]];
      }
    }
  }

  lemma PressBalanced(b: Button)
    ensures Balanced(None, [Press(b)], Some(b))
  {
    forall log | Pressed(log) == Some({}) ensures Pressed(log + [Press(b)]) == Some({b}) {
      PressedOne(log, Press(b));
      assert {} + {b} == {b};
    }
  }

  lemma LiftBalanced(held: Option<Button>)
    ensures Balanced(held, Lift(held), None)
  {
    if held.None? {
      NothingBalanced(held, []);
    } else {
      forall log | Pressed(log) == Some({held.value}) ensures Pressed(log + Lift(held)) == Some({}) {
        PressedOne(log, Release(held.value));
        assert {held.value} - {held.value} == {};
      }
    }
  }

  lemma ThenBalanced(a: Option<Button>, first: seq<Out>, b: Option<Button>, second: seq<Out>, c: Option<Button>)
    requires Balanced(a, first, b) && Balanced(b, second, c)
    ensures Balanced(a, first + second, c)
  {
    forall log | Pressed(log) == Some(HeldSet(a)) ensures Pressed(log + (first + second)) == Some(HeldSet(c)) {
      assert log + (first + second) == (log + first) + second;
    }
  }

  lemma ClickBalanced(b: Button)
    ensures Balanced(None, [Press(b), Release(b)], None)
  {
    PressBalanced(b);
    LiftBalanced(Some(b));
    ThenBalanced(None, [Press(b)], Some(b), [Release(b)], None);
    assert [Press(b)] + [Release(b)] == [Press(b), Release(b)];
  }

  lemma DownBalanced(host: Host, s: State, id: nat, at: Point, now: int)
    requires Inv(s, host.active) && !Tracked(s.touches, id)
    ensures Balanced(s.held, OnDown(host, s, id, at, now).1, OnDown(host, s, id, at, now).0.held)
  {
    PlaceShape(s.touches, id, at);
    if |s.touches| == 0 {
      PressBalanced(LEFT);
      NothingBalanced(None, []);
    } else if |s.touches| == 1 {
      LiftBalanced(s.held);
      NothingBalanced(None, [GestureBegan]);
      ThenBalanced(s.held, Lift(s.held), None, [GestureBegan], None);
    } else {
      NothingBalanced(s.held, []);
    }
  }

  lemma SingleUpBalanced(host: Host, s: State, at: Point, now: int)
    requires !host.active ==> s.held.None?
    ensures Balanced(s.held, SingleUp(host, s, at, now).1, SingleUp(host, s, at, now).0.held)
  {
    if s.held.Some? {
      LiftBalanced(s.held);
    } else {
      ClickBalanced(LEFT);
      NothingBalanced(None, []);
    }
  }

  lemma GestureUpBalanced(host: Host, s: State, now: int)
    requires s.held.None?
    ensures Balanced(None, GestureUp(host, s, now).1, None)
  {
    ClickBalanced(RIGHT);
    NothingBalanced(None, []);
    var snap := [SetView(View(1.0, 0.0, 0.0))];
    NothingBalanced(None, snap);
    var click := [Press(RIGHT), Release(RIGHT)];
    ThenBalanced(None, click, None, [], None);
    ThenBalanced(None, [], None, snap, None);
    ThenBalanced(None, [], None, [], None);
    ThenBalanced(None, click, None, snap, None);
  }

  lemma UpBalanced(host: Host, s: State, id: nat, at: Point, now: int)
    requires Inv(s, host.active)
    ensures Balanced(s.held, OnUp(host, s, id, at, now).1, OnUp(host, s, id, at, now).0.held)
  {
    var left := s.(touches := Without(s.touches, id));
    if !Tracked(s.touches, id) || s.mode == Idle {
      NothingBalanced(s.held, []);
    } else if s.mode == Single {
      SingleUpBalanced(host, left, at, now);
    } else {
      NothingBalanced(None, []);
      GestureUpBalanced(host, left, now);
    }
  }

  lemma MoveBalanced(host: Host, s: State, id: nat, at: Point)
    requires s.mode.Gesture? ==> PairOk(s.pair)
    ensures Balanced(s.held, OnMove(host, s, id, at).1, OnMove(host, s, id, at).0.held)
  {
    NothingBalanced(s.held, OnMove(host, s, id, at).1);
  }

  lemma CancelBalanced(host: Host, s: State, id: nat)
    ensures Balanced(s.held, OnCancel(host, s, id).1, OnCancel(host, s, id).0.held)
  {
    LiftBalanced(s.held);
  }

  lemma LongPressBalanced(s: State)
    ensures Balanced(s.held, OnLongPress(s).1, OnLongPress(s).0.held)
  {
    NothingBalanced(s.held, []);
    PressBalanced(RIGHT);
  }

  lemma HandleBalanced(host: Host, s: State, event: Event)
    requires Inv(s, host.active) && Enabled(host, s, event)
    ensures Balanced(s.held, Handle(host, s, event).1, Handle(host, s, event).0.held)
  {
    match event
    case Down(id, at, now) => DownBalanced(host, s, id, at, now);
    case Move(id, at) => MoveBalanced(host, s, id, at);
    case Up(id, at, now) => UpBalanced(host, s, id, at, now);
    case Cancel(id) => CancelBalanced(host, s, id);
    case LongPress => LongPressBalanced(s);
    case Reset => LiftBalanced(s.held);
  }

  // What scrolling emits

  /** Wheel lines sent in the current gesture, and how far the pair's midpoint has moved under
      it since its anchor. */
  datatype Tally = Tally(linesX: int, linesY: int, travel: Point)

  const NO_TALLY := Tally(0, 0, Point(0.0, 0.0))

  function WithLines(tally: Tally, out: seq<Out>): Tally {
    if out != [] && out[0].Wheel? then
      tally.(linesX := tally.linesX - out[0].linesX, linesY := tally.linesY - out[0].linesY)
    else tally
  }

  function WithTravel(tally: Tally, before: Point, after: Point): Tally {
    tally.(travel := Point(tally.travel.x + (after.x - before.x), tally.travel.y + (after.y - before.y)))
  }

  /** A new gesture starts from nothing; each move adds what it moved the midpoint by; and a
      change of fingers before the gesture has committed starts over. */
  function TallyAfter(host: Host, s: State, event: Event, tally: Tally): Tally
    requires s.mode.Gesture? ==> PairOk(s.pair)
  {
    var (after, out) := Handle(host, s, event);
    if after.mode != Gesture || |after.touches| < 2 then tally
    else if s.mode != Gesture || |s.touches| < 2 then NO_TALLY
    else if event.Move? then WithLines(WithTravel(tally, Mid(s.touches), Mid(after.touches)), out)
    else if s.pair.kind == Pending && (event.Cancel? || (event.Up? && Tracked(s.touches, event.id))) then NO_TALLY
    else tally
  }

  ghost predicate AxisConserved(lines: int, residue: real, travel: real) {
    28.0 * lines as real + residue == travel && -28.0 < residue < 28.0
  }

  ghost predicate ScrollOk(s: State, tally: Tally) {
    s.mode == Gesture && |s.touches| >= 2 ==>
      && (s.pair.kind == Scroll ==>
            && AxisConserved(tally.linesX, s.pair.acc.x, tally.travel.x)
            && AxisConserved(tally.linesY, s.pair.acc.y, tally.travel.y)
            && s.pair.last == Mid(s.touches))
      && (s.pair.kind == Pending ==>
        s.pair.acc == Point(0.0, 0.0) && WithTravel(NO_TALLY, s.pair.last, Mid(s.touches)) == tally)
  }

  lemma TruncNear(q: real)
    ensures -1.0 < q - Trunc(q) as real < 1.0
    ensures Trunc(q) == 0 ==> -1.0 < q < 1.0
  {
  }

  /** One axis of one scroll step. */
  lemma AxisStep(lines: int, travel: real, x: real)
    requires SCROLL_PX * lines as real + x == travel
    ensures var more := Trunc(x / SCROLL_PX);
            && AxisConserved(lines + more, x - more as real * SCROLL_PX, travel)
            && (more == 0 ==> AxisConserved(lines, x, travel))
  {
    TruncNear(x / SCROLL_PX);
  }

  lemma ScrollToConserves(pair: Pair, mid: Point, tally: Tally)
    requires SCROLL_PX * tally.linesX as real + pair.acc.x + (mid.x - pair.last.x) == tally.travel.x
    requires SCROLL_PX * tally.linesY as real + pair.acc.y + (mid.y - pair.last.y) == tally.travel.y
    ensures var (after, out) := ScrollTo(pair, mid);
            var counted := WithLines(tally, out);
            && AxisConserved(counted.linesX, after.acc.x, tally.travel.x)
            && AxisConserved(counted.linesY, after.acc.y, tally.travel.y)
            && after.last == mid && after.kind == pair.kind && counted.travel == tally.travel
  {
    var x, y := pair.acc.x + (mid.x - pair.last.x), pair.acc.y + (mid.y - pair.last.y);
    AxisStep(tally.linesX, tally.travel.x, x);
    AxisStep(tally.linesY, tally.travel.y, y);
  }

  /** A move of the pair, the fingers already placed. */
  lemma GestureMoveConserves(host: Host, s: State, before: Point, tally: Tally)
    requires s.mode == Gesture && |s.touches| >= 2 && PairOk(s.pair)
    requires s.pair.kind == Scroll ==>
      && AxisConserved(tally.linesX, s.pair.acc.x, tally.travel.x)
      && AxisConserved(tally.linesY, s.pair.acc.y, tally.travel.y)
      && s.pair.last == before
    requires s.pair.kind == Pending ==>
      s.pair.acc == Point(0.0, 0.0) && WithTravel(NO_TALLY, s.pair.last, before) == tally
    ensures ScrollOk(GestureMove(host, s).0,
      WithLines(WithTravel(tally, before, Mid(s.touches)), GestureMove(host, s).1))
  {
    var kind := Commit(host, s.touches, s.pair);
    if kind == Scroll {
      ScrollToConserves(s.pair.(kind := kind, moved := true), Mid(s.touches),
        WithTravel(tally, before, Mid(s.touches)));
    }
  }

  lemma DownConserves(host: Host, s: State, id: nat, at: Point, now: int, tally: Tally)
    requires Inv(s, host.active) && !Tracked(s.touches, id) && ScrollOk(s, tally)
    ensures ScrollOk(OnDown(host, s, id, at, now).0, TallyAfter(host, s, Down(id, at, now), tally))
  {
    PlaceShape(s.touches, id, at);
  }

  lemma MoveConserves(host: Host, s: State, id: nat, at: Point, tally: Tally)
    requires Inv(s, host.active) && ScrollOk(s, tally)
    ensures ScrollOk(OnMove(host, s, id, at).0, TallyAfter(host, s, Move(id, at), tally))
  {
    PlaceShape(s.touches, id, at);
    if s.mode == Gesture && Tracked(s.touches, id) {
      GestureMoveConserves(host, s.(touches := Place(s.touches, id, at)), Mid(s.touches), tally);
    }
  }

  lemma UpConserves(host: Host, s: State, id: nat, at: Point, now: int, tally: Tally)
    requires Inv(s, host.active) && ScrollOk(s, tally)
    ensures ScrollOk(OnUp(host, s, id, at, now).0, TallyAfter(host, s, Up(id, at, now), tally))
  {
    WithoutShape(s.touches, id);
  }

  lemma CancelConserves(host: Host, s: State, id: nat, tally: Tally)
    requires Inv(s, host.active) && ScrollOk(s, tally)
    ensures ScrollOk(OnCancel(host, s, id).0, TallyAfter(host, s, Cancel(id), tally))
  {
    WithoutShape(s.touches, id);
  }

  lemma HandleConserves(host: Host, s: State, event: Event, tally: Tally)
    requires Inv(s, host.active) && Enabled(host, s, event) && ScrollOk(s, tally)
    ensures ScrollOk(Handle(host, s, event).0, TallyAfter(host, s, event, tally))
  {
    match event
    case Down(id, at, now) => DownConserves(host, s, id, at, now, tally);
    case Move(id, at) => MoveConserves(host, s, id, at, tally);
    case Up(id, at, now) => UpConserves(host, s, id, at, now, tally);
    case Cancel(id) => CancelConserves(host, s, id, tally);
    case _ =>
  }

  // Zooming

  /** The content point shown at a place on the stage. */
  function ContentAt(view: View, center: Point, at: Point): Point
    requires view.scale > 0.0
  {
    Point((at.x - center.x - view.x) / view.scale, (at.y - center.y - view.y) / view.scale)
  }

  lemma Unscale(p: real, scale: real)
    requires scale > 0.0
    ensures p * scale / scale == p
  {
  }

  /** Every zoom step stays within scale 1 to 8, shows under the midpoint the content point
      the gesture began on, and short of those limits scales as the fingers spread. */
  lemma ZoomPins(host: Host, touches: seq<Touch>, pair: Pair)
    requires |touches| >= 2 && PairOk(pair)
    ensures var view := ZoomView(host, touches, pair);
            && 1.0 <= view.scale <= 8.0
            && ContentAt(view, host.center, Mid(touches)) == ContentAt(pair.view0, host.center, pair.mid0)
            && (1.0 < view.scale < 8.0 ==>
              view.scale * pair.spread0 == pair.view0.scale * Spread(host, touches))
  {
    var view, p0 := ZoomView(host, touches, pair), ContentAt(pair.view0, host.center, pair.mid0);
    Unscale(p0.x, view.scale);
    Unscale(p0.y, view.scale);
    assert Mid(touches).x - host.center.x - view.x == p0.x * view.scale;
    assert Mid(touches).y - host.center.y - view.y == p0.y * view.scale;
  }

  /** A gesture anchored again where its fingers are, its view within the limits, asks for
      just the view there is: changing fingers does not make the picture jump. */
  lemma ReanchorKeepsView(host: Host, touches: seq<Touch>, pair: Pair)
    requires |touches| >= 2 && SCALE_MIN <= host.view.scale <= SCALE_MAX
    ensures PairOk(Rebaseline(host, touches, pair))
      && ZoomView(host, touches, Rebaseline(host, touches, pair)) == host.view
  {
    var anchored, spread := Rebaseline(host, touches, pair), Spread(host, touches);
    SameScale(host, touches, anchored);
    Rescale(Mid(touches).x - host.center.x - host.view.x, host.view.scale);
    Rescale(Mid(touches).y - host.center.y - host.view.y, host.view.scale);
  }

  lemma SameScale(host: Host, touches: seq<Touch>, pair: Pair)
    requires |touches| >= 2 && SCALE_MIN <= host.view.scale <= SCALE_MAX
    requires PairOk(pair) && pair.view0 == host.view && pair.spread0 == Spread(host, touches)
    ensures ScaleAsked(host, touches, pair) == host.view.scale
  {
    ScaledBack(host.view.scale, Spread(host, touches));
  }

  lemma ScaledBack(scale: real, spread: real)
    requires SCALE_MIN <= scale <= SCALE_MAX && spread > 0.0
    ensures Scaled(scale, spread, spread) == scale
  {
    Unscale(scale, spread);
  }

  lemma Rescale(d: real, scale: real)
    requires scale > 0.0
    ensures d / scale * scale == d
  {
  }

  /** What a move asks of the view while two fingers are down is such a step. */
  lemma MoveSetsPinnedView(host: Host, s: State, id: nat, at: Point, view: View)
    requires Inv(s, host.active) && s.mode == Gesture && SetView(view) in OnMove(host, s, id, at).1
    ensures var touches := OnMove(host, s, id, at).0.touches;
            && |touches| >= 2 && 1.0 <= view.scale <= 8.0
            && ContentAt(view, host.center, Mid(touches)) == ContentAt(s.pair.view0, host.center, s.pair.mid0)
  {
    PlaceShape(s.touches, id, at);
    var placed := s.(touches := Place(s.touches, id, at));
    ZoomPins(host, placed.touches, s.pair.(kind := Zoom, moved := true));
  }

  // Every run

  datatype Net = Net(active: bool, state: State, log: seq<Out>, tally: Tally)

  /** An event at the stage, or control going on or off; the host resets the touches when it
      goes off. */
  datatype Moment = At(host: Host, event: Event) | Control(on: bool)

  predicate Possible(n: Net, m: Moment) {
    m.At? ==> m.host.active == n.active && Enabled(m.host, n.state, m.event)
  }

  ghost function Next(n: Net, m: Moment): Net
    requires Possible(n, m) && Inv(n.state, n.active)
  {
    match m
    case At(host, event) =>
      var (after, out) := Handle(host, n.state, event);
      Net(n.active, after, n.log + out, TallyAfter(host, n.state, event, n.tally))
    case Control(on) =>
      if on then n.(active := true)
      else var (after, out) := OnReset(n.state); Net(false, after, n.log + out, n.tally)
  }

  ghost predicate Good(n: Net) {
    Inv(n.state, n.active) && Pressed(n.log) == Some(HeldSet(n.state.held)) && ScrollOk(n.state, n.tally)
  }

  lemma NextKeepsInv(n: Net, m: Moment)
    requires Inv(n.state, n.active) && Possible(n, m)
    ensures Inv(Next(n, m).state, Next(n, m).active)
  {
    if m.At? {
      HandleKeepsInv(m.host, n.state, m.event);
    }
  }

  lemma NextKeepsGood(n: Net, m: Moment)
    requires Good(n) && Possible(n, m)
    ensures Good(Next(n, m))
  {
    NextKeepsInv(n, m);
    match m
    case At(host, event) =>
      HandleBalanced(host, n.state, event);
      HandleConserves(host, n.state, event, n.tally);
    case Control(on) => LiftBalanced(n.state.held);
  }

  ghost predicate Runs(n: Net, moments: seq<Moment>, end: Net)
    decreases |moments|
  {
    if moments == [] then end == n
    else Inv(n.state, n.active) && Possible(n, moments[0]) && Runs(Next(n, moments[0]), moments[1..], end)
  }

  /** No finger down, nothing held. */
  ghost predicate Start(n: Net) {
    && n.state.touches == [] && n.state.mode == Idle && n.state.held.None? && !n.state.longArmed
    && n.log == [] && n.tally == NO_TALLY
  }

  lemma {:induction false} RunKeepsGood(n: Net, moments: seq<Moment>, end: Net)
    requires Good(n) && Runs(n, moments, end)
    ensures Good(end)
    decreases |moments|
  {
    if moments == [] {
    } else {
      NextKeepsGood(n, moments[0]);
      RunKeepsGood(Next(n, moments[0]), moments[1..], end);
    }
  }

  /** In every run of touches, timers and control switching: no button is ever pressed twice
      or released unpressed, exactly the held button is down on the remote, the mode follows
      from the number of fingers, and what a scroll has emitted and still owes is what the
      fingers travelled. */
  lemma TouchesStayBalanced(start: Net, moments: seq<Moment>, end: Net)
    requires Start(start) && Runs(start, moments, end)
    ensures Pressed(end.log) == Some(HeldSet(end.state.held))
    ensures end.state.mode == ModeOf(|end.state.touches|)
    ensures end.state.mode == Gesture && end.state.pair.kind == Scroll ==>
      && AxisConserved(end.tally.linesX, end.state.pair.acc.x, end.tally.travel.x)
      && AxisConserved(end.tally.linesY, end.state.pair.acc.y, end.tally.travel.y)
  {
    RunKeepsGood(start, moments, end);
  }

  // After two fingers

  /** Two fingers are or were down and some still are: what is left can only glide. */
  ghost predicate Spent(s: State) {
    s.held.None? && !s.longArmed && (s.mode == Single ==> s.glided)
  }

  lemma SpentKeeps(host: Host, s: State, event: Event)
    requires Inv(s, host.active) && Enabled(host, s, event) && Spent(s) && s.touches != []
    ensures Spent(Handle(host, s, event).0)
    ensures Press(LEFT) !in Handle(host, s, event).1
  {
    match event
    case Down(id, at, _) => PlaceShape(s.touches, id, at);
    case Move(id, at) => PlaceShape(s.touches, id, at);
    case Up(id, _, _) => WithoutShape(s.touches, id);
    case Cancel(id) => WithoutShape(s.touches, id);
    case _ =>
  }

  /** Every moment finds some finger down. */
  ghost predicate FingersStay(n: Net, moments: seq<Moment>)
    decreases |moments|
  {
    moments == [] || (n.state.touches != [] && Inv(n.state, n.active) && Possible(n, moments[0])
      && FingersStay(Next(n, moments[0]), moments[1..]))
  }

  /** Once two fingers have been down, until all are up: no left press, and no long press. */
  lemma {:induction false} NoClickAfterGesture(n: Net, moments: seq<Moment>, end: Net)
    requires Inv(n.state, n.active) && (n.state.mode == Gesture || Spent(n.state))
    requires Runs(n, moments, end) && FingersStay(n, moments)
    ensures n.log <= end.log && Press(LEFT) !in end.log[|n.log|..] && end.state.held.None?
    decreases |moments|
  {
    if moments == [] {
    } else {
      var next := Next(n, moments[0]);
      NextKeepsInv(n, moments[0]);
      if moments[0].At? {
        SpentKeeps(moments[0].host, n.state, moments[0].event);
      }
      NoClickAfterGesture(next, moments[1..], end);
      assert n.log <= next.log && Press(LEFT) !in next.log[|n.log|..];
      assert end.log[|n.log|..] == next.log[|n.log|..] + end.log[|next.log|..];
    }
  }

  // The closure's variables, changed by each handler in place

  class Surface {
    var touches: seq<Touch>
    var mode: Mode
    var downAt: int
    var downPoint: Point
    var glided: bool
    var held: Option<Button>
    var longArmed: bool
    var lastTap: Option<Tap>
    var pair: Pair
    /** Everything asked of the host so far. */
    var log: seq<Out>

    ghost function Now(): State
      reads this
    {
      State(touches, mode, downAt, downPoint, glided, held, longArmed, lastTap, pair)
    }

    constructor ()
      ensures touches == [] && mode == Idle && held.None? && !longArmed && lastTap.None? && log == []
    {
      var origin := Point(0.0, 0.0);
      touches, mode, downAt, downPoint, glided := [], Idle, 0, origin, false;
      held, longArmed, lastTap := None, false, None;
      pair := Pair(Pending, 0, 1.0, origin, origin, View(1.0, 0.0, 0.0), false, origin);
      log := [];
    }

    method LiftHeld()
      modifies this`held, this`log
      ensures held.None? && log == old(log) + Lift(old(held))
    {
      if held.Some? {
        log := log + [Release(held.value)];
        held := None;
      }
    }

    method Reanchor(host: Host)
      modifies this`pair
      ensures pair == Rebaseline(host, touches, old(pair))
    {
      if |touches| < 2 {
        return;
      }
      pair := pair.(spread0 := Spread(host, touches), mid0 := Mid(touches), last := Mid(touches), view0 := host.view);
    }

    method FingerDown(host: Host, id: nat, at: Point, now: int)
      modifies this
      ensures var (after, out) := OnDown(host, old(Now()), id, at, now);
              Now() == after && log == old(log) + out
    {
      touches := Place(touches, id, at);
      if |touches| == 1 {
        mode, downAt, downPoint, glided, longArmed := Single, now, at, false, false;
        if !host.active {
          return;
        }
        if lastTap.Some? && now - lastTap.value.time < DOUBLE_MS && host.distance(at, lastTap.value.at) < DOUBLE_SLOP {
          lastTap, held := None, Some(LEFT);
          log := log + [Press(LEFT)];
          return;
        }
        longArmed := true;
        return;
      }
      if |touches| == 2 {
        longArmed, lastTap := false, None;
        LiftHeld();
        mode := Gesture;
        pair := Pair(Pending, now, 1.0, at, at, host.view, false, Point(0.0, 0.0));
        Reanchor(host);
        log := log + [GestureBegan];
      }
    }

    method FingerMove(host: Host, id: nat, at: Point)
      requires mode.Gesture? ==> PairOk(pair)
      modifies this
      ensures var (after, out) := OnMove(host, old(Now()), id, at);
              Now() == after && log == old(log) + out
    {
      if !Tracked(touches, id) {
        return;
      }
      var before := Where(touches, id);
      touches := Place(touches, id, at);
      if mode == Single {
        if !glided && host.distance(at, downPoint) > TAP_SLOP {
          glided, longArmed, lastTap := true, false, None;
        }
        var dx, dy := at.x - before.x, at.y - before.y;
        if host.active {
          log := log + [MoveBy(dx, dy)];
        } else if host.view.scale > 1.001 {
          log := log + [SetView(View(host.view.scale, host.view.x + dx, host.view.y + dy))];
        }
        return;
      }
      if mode != Gesture || |touches| < 2 {
        return;
      }
      MovePair(host);
    }

    method ScrollPair(mid: Point)
      modifies this`pair, this`log
      ensures var (after, out) := ScrollTo(old(pair), mid);
              pair == after && log == old(log) + out
    {
      var x, y := pair.acc.x + (mid.x - pair.last.x), pair.acc.y + (mid.y - pair.last.y);
      pair := pair.(acc := Point(x, y), last := mid);
      var linesX, linesY := Trunc(x / SCROLL_PX), Trunc(y / SCROLL_PX);
      if linesX != 0 || linesY != 0 {
        pair := pair.(acc := Point(x - linesX as real * SCROLL_PX, y - linesY as real * SCROLL_PX));
        log := log + [Wheel(-linesX, -linesY)];
      }
    }

    method MovePair(host: Host)
      requires |touches| >= 2 && PairOk(pair)
      modifies this`pair, this`log
      ensures var (after, out) := GestureMove(host, old(Now()));
              Now() == after && log == old(log) + out
    {
      var mid := Mid(touches);
      if pair.kind == Pending {
        var spread, travel := Spread(host, touches), host.distance(mid, pair.mid0);
        var pinching := host.stretches(spread, pair.spread0) && Abs(spread - pair.spread0) > 16.0;
        var wiggle := travel > 4.0 || Abs(spread - pair.spread0) > 4.0;
        if (pair.view0.scale > 1.001 && wiggle) || pinching {
          pair := pair.(kind := Zoom);
        } else if travel > PAN_START {
          pair := pair.(kind := if host.active then Scroll else Zoom);
        } else {
          return;
        }
      }
      pair := pair.(moved := true);
      if pair.kind == Zoom {
        log := log + [SetView(ZoomView(host, touches, pair))];
      } else {
        ScrollPair(mid);
      }
    }

    method LiftLone(host: Host, at: Point, now: int)
      modifies this
      ensures var (after, out) := SingleUp(host, old(Now()), at, now);
              Now() == after && log == old(log) + out
    {
      longArmed := false;
      if host.active {
        if held.Some? {
          LiftHeld();
          lastTap := None;
        } else if !glided && now - downAt < TAP_MS {
          log := log + [Press(LEFT), Release(LEFT)];
          lastTap := Some(Tap(at, now));
        } else {
          lastTap := None;
        }
      }
      mode := Idle;
    }

    method LiftOfPair(host: Host, now: int)
      modifies this
      ensures var (after, out) := GestureUp(host, old(Now()), now);
              Now() == after && log == old(log) + out
    {
      if |touches| >= 2 {
        Reanchor(host);
        return;
      }
      if pair.kind == Pending && !pair.moved && now - pair.startAt < TWO_TAP_MS && host.active {
        log := log + [Press(RIGHT), Release(RIGHT)];
      }
      if pair.kind == Zoom && host.view.scale < 1.02 {
        log := log + [SetView(View(1.0, 0.0, 0.0))];
      }
      if |touches| == 1 {
        mode, downAt, downPoint, glided, lastTap := Single, now, touches[0].at, true, None;
      } else {
        mode := Idle;
      }
    }

    method FingerUp(host: Host, id: nat, at: Point, now: int)
      modifies this
      ensures var (after, out) := OnUp(host, old(Now()), id, at, now);
              Now() == after && log == old(log) + out
    {
      if !Tracked(touches, id) {
        return;
      }
      touches := Without(touches, id);
      if mode == Single {
        LiftLone(host, at, now);
      } else if mode == Gesture {
        LiftOfPair(host, now);
      }
    }

    method FingerCancel(host: Host, id: nat)
      modifies this
      ensures var (after, out) := OnCancel(host, old(Now()), id);
              Now() == after && log == old(log) + out
    {
      touches := Without(touches, id);
      longArmed := false;
      LiftHeld();
      lastTap := None;
      mode := if |touches| >= 2 then Gesture else if |touches| == 1 then Single else Idle;
      if mode == Single {
        glided := true;
      }
      if mode == Gesture {
        Reanchor(host);
      } else {
        pair := pair.(kind := Pending);
      }
    }

    method LongPressDue()
      requires longArmed
      modifies this
      ensures var (after, out) := OnLongPress(old(Now()));
              Now() == after && log == old(log) + out
    {
      longArmed := false;
      if mode != Single || glided || held.Some? {
        return;
      }
      held := Some(RIGHT);
      log := log + [Press(RIGHT)];
    }

    method ForgetAll()
      modifies this
      ensures var (after, out) := OnReset(old(Now()));
              Now() == after && log == old(log) + out
    {
      longArmed := false;
      LiftHeld();
      touches, lastTap, mode := [], None, Idle;
      pair := pair.(kind := Pending);
    }
  }
}
