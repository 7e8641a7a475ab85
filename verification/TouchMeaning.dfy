/** What each thing the fingers say means at the remote machine: taps, drags, holds, two-finger
    taps, and which of zoom and scroll a pair of fingers asks for. */
module TouchMeaning {
  import opened Wrappers
  import opened TouchMouse

  /** The moves of one finger. */
  ghost predicate MovesOf(moments: seq<Moment>, id: nat) {
    forall m :: m in moments ==> m.At? && m.event.Move? && m.event.id == id
  }

  /** Where they take it. */
  ghost function LastAt(from: Point, moments: seq<Moment>, id: nat): Point
    requires MovesOf(moments, id)
  {
    if moments == [] then from
    else
      var last := moments[|moments| - 1];
      assert last in moments;
      last.event.at
  }

  /** Whether one of them was more than 12 px from where the finger came down. */
  ghost predicate Wandered(moments: seq<Moment>, id: nat, downPoint: Point)
    requires MovesOf(moments, id)
  {
    exists m :: m in moments && m.host.distance(m.event.at, downPoint) > 12.0
  }

  /** How far some outputs steer the cursor in all. */
  function Steered(out: seq<Out>): Point {
    if out == [] then Point(0.0, 0.0)
    else
      var rest := Steered(out[1..]);
      if out[0].MoveBy? then Point(out[0].dx + rest.x, out[0].dy + rest.y) else rest
  }

  /** Nothing but steering, in all by the finger's travel on each axis. */
  predicate Steers(out: seq<Out>, from: Point, to: Point) {
    && (forall o :: o in out ==> o.MoveBy?)
    && Steered(out) == Point(to.x - from.x, to.y - from.y)
  }

  lemma {:induction false} RunSplit(n: Net, a: seq<Moment>, b: seq<Moment>, end: Net) returns (mid: Net)
    requires Runs(n, a + b, end)
    ensures Runs(n, a, mid) && Runs(mid, b, end)
    decreases |a|
  {
    if a == [] {
      assert a + b == b;
      mid := n;
    } else {
      assert (a + b)[1..] == a[1..] + b;
      mid := RunSplit(Next(n, a[0]), a[1..], b, end);
    }
  }

  lemma RunOne(n: Net, m: Moment, end: Net)
    requires Runs(n, [m], end)
    ensures Inv(n.state, n.active) && Possible(n, m) && end == Next(n, m)
  {
    assert [m][1..] == [];
  }

  // One finger

  /** One finger is down, at this place. */
  ghost predicate Lone(n: Net, id: nat, at: Point) {
    n.active && n.state.mode == Single && n.state.touches == [Touch(id, at)]
  }

  lemma LoneMove(n: Net, m: Moment, id: nat, from: Point)
    requires Inv(n.state, n.active) && Possible(n, m) && Lone(n, id, from)
    requires m.At? && m.event.Move? && m.event.id == id
    ensures var far, to := m.host.distance(m.event.at, n.state.downPoint) > 12.0, m.event.at;
            var next := Next(n, m);
            && Lone(next, id, to) && next.log == n.log + [MoveBy(to.x - from.x, to.y - from.y)]
            && next.state == n.state.(touches := [Touch(id, to)], glided := n.state.glided || far,
                 longArmed := n.state.longArmed && (n.state.glided || !far),
                 lastTap := if !n.state.glided && far then None else n.state.lastTap)
  {
    assert n.state.touches[0].id == id;
  }

  lemma WanderedFirst(moments: seq<Moment>, id: nat, downPoint: Point)
    requires moments != [] && MovesOf(moments, id)
    ensures MovesOf(moments[1..], id) && moments[0].At? && moments[0].event.Move? && moments[0].event.id == id
    ensures Wandered(moments, id, downPoint) <==>
      moments[0].host.distance(moments[0].event.at, downPoint) > 12.0 || Wandered(moments[1..], id, downPoint)
    ensures forall from :: LastAt(from, moments, id) == LastAt(moments[0].event.at, moments[1..], id)
  {
    assert moments == [moments[0]] + moments[1..];
    assert moments[0] in moments;
  }

  lemma SteersFirst(from: Point, mid: Point, to: Point, out: seq<Out>)
    requires Steers(out, mid, to)
    ensures Steers([MoveBy(mid.x - from.x, mid.y - from.y)] + out, from, to)
  {
    assert ([MoveBy(mid.x - from.x, mid.y - from.y)] + out)[1..] == out;
  }

  /** A lone finger's moves steer the cursor by its travel, axis by axis, and press nothing. */
  lemma {:induction false} LoneFingerSteers(n: Net, moments: seq<Moment>, end: Net, id: nat, from: Point)
    returns (out: seq<Out>)
    requires Runs(n, moments, end) && Lone(n, id, from) && MovesOf(moments, id)
    ensures end.log == n.log + out && Steers(out, from, LastAt(from, moments, id))
    ensures var far := Wandered(moments, id, n.state.downPoint);
            end.state == n.state.(touches := [Touch(id, LastAt(from, moments, id))], glided := n.state.glided || far,
              longArmed := n.state.longArmed && (n.state.glided || !far),
              lastTap := if !n.state.glided && far then None else n.state.lastTap)
    ensures Lone(end, id, LastAt(from, moments, id))
    decreases |moments|
  {
    if moments == [] {
      out := [];
    } else {
      var m, to := moments[0], moments[0].event.at;
      WanderedFirst(moments, id, n.state.downPoint);
      LoneMove(n, m, id, from);
      var rest := LoneFingerSteers(Next(n, m), moments[1..], end, id, to);
      SteersFirst(from, to, LastAt(to, moments[1..], id), rest);
      out := [MoveBy(to.x - from.x, to.y - from.y)] + rest;
    }
  }

  /** Whether a press comes within 350 ms and 64 px of a remembered tap. */
  predicate FollowsTap(s: State, host: Host, at: Point, now: int) {
    s.lastTap.Some? && now - s.lastTap.value.time < 350 && host.distance(at, s.lastTap.value.at) < 64.0
  }

  lemma LoneDown(n: Net, host: Host, id: nat, at: Point, now: int)
    requires Inv(n.state, n.active) && Possible(n, At(host, Down(id, at, now))) && n.active && n.state.touches == []
    ensures var next, drag := Next(n, At(host, Down(id, at, now))), FollowsTap(n.state, host, at, now);
            && Lone(next, id, at) && next.log == n.log + (if drag then [Press(0)] else [])
            && next.state.downPoint == at && next.state.downAt == now && !next.state.glided
            && next.state.held == (if drag then Some(0) else None) && (next.state.longArmed <==> !drag)
            && next.state.lastTap == (if drag then None else n.state.lastTap)
  {
  }

  lemma LoneUp(n: Net, host: Host, id: nat, from: Point, at: Point, now: int)
    requires Inv(n.state, n.active) && Possible(n, At(host, Up(id, at, now))) && Lone(n, id, from)
    ensures var next := Next(n, At(host, Up(id, at, now)));
            var tap := n.state.held.None? && !n.state.glided && now - n.state.downAt < 350;
            && next.active && next.state.touches == [] && next.state.held.None?
            && next.state.lastTap == (if tap then Some(Tap(at, now)) else None)
            && next.log == n.log + (if n.state.held.Some? then [Release(n.state.held.value)]
                                    else if tap then [Press(0), Release(0)] else [])
  {
    assert n.state.touches[0].id == id;
  }

  /** What one finger does between coming down and going up. */
  datatype Stroke = Stroke(id: nat, host: Host, at: Point, now: int, moves: seq<Moment>,
    upHost: Host, upAt: Point, upNow: int)

  ghost predicate Proper(k: Stroke) {
    MovesOf(k.moves, k.id)
  }

  function Pressing(k: Stroke): seq<Moment> {
    [At(k.host, Down(k.id, k.at, k.now))] + k.moves
  }

  function Stroked(k: Stroke): seq<Moment> {
    Pressing(k) + [At(k.upHost, Up(k.id, k.upAt, k.upNow))]
  }

  /** Up within 350 ms without having wandered 12 px. */
  ghost predicate IsTap(k: Stroke)
    requires Proper(k)
  {
    !Wandered(k.moves, k.id, k.at) && k.upNow - k.now < 350
  }

  /** A finger comes down and moves: the left button goes down with it exactly if it follows a
      tap, and stays down; else the hold timer is set exactly until the finger wanders. */
  lemma PressHolds(n: Net, k: Stroke, end: Net) returns (out: seq<Out>)
    requires Runs(n, Pressing(k), end) && Proper(k) && n.active && n.state.touches == []
    ensures var drag, to := FollowsTap(n.state, k.host, k.at, k.now), LastAt(k.at, k.moves, k.id);
            && end.log == n.log + (if drag then [Press(0)] else []) + out && Steers(out, k.at, to)
            && end.state.held == (if drag then Some(0) else None)
            && (end.state.longArmed <==> !drag && !Wandered(k.moves, k.id, k.at))
            && (end.state.glided <==> Wandered(k.moves, k.id, k.at))
            && end.state.downAt == k.now && end.state.downPoint == k.at && Lone(end, k.id, to)
  {
    var down := At(k.host, Down(k.id, k.at, k.now));
    var mid := RunSplit(n, [down], k.moves, end);
    RunOne(n, down, mid);
    LoneDown(n, k.host, k.id, k.at, k.now);
    out := LoneFingerSteers(mid, k.moves, end, k.id, k.at);
  }

  /** One stroke from no finger down: after a tap a left drag, else a left click if it is a tap
      itself, else nothing; besides the steering, which is the finger's travel. */
  lemma StrokeMeans(n: Net, k: Stroke, end: Net) returns (out: seq<Out>)
    requires Runs(n, Stroked(k), end) && Proper(k) && n.active && n.state.touches == []
    ensures Steers(out, k.at, LastAt(k.at, k.moves, k.id)) && end.active && end.state.touches == []
    ensures FollowsTap(n.state, k.host, k.at, k.now) ==>
      end.log == n.log + [Press(0)] + out + [Release(0)] && end.state.lastTap == None
    ensures !FollowsTap(n.state, k.host, k.at, k.now) ==>
      && end.log == n.log + out + (if IsTap(k) then [Press(0), Release(0)] else [])
      && end.state.lastTap == (if IsTap(k) then Some(Tap(k.upAt, k.upNow)) else None)
  {
    var up := At(k.upHost, Up(k.id, k.upAt, k.upNow));
    var mid := RunSplit(n, Pressing(k), [up], end);
    out := PressHolds(n, k, mid);
    RunOne(mid, up, end);
    LoneUp(mid, k.upHost, k.id, LastAt(k.at, k.moves, k.id), k.upAt, k.upNow);
    assert n.log + [] + out == n.log + out;
  }

  ghost predicate FreshStart(n: Net) {
    Start(n) && n.active && n.state.lastTap == None
  }

  /** From the start, a tap and a second stroke: if it begins within 350 ms and 64 px of the tap
      it drags with the left button, else it is a stroke of its own. */
  lemma TapThenStroke(n: Net, first: Stroke, second: Stroke, end: Net) returns (a: seq<Out>, b: seq<Out>)
    requires FreshStart(n) && Proper(first) && Proper(second) && IsTap(first)
    requires Runs(n, Stroked(first) + Stroked(second), end)
    ensures Steers(a, first.at, LastAt(first.at, first.moves, first.id))
    ensures Steers(b, second.at, LastAt(second.at, second.moves, second.id))
    ensures end.log == a + [Press(0), Release(0)] +
      if second.now - first.upNow < 350 && second.host.distance(second.at, first.upAt) < 64.0
      then [Press(0)] + b + [Release(0)]
      else b + if IsTap(second) then [Press(0), Release(0)] else []
  {
    var mid := RunSplit(n, Stroked(first), Stroked(second), end);
    a := StrokeMeans(n, first, mid);
    b := StrokeMeans(mid, second, end);
    assert n.log + a == a;
  }

  /** A hold: the timer fires, which it can exactly while the finger has not wandered, and the
      right button is down from then until the finger lifts, through whatever it moves. */
  lemma HoldMeans(n: Net, k: Stroke, host: Host, more: seq<Moment>, end: Net) returns (a: seq<Out>, b: seq<Out>)
    requires Proper(k) && MovesOf(more, k.id) && n.active && n.state.touches == []
    requires var up := At(k.upHost, Up(k.id, k.upAt, k.upNow));
             Runs(n, Pressing(k) + ([At(host, LongPress)] + (more + [up])), end)
    ensures !FollowsTap(n.state, k.host, k.at, k.now) && !Wandered(k.moves, k.id, k.at)
    ensures var to := LastAt(k.at, k.moves, k.id);
            Steers(a, k.at, to) && Steers(b, to, LastAt(to, more, k.id))
    ensures end.log == n.log + a + [Press(2)] + b + [Release(2)]
    ensures end.state.touches == [] && end.state.held.None? && end.state.lastTap == None
  {
    var up, hold, to := At(k.upHost, Up(k.id, k.upAt, k.upNow)), At(host, LongPress), LastAt(k.at, k.moves, k.id);
    var pressed := RunSplit(n, Pressing(k), [hold] + (more + [up]), end);
    a := PressHolds(n, k, pressed);
    var held := RunSplit(pressed, [hold], more + [up], end);
    HoldFires(pressed, host, held, k.id, to);
    b := HeldStroke(held, k, to, more, end);
    assert n.log + [] + a == n.log + a;
  }

  lemma HoldFires(n: Net, host: Host, end: Net, id: nat, at: Point)
    requires Runs(n, [At(host, LongPress)], end) && Lone(n, id, at)
    ensures n.state.longArmed
    ensures n.state.held.None? && !n.state.glided ==>
      end.log == n.log + [Press(2)] && end.state.held == Some(2) && Lone(end, id, at)
  {
    RunOne(n, At(host, LongPress), end);
  }

  /** What a finger that holds a button sends until it is up. */
  lemma HeldStroke(n: Net, k: Stroke, from: Point, more: seq<Moment>, end: Net) returns (out: seq<Out>)
    requires Lone(n, k.id, from) && n.state.held.Some? && MovesOf(more, k.id)
    requires Runs(n, more + [At(k.upHost, Up(k.id, k.upAt, k.upNow))], end)
    ensures Steers(out, from, LastAt(from, more, k.id)) && end.log == n.log + out + [Release(n.state.held.value)]
    ensures end.state.touches == [] && end.state.held.None? && end.state.lastTap == None
  {
    var up := At(k.upHost, Up(k.id, k.upAt, k.upNow));
    var last := RunSplit(n, more, [up], end);
    out := LoneFingerSteers(n, more, last, k.id, from);
    RunOne(last, up, end);
    LoneUp(last, k.upHost, k.id, LastAt(from, more, k.id), k.upAt, k.upNow);
  }

  /** With control off a lone finger pans the zoomed picture: the content under it stays under
      it. At the natural size nothing moves. */
  lemma LoneFingerPans(host: Host, s: State, id: nat, from: Point, at: Point)
    requires !host.active && s.mode == Single && s.touches == [Touch(id, from)] && host.view.scale > 0.0
    ensures var out := OnMove(host, s, id, at).1;
            if host.view.scale > 1.001 then
              |out| == 1 && out[0].SetView? && out[0].view.scale == host.view.scale
              && ContentAt(out[0].view, host.center, at) == ContentAt(host.view, host.center, from)
            else out == []
  {
    assert s.touches[0].id == id;
  }

  // Two fingers

  /** Two fingers are down whose gesture means nothing yet. */
  ghost predicate Undecided(n: Net, a: nat, b: nat, mid0: Point, spread0: real, since: int) {
    && n.active && n.state.mode == Gesture && n.state.held.None? && |n.state.touches| == 2
    && n.state.touches[0].id == a && n.state.touches[1].id == b && a != b
    && n.state.pair.kind == Pending && !n.state.pair.moved && n.state.pair.startAt == since
    && n.state.pair.mid0 == mid0 && n.state.pair.spread0 == spread0
  }

  /** Moves of the pair that take neither its midpoint nor its spread more than 4 px from where
      they were: fingers wobble on glass. */
  ghost predicate Wobbles(n: Net, moments: seq<Moment>, mid0: Point, spread0: real)
    decreases |moments|
  {
    moments == [] ||
    (Inv(n.state, n.active) && Possible(n, moments[0]) && moments[0].At? && moments[0].event.Move?
     && var host, next := moments[0].host, Next(n, moments[0]);
     && |next.state.touches| == 2 && host.distance(Mid(next.state.touches), mid0) <= 4.0
     && -4.0 <= Spread(host, next.state.touches) - spread0 <= 4.0
     && Wobbles(next, moments[1..], mid0, spread0))
  }

  lemma WobbleStep(n: Net, m: Moment, a: nat, b: nat, mid0: Point, spread0: real, since: int)
    requires Inv(n.state, n.active) && Possible(n, m) && Undecided(n, a, b, mid0, spread0, since)
    requires m.At? && m.event.Move? && Wobbles(n, [m], mid0, spread0)
    ensures Undecided(Next(n, m), a, b, mid0, spread0, since) && Next(n, m).log == n.log
  {
    PlaceShape(n.state.touches, m.event.id, m.event.at);
  }

  lemma {:induction false} WobbleStays(n: Net, moments: seq<Moment>, end: Net, a: nat, b: nat, mid0: Point,
      spread0: real, since: int)
    requires Runs(n, moments, end) && Wobbles(n, moments, mid0, spread0) && Undecided(n, a, b, mid0, spread0, since)
    ensures Undecided(end, a, b, mid0, spread0, since) && end.log == n.log
    decreases |moments|
  {
    if moments == [] {
    } else {
      assert [moments[0]][1..] == [];
      WobbleStep(n, moments[0], a, b, mid0, spread0, since);
      WobbleStays(Next(n, moments[0]), moments[1..], end, a, b, mid0, spread0, since);
    }
  }

  lemma SecondDown(n: Net, host: Host, a: nat, from: Point, b: nat, at: Point, now: int)
    requires Inv(n.state, n.active) && Possible(n, At(host, Down(b, at, now))) && Lone(n, a, from)
    ensures var next, both := Next(n, At(host, Down(b, at, now))), [Touch(a, from), Touch(b, at)];
            && Undecided(next, a, b, Mid(both), Spread(host, both), now)
            && next.log == n.log + (if n.state.held.Some? then [Release(n.state.held.value)] else []) + [GestureBegan]
  {
    assert n.state.touches[0].id == a;
    PlaceShape(n.state.touches, b, at);
  }

  lemma FirstUp(n: Net, host: Host, a: nat, b: nat, mid0: Point, spread0: real, since: int, up: nat, at: Point,
      now: int) returns (rest: Point)
    requires Inv(n.state, n.active) && Possible(n, At(host, Up(up, at, now)))
    requires Undecided(n, a, b, mid0, spread0, since) && (up == a || up == b)
    ensures var next := Next(n, At(host, Up(up, at, now)));
            && next.log == n.log + (if now - since < 300 then [Press(2), Release(2)] else [])
            && Lone(next, if up == a then b else a, rest) && Spent(next.state)
  {
    var i := if up == a then 0 else 1;
    assert n.state.touches[i].id == up;
    WithoutShape(n.state.touches, up);
    var next := Next(n, At(host, Up(up, at, now)));
    assert n.state.touches == [n.state.touches[0], n.state.touches[1]];
    assert next.state.touches == [n.state.touches[1 - i]];
    rest := next.state.touches[0].at;
  }

  /** Two fingers come down, wobble and go up one after the other: a right click exactly if the
      first is up within 300 ms of the second having come down. Nothing else is clicked, pressed
      or scrolled, but what the first finger held is let go. */
  lemma TwoFingerTap(n: Net, a: nat, from: Point, host: Host, b: nat, at: Point, since: int, paired: Net,
      wobble: seq<Moment>, upHost: Host, up: nat, upAt: Point, now: int, lastHost: Host, lastAt: Point, later: int,
      end: Net)
    requires Lone(n, a, from) && (up == a || up == b) && Runs(n, [At(host, Down(b, at, since))], paired)
    requires Wobbles(paired, wobble, Mid([Touch(a, from), Touch(b, at)]), Spread(host, [Touch(a, from), Touch(b, at)]))
    requires var first := At(upHost, Up(up, upAt, now));
             var last := At(lastHost, Up(if up == a then b else a, lastAt, later));
             Runs(paired, wobble + ([first] + [last]), end)
    ensures end.log == n.log + (if n.state.held.Some? then [Release(n.state.held.value)] else []) + [GestureBegan]
              + (if now - since < 300 then [Press(2), Release(2)] else [])
    ensures end.state.touches == [] && end.state.held.None?
  {
    var down, first := At(host, Down(b, at, since)), At(upHost, Up(up, upAt, now));
    var other := if up == a then b else a;
    var last := At(lastHost, Up(other, lastAt, later));
    var both := [Touch(a, from), Touch(b, at)];
    RunOne(n, down, paired);
    SecondDown(n, host, a, from, b, at, since);
    var still := RunSplit(paired, wobble, [first] + [last], end);
    WobbleStays(paired, wobble, still, a, b, Mid(both), Spread(host, both), since);
    var one := RunSplit(still, [first], [last], end);
    RunOne(still, first, one);
    var rest := FirstUp(still, upHost, a, b, Mid(both), Spread(host, both), since, up, upAt, now);
    RunOne(one, last, end);
    LoneUp(one, lastHost, other, rest, lastAt, later);
  }

  /** What a move makes of a gesture that means nothing yet: zoom, if the picture is zoomed and
      the fingers do more than wobble, or if they spread or close by more than 16 px and by more
      than the ratio; else, if the midpoint travels more than 12 px, scroll, or zoom too if
      control is off; else nothing. */
  lemma GestureDecides(host: Host, s: State, id: nat, at: Point)
    requires Inv(s, host.active) && s.mode == Gesture && s.pair.kind == Pending && Tracked(s.touches, id)
    ensures var (after, out) := OnMove(host, s, id, at);
            && |after.touches| >= 2
            && var spread, travel := Spread(host, after.touches), host.distance(Mid(after.touches), s.pair.mid0);
            var change := if spread < s.pair.spread0 then s.pair.spread0 - spread else spread - s.pair.spread0;
            var pinched := change > 16.0 && host.stretches(spread, s.pair.spread0);
            var adjusts := s.pair.view0.scale > 1.001 && (travel > 4.0 || change > 4.0);
            && (after.pair.kind == Zoom <==> pinched || adjusts || (travel > 12.0 && !host.active))
            && (after.pair.kind == Scroll <==> !pinched && !adjusts && travel > 12.0 && host.active)
            && (after.pair.moved <==> s.pair.moved || after.pair.kind != Pending)
            && (after.pair.kind == Pending ==> out == [])
  {
    PlaceShape(s.touches, id, at);
  }

  /** Every moment finds two fingers or more down. */
  ghost predicate PairStays(n: Net, moments: seq<Moment>)
    decreases |moments|
  {
    |n.state.touches| >= 2 &&
    (moments == [] ||
     (Inv(n.state, n.active) && Possible(n, moments[0]) && PairStays(Next(n, moments[0]), moments[1..])))
  }

  predicate Means(kind: Kind, out: Out) {
    match out
    case SetView(_) => kind == Zoom
    case Wheel(_, _) => kind == Scroll
    case _ => false
  }

  lemma MeaningStep(n: Net, m: Moment)
    requires Inv(n.state, n.active) && Possible(n, m) && n.state.mode == Gesture && n.state.pair.kind != Pending
    requires |Next(n, m).state.touches| >= 2
    ensures Next(n, m).state.mode == Gesture && Next(n, m).state.pair.kind == n.state.pair.kind
    ensures n.log <= Next(n, m).log
    ensures forall i :: |n.log| <= i < |Next(n, m).log| ==> Means(n.state.pair.kind, Next(n, m).log[i])
  {
    if m.At? {
      match m.event
      case Down(id, at, _) => PlaceShape(n.state.touches, id, at);
      case Move(id, at) => PlaceShape(n.state.touches, id, at);
      case Up(id, _, _) => WithoutShape(n.state.touches, id);
      case Cancel(id) => WithoutShape(n.state.touches, id);
      case _ =>
    }
  }

  /** A gesture means one thing: while two fingers or more are down, a zoom never turns the wheel
      and a scroll never moves the picture, however fingers join and leave. */
  lemma {:induction false} GestureMeansOneThing(n: Net, moments: seq<Moment>, end: Net)
    requires Runs(n, moments, end) && PairStays(n, moments)
    requires n.state.mode == Gesture && n.state.pair.kind != Pending
    ensures end.state.pair.kind == n.state.pair.kind && n.log <= end.log
    ensures forall i :: |n.log| <= i < |end.log| ==> Means(n.state.pair.kind, end.log[i])
    decreases |moments|
  {
    if moments == [] {
    } else {
      MeaningStep(n, moments[0]);
      GestureMeansOneThing(Next(n, moments[0]), moments[1..], end);
    }
  }

  /** The gesture's last finger but one goes: a right click exactly as TwoFingerTap says, and a
      zoom that ends near the natural size goes home to it. */
  lemma GestureEnds(host: Host, s: State, id: nat, at: Point, now: int, o: Out)
    requires Inv(s, host.active) && s.mode == Gesture && |s.touches| == 2 && Tracked(s.touches, id)
    ensures o in OnUp(host, s, id, at, now).1 ==> o == Press(2) || o == Release(2) || o == SetView(View(1.0, 0.0, 0.0))
    ensures o.SetView? && o in OnUp(host, s, id, at, now).1 ==> s.pair.kind == Zoom && host.view.scale < 1.02
    ensures s.pair.kind == Zoom && host.view.scale < 1.02 ==>
      SetView(View(1.0, 0.0, 0.0)) in OnUp(host, s, id, at, now).1
    ensures Press(2) in OnUp(host, s, id, at, now).1 <==>
      s.pair.kind == Pending && !s.pair.moved && now - s.pair.startAt < 300 && host.active
  {
    WithoutShape(s.touches, id);
  }

  /** The midpoint is as far from the one finger as from the other, on each axis; the spread is
      their distance, or 1 if they are closer. */
  lemma PairMeasures(host: Host, touches: seq<Touch>)
    requires |touches| >= 2
    ensures var a, b, mid, spread := touches[0].at, touches[1].at, Mid(touches), Spread(host, touches);
            && mid.x - a.x == b.x - mid.x && mid.y - a.y == b.y - mid.y
            && (host.distance(a, b) >= 1.0 ==> spread == host.distance(a, b))
            && (host.distance(a, b) < 1.0 ==> spread == 1.0)
  {
  }

  /** A scroll sends whole lines as soon as there are any on either axis, against the fingers'
      way and never more than they went; what is left over goes the same way. */
  lemma ScrollSendsWholeLines(pair: Pair, mid: Point)
    ensures var x, y := pair.acc.x + (mid.x - pair.last.x), pair.acc.y + (mid.y - pair.last.y);
            var (after, out) := ScrollTo(pair, mid);
            && (out != [] <==> x >= 28.0 || x <= -28.0 || y >= 28.0 || y <= -28.0)
            && |out| <= 1 && (out != [] ==> out[0].Wheel?)
            && WholeLines(x, if out == [] then 0 else -out[0].linesX, after.acc.x)
            && WholeLines(y, if out == [] then 0 else -out[0].linesY, after.acc.y)
  {
    TruncTowardZero(pair.acc.x + (mid.x - pair.last.x));
    TruncTowardZero(pair.acc.y + (mid.y - pair.last.y));
  }

  /** So many whole lines are in this travel, and so much is left. */
  ghost predicate WholeLines(travel: real, lines: int, left: real) {
    && travel == 28.0 * lines as real + left
    && (travel >= 0.0 ==> lines >= 0 && 0.0 <= left < 28.0)
    && (travel <= 0.0 ==> lines <= 0 && -28.0 < left <= 0.0)
  }

  lemma TruncTowardZero(travel: real)
    ensures var lines := Trunc(travel / 28.0);
            && WholeLines(travel, lines, travel - lines as real * 28.0)
            && (lines == 0 <==> -28.0 < travel < 28.0)
  {
  }
}
