/**
 * Properties of whole event sequences fed to the gesture engine: what the
 * observer receives over many calls of onTouchEvent, and how the state
 * machine behaves over a gesture rather than over a single event.
 */
module GestureProperties {
  import opened Gestures

  /** One call of onTouchEvent: the event and the clock reading it sees. */
  datatype Input = Input(ev: MotionEvent, now: int)

  /** Feed the events one after another; `sent` is everything the observer receives, `handled` the last answer. */
  function Run(g: Engine, inputs: seq<Input>): (r: Step)
    ensures SameConfig(g, r.e)
    ensures ValidEngine(g) ==> ValidEngine(r.e)
    decreases |inputs|
  {
    if inputs == [] then Step(g, false, [])
    else
      var s := TouchStep(g, inputs[0].ev, inputs[0].now);
      var rest := Run(s.e, inputs[1..]);
      Step(rest.e, rest.handled, s.sent + rest.sent)
  }

  // ---------------------------------------------------------------------------
  // One event, by action

  /** A press in the status-bar or navigation-bar deadzone is rejected and changes nothing. */
  lemma PressInDeadzoneRejected(g: Engine, ev: MotionEvent, now: int)
    requires Accepts(g, ev) && ev.action == ActionDown && InDeadzone(g, ev.y.v)
    ensures TouchStep(g, ev, now) == Step(g, false, [])
  {
  }

  /**
   * Any other press is handled and starts a gesture at the point. After a
   * release it records the press time and keeps the double-tap window only
   * when the press is near the last point; inside a committed control it
   * sends nothing and leaves the times alone.
   */
  lemma PressStartsGesture(g: Engine, ev: MotionEvent, now: int)
    requires Accepts(g, ev) && ev.action == ActionDown && !InDeadzone(g, ev.y.v)
    ensures var r := TouchStep(g, ev, now);
      var p := Point(ev.x.v, ev.y.v);
      && r.handled && r.e.state == Down && r.e.initialPos == p && r.e.lastPos == p
      && r.e.stateDirection == g.stateDirection
      && (g.state == Up ==>
            && r.e.lastDownTime == now && r.sent == []
            && r.e.lastTapTime == (if LongerThan(g.lastPos, p, g.trigger * 3.0) then 0 else g.lastTapTime))
      && (Committed(g.state) ==>
            r.sent == [] && r.e.lastTapTime == g.lastTapTime && r.e.lastDownTime == g.lastDownTime)
  {
  }

  /** An accepted move is processMovement at the event's point. */
  lemma MoveIsMovement(g: Engine, ev: MotionEvent, now: int)
    requires Accepts(g, ev) && ev.action == ActionMove
    ensures TouchStep(g, ev, now) == MovementStep(g, Point(ev.x.v, ev.y.v))
  {
  }

  /**
   * A release always ends in Up, evaluates both processMovement and
   * processTap, and sends Finalize unless the press was still uncommitted
   * after processMovement.
   */
  lemma ReleaseEndsGesture(g: Engine, ev: MotionEvent, now: int)
    requires Accepts(g, ev) && ev.action == ActionUp
    ensures var r := TouchStep(g, ev, now);
      var p := Point(ev.x.v, ev.y.v);
      var m := MovementStep(g, p);
      var t := TapStep(m.e, p, now);
      && r.e.state == Up
      && r.handled == (m.handled || t.handled)
      && r.sent == m.sent + t.sent + (if m.e.state != Down then [(Finalize, 0.0)] else [])
  {
  }

  /** A release with no press before it still reports handled and sends Finalize. */
  lemma ReleaseWithoutPress(g: Engine, ev: MotionEvent, now: int)
    requires Accepts(g, ev) && ev.action == ActionUp && g.state == Up
    ensures TouchStep(g, ev, now).handled && TouchStep(g, ev, now).sent == [(Finalize, 0.0)]
  {
    ReleaseEndsGesture(g, ev, now);
  }

  // ---------------------------------------------------------------------------
  // Until metrics are set, the engine ignores everything

  /** With a width or height below 1 every event is rejected, so no sequence of events changes or sends anything. */
  lemma {:induction false} IgnoredWithoutMetrics(g: Engine, inputs: seq<Input>)
    requires g.width < 1.0 || g.height < 1.0
    ensures Run(g, inputs).e == g && Run(g, inputs).sent == []
    decreases |inputs|
  {
    if inputs != [] {
      IgnoredWithoutMetrics(g, inputs[1..]);
    }
  }

  // ---------------------------------------------------------------------------
  // Init opens every control gesture

  predicate IsDelta(k: PropertyChange) {
    k == Seek || k == Volume || k == Bright || k == PropertyChange.CustomArea
  }

  /**
   * Reads the notifications left to right, with `open` telling whether an Init
   * has been sent since the last Finalize. None when a control value arrives
   * while no Init is open; otherwise whether an Init is open at the end.
   */
  function Bracket(open: bool, sent: seq<Notification>): Option<bool>
    decreases |sent|
  {
    if sent == [] then Some(open)
    else if IsDelta(sent[0].0) && !open then None
    else
      var open' := if sent[0].0 == Init then true else if sent[0].0 == Finalize then false else open;
      Bracket(open', sent[1..])
  }

  lemma {:induction false} BracketAppend(open: bool, a: seq<Notification>, b: seq<Notification>)
    ensures Bracket(open, a + b) ==
      match Bracket(open, a)
      case None => None
      case Some(o) => Bracket(o, b)
    decreases |a|
  {
    if a == [] {
      assert a + b == b;
    } else {
      assert (a + b)[0] == a[0];
      assert (a + b)[1..] == a[1..] + b;
      var open' := if a[0].0 == Init then true else if a[0].0 == Finalize then false else open;
      BracketAppend(open', a[1..], b);
    }
  }

  /** An Init is open whenever the engine is in a committed control. */
  predicate Bracketed(g: Engine, open: bool) {
    Committed(g.state) ==> open
  }

  /** A notification that is neither a control value nor Init nor Finalize leaves the reading unchanged. */
  lemma BracketNeutral(open: bool, n: Notification)
    requires n.0 == SeekFixed || n.0 == PlayPause || n.0 == Custom
    ensures Bracket(open, [n]) == Some(open)
  {
  }

  /** The notifications of a tap are tap actions only, so they leave the reading unchanged. */
  lemma TapNeutral(g: Engine, p: Point, now: int, open: bool)
    requires ValidEngine(g)
    ensures Bracket(open, TapStep(g, p, now).sent) == Some(open)
  {
    var t := TapStep(g, p, now);
    if t.sent != [] {
      assert t.sent == [t.sent[0]];
      BracketNeutral(open, t.sent[0]);
    }
  }

  /** processMovement keeps the invariant: it opens with Init on commit and sends values only once committed. */
  lemma MovementBracketed(g: Engine, p: Point, open: bool)
    requires g.width >= 1.0 && g.height >= 1.0
    requires Bracketed(g, open)
    ensures var m := MovementStep(g, p);
      Bracket(open, m.sent).Some? && Bracketed(m.e, Bracket(open, m.sent).value)
  {
  }

  /** A release keeps the invariant: it ends in Up, after a Finalize whenever a control was committed. */
  lemma ReleaseBracketed(g: Engine, p: Point, now: int, open: bool)
    requires ValidEngine(g) && g.width >= 1.0 && g.height >= 1.0 && Bracketed(g, open)
    ensures var m := MovementStep(g, p);
      var t := TapStep(m.e, p, now);
      var fin: seq<Notification> := if m.e.state != Down then [(Finalize, 0.0)] else [];
      Bracket(open, m.sent + t.sent + fin).Some?
  {
    var m := MovementStep(g, p);
    var t := TapStep(m.e, p, now);
    var fin: seq<Notification> := if m.e.state != Down then [(Finalize, 0.0)] else [];
    MovementBracketed(g, p, open);
    var o := Bracket(open, m.sent).value;
    TapNeutral(m.e, p, now, o);
    BracketAppend(open, m.sent, t.sent);
    BracketAppend(open, m.sent + t.sent, fin);
  }

  /** One event keeps the invariant: the notifications it sends are well bracketed given the ones before. */
  lemma TouchBracketed(g: Engine, open: bool, ev: MotionEvent, now: int)
    requires ValidEngine(g) && Bracketed(g, open)
    ensures var r := TouchStep(g, ev, now);
      Bracket(open, r.sent).Some? && Bracketed(r.e, Bracket(open, r.sent).value)
  {
    if Accepts(g, ev) {
      var p := Point(ev.x.v, ev.y.v);
      match ev.action
      case ActionUp =>
        ReleaseBracketed(g, p, now, open);
      case ActionDown =>
        if !InDeadzone(g, p.y) {
          TapNeutral(g.(initialPos := p), p, now, open);
        }
      case ActionMove =>
        MovementBracketed(g, p, open);
      case ActionOther =>
    }
  }

  /** Over any sequence of events the invariant is kept and no control value is sent without an open Init. */
  lemma {:induction false} RunBracketed(g: Engine, open: bool, inputs: seq<Input>)
    requires ValidEngine(g) && Bracketed(g, open)
    ensures var r := Run(g, inputs);
      Bracket(open, r.sent).Some? && Bracketed(r.e, Bracket(open, r.sent).value)
    decreases |inputs|
  {
    if inputs != [] {
      var s := TouchStep(g, inputs[0].ev, inputs[0].now);
      TouchBracketed(g, open, inputs[0].ev, inputs[0].now);
      var o := Bracket(open, s.sent).value;
      RunBracketed(s.e, o, inputs[1..]);
      BracketAppend(open, s.sent, Run(s.e, inputs[1..]).sent);
    }
  }

  /**
   * From any usable engine that is not inside a control gesture, every Seek,
   * Volume, Bright or CustomArea value follows an Init with no Finalize in
   * between.
   */
  lemma InitOpensEveryControl(g: Engine, inputs: seq<Input>)
    requires ValidEngine(g) && !Committed(g.state)
    ensures Bracket(false, Run(g, inputs).sent).Some?
  {
    RunBracketed(g, false, inputs);
  }

  /**
   * The same from construction on: after setMetrics with finite dimensions and
   * syncSettings, every control value sent by any sequence of events follows
   * an Init with no Finalize in between.
   */
  lemma InitOpensEveryControlFromStart(w: Float, h: Float, prefs: map<string, string>,
                                       defaults: map<string, string>, inputs: seq<Input>)
    requires w.Num? && h.Num? && HasDefaults(defaults)
    ensures var g := SyncedEngine(MetricsStep(Initial, w, h).value, prefs, defaults);
      g.width == w.v && g.height == h.v && g.state == Up
      && Bracket(false, Run(g, inputs).sent).Some?
  {
    var g := SyncedEngine(MetricsStep(Initial, w, h).value, prefs, defaults);
    InitOpensEveryControl(g, inputs);
  }

  // ---------------------------------------------------------------------------
  // A committed drag stays locked

  predicate AllMoves(inputs: seq<Input>) {
    forall i :: 0 <= i < |inputs| ==> inputs[i].ev.action == ActionMove
  }

  /** Moves never change a committed state or its axis, and every notification they send is that control's value. */
  lemma {:induction false} DragStaysLocked(g: Engine, inputs: seq<Input>)
    requires Committed(g.state) && AllMoves(inputs)
    ensures var r := Run(g, inputs);
      && r.e.state == g.state && r.e.stateDirection == g.stateDirection
      && r.e.initialPos == g.initialPos
      && |r.sent| <= |inputs|
      && forall i :: 0 <= i < |r.sent| ==> r.sent[i].0 == DeltaKind(g.state)
    decreases |inputs|
  {
    if inputs != [] {
      var s := TouchStep(g, inputs[0].ev, inputs[0].now);
      assert inputs[0].ev.action == ActionMove;
      DragStaysLocked(s.e, inputs[1..]);
    }
  }

  // ---------------------------------------------------------------------------
  // Settings changed during a gesture take effect at the next press

  predicate NoPress(inputs: seq<Input>) {
    forall i :: 0 <= i < |inputs| ==> inputs[i].ev.action != ActionDown
  }

  /** Two engines that differ only in their bindings behave alike while committed or released and no press comes. */
  lemma {:induction false} BindingsUnusedUntilPress(g: Engine, h: Engine, inputs: seq<Input>)
    requires Committed(g.state) || g.state == Up
    requires SameExceptBindings(g, h) && NoPress(inputs)
    ensures Run(g, inputs).sent == Run(h, inputs).sent
    ensures Run(g, inputs).handled == Run(h, inputs).handled
    ensures SameExceptBindings(Run(g, inputs).e, Run(h, inputs).e)
    decreases |inputs|
  {
    if inputs != [] {
      var sg := TouchStep(g, inputs[0].ev, inputs[0].now);
      var sh := TouchStep(h, inputs[0].ev, inputs[0].now);
      assert inputs[0].ev.action != ActionDown;
      assert sg.sent == sh.sent && SameExceptBindings(sg.e, sh.e);
      BindingsUnusedUntilPress(sg.e, sh.e, inputs[1..]);
    }
  }

  /** syncSettings in the middle of a drag, or between gestures, changes nothing the observer receives before the next press. */
  lemma SyncWaitsForNextPress(g: Engine, prefs: map<string, string>, defaults: map<string, string>, inputs: seq<Input>)
    requires HasDefaults(defaults)
    requires Committed(g.state) || g.state == Up
    requires NoPress(inputs)
    ensures Run(SyncedEngine(g, prefs, defaults), inputs).sent == Run(g, inputs).sent
  {
    BindingsUnusedUntilPress(SyncedEngine(g, prefs, defaults), g, inputs);
  }

  // ---------------------------------------------------------------------------
  // Taps

  function Press(x: real, y: real, now: int): Input { Input(MotionEvent(ActionDown, Num(x), Num(y)), now) }

  function Release(x: real, y: real, now: int): Input { Input(MotionEvent(ActionUp, Num(x), Num(y)), now) }

  function Drag(x: real, y: real, now: int): Input { Input(MotionEvent(ActionMove, Num(x), Num(y)), now) }

  /** What a tap at `x` fires once it completes a double tap: the column's binding and its value, if bound. */
  function TapNotifications(g: Engine, x: real): seq<Notification> {
    var (binding, value) := TapZone(g, x);
    match binding
    case Some(k) => [(k, value)]
    case None => []
  }

  /** The squared distance from a point to itself is below the square of any positive length. */
  lemma SelfWithin(p: Point, t: real)
    requires t > 0.0
    ensures Dist2(p, p) < t * t
  {
    calc {
      Dist2(p, p);
      == 0.0;
      < t * t;
    }
  }

  /** The squared distance from a point to itself exceeds the square of no length. */
  lemma SelfNotBeyond(p: Point, t: real)
    ensures Dist2(p, p) <= t * t
  {
    calc {
      Dist2(p, p);
      == 0.0;
      <= t * t;
    }
  }

  /** A point is never farther than any positive distance from itself. */
  lemma SamePointThrottled(g: Engine, p: Point)
    requires g.lastPos == p && g.trigger > 0.0
    ensures Throttled(g, p) && !LongerThan(g.lastPos, p, g.trigger * 3.0)
  {
    SelfWithin(p, g.trigger / 3.0);
    SelfNotBeyond(p, g.trigger * 3.0);
  }

  /** An accepted press after a release: the gesture starts at the point and the press time is recorded. */
  lemma PressFromUp(g: Engine, x: real, y: real, now: int)
    requires ValidEngine(g) && g.width >= 1.0 && g.height >= 1.0 && g.state == Up && !InDeadzone(g, y)
    ensures var p := Point(x, y);
      TouchStep(g, Press(x, y, now).ev, now)
      == Step(g.(state := Down, initialPos := p, lastPos := p, lastDownTime := now,
                 lastTapTime := if LongerThan(g.lastPos, p, g.trigger * 3.0) then 0 else g.lastTapTime),
              true, [])
  {
  }

  /** A release where the press landed: no movement, so it is processTap on the pressed state, then Up. */
  lemma ReleaseInPlace(g: Engine, x: real, y: real, now: int)
    requires ValidEngine(g) && g.width >= 1.0 && g.height >= 1.0 && g.state == Down
    requires g.lastPos == Point(x, y)
    ensures var t := TapStep(g, Point(x, y), now);
      TouchStep(g, Release(x, y, now).ev, now) == Step(t.e.(state := Up), t.handled, t.sent)
  {
    SamePointThrottled(g, Point(x, y));
  }

  /**
   * A quick first tap, not inside the window of an earlier tap: neither the
   * press nor the release sends anything, and the release opens the
   * double-tap window at its own time.
   */
  lemma FirstTapArms(g: Engine, x: real, y: real, t1: int, t2: int)
    requires ValidEngine(g) && g.state == Up && g.width >= 1.0 && g.height >= 1.0
    requires !InDeadzone(g, y)
    requires t1 <= t2 < t1 + TAP_DURATION && t2 >= TAP_DURATION && t2 - g.lastTapTime >= TAP_DURATION
    ensures var s1 := TouchStep(g, Press(x, y, t1).ev, t1);
      var s2 := TouchStep(s1.e, Release(x, y, t2).ev, t2);
      var p := Point(x, y);
      && s1.sent == [] && s2.sent == [] && !s2.handled
      && s2.e == g.(initialPos := p, lastPos := p, lastDownTime := t1, lastTapTime := t2)
  {
    PressFromUp(g, x, y, t1);
    var s1 := TouchStep(g, Press(x, y, t1).ev, t1);
    ReleaseInPlace(s1.e, x, y, t2);
  }

  /** A quick tap at the point of the previous one and inside its window sends the column's binding. */
  lemma SecondTapFires(g: Engine, x: real, y: real, t3: int, t4: int)
    requires ValidEngine(g) && g.state == Up && g.width >= 1.0 && g.height >= 1.0
    requires !InDeadzone(g, y) && g.lastPos == Point(x, y)
    requires t3 <= t4 < t3 + TAP_DURATION && t4 - g.lastTapTime < TAP_DURATION
    ensures var s3 := TouchStep(g, Press(x, y, t3).ev, t3);
      var s4 := TouchStep(s3.e, Release(x, y, t4).ev, t4);
      s3.sent == [] && s4.sent == TapNotifications(g, x) && s4.handled == (s4.sent != [])
  {
    var p := Point(x, y);
    SamePointThrottled(g, p);
    PressFromUp(g, x, y, t3);
    var s3 := TouchStep(g, Press(x, y, t3).ev, t3);
    assert s3.e == g.(state := Down, initialPos := p, lastDownTime := t3);
    ReleaseInPlace(s3.e, x, y, t4);
  }

  /**
   * Two quick taps at one point, fed one after another: the first only arms
   * the double-tap window and sends nothing; the second, inside the window,
   * sends the column's tap binding (-1 left, 0 center, +1 right) and nothing
   * else. A single tap never fires a binding.
   */
  lemma DoubleTap(g: Engine, x: real, y: real, t1: int, t2: int, t3: int, t4: int)
    requires ValidEngine(g) && g.state == Up && g.width >= 1.0 && g.height >= 1.0
    requires !InDeadzone(g, y)
    requires t1 <= t2 < t1 + TAP_DURATION && t2 >= TAP_DURATION && t2 - g.lastTapTime >= TAP_DURATION
    requires t3 <= t4 < t3 + TAP_DURATION && t4 < t2 + TAP_DURATION
    ensures var s1 := TouchStep(g, Press(x, y, t1).ev, t1);
      var s2 := TouchStep(s1.e, Release(x, y, t2).ev, t2);
      var s3 := TouchStep(s2.e, Press(x, y, t3).ev, t3);
      var s4 := TouchStep(s3.e, Release(x, y, t4).ev, t4);
      s1.sent + s2.sent == [] && s3.sent + s4.sent == TapNotifications(g, x)
  {
    FirstTapArms(g, x, y, t1, t2);
    var s1 := TouchStep(g, Press(x, y, t1).ev, t1);
    var s2 := TouchStep(s1.e, Release(x, y, t2).ev, t2);
    SecondTapFires(s2.e, x, y, t3, t4);
  }

  // ---------------------------------------------------------------------------
  // A horizontal seek drag

  /** A length beyond a positive bound has a square beyond the bound's square. */
  lemma SquareBeyond(d: real, t: real)
    requires Abs(d) > t > 0.0
    ensures d * d > t * t
  {
    calc {
      d * d;
      == Abs(d) * Abs(d);
      > t * Abs(d);
      > t * t;
    }
  }

  /** The squared distance is at least the square of the horizontal offset. */
  lemma HorizontalBelowDist2(a: Point, b: Point)
    ensures Dist2(a, b) >= (b.x - a.x) * (b.x - a.x)
  {
    var dy := a.y - b.y;
    assert dy * dy >= 0.0;
    calc {
      Dist2(a, b);
      == (a.x - b.x) * (a.x - b.x) + dy * dy;
      >= (a.x - b.x) * (a.x - b.x);
      == (b.x - a.x) * (b.x - a.x);
    }
  }

  /** A move more than the trigger away from the press along one axis is not throttled. */
  lemma FarMoveNotThrottled(g: Engine, p: Point)
    requires g.trigger > 0.0 && g.lastPos == g.initialPos
    requires Abs(p.x - g.initialPos.x) > g.trigger
    ensures !Throttled(g, p)
  {
    SquareBeyond(p.x - g.lastPos.x, g.trigger / 3.0);
    HorizontalBelowDist2(g.lastPos, p);
  }

  /** A value above `c` times a positive height has a ratio to the height above `c`. */
  lemma QuotientAbove(y: real, h: real, c: real)
    requires h > 0.0 && y > h * c
    ensures y / h > c
  {
    calc {
      y / h;
      == (y / h) * h / h;
      > (h * c) / h;
      == c;
    }
  }

  /**
   * A press below the custom band followed by a move more than the trigger
   * sideways commits to the horizontal binding on the horizontal axis and
   * sends Init, unless that binding is unset.
   */
  lemma PressThenSideways(g: Engine, x0: real, y0: real, x1: real, y1: real, t: int)
    requires ValidEngine(g) && g.width >= 1.0 && g.height >= 1.0 && g.state == Up
    requires !InDeadzone(g, y0) && y0 > g.height * CUSTOM_AREA_BOTTOM
    requires Abs(x1 - x0) > g.trigger
    ensures var s1 := TouchStep(g, Press(x0, y0, t).ev, t);
      var s2 := TouchStep(s1.e, Drag(x1, y1, t).ev, t);
      && s1.sent == []
      && s2.e.state == g.gestureHoriz && s2.e.stateDirection == 0
      && s2.e.initialPos == Point(x0, y0) && s2.e.lastPos == Point(x1, y1)
      && SameConfig(g, s2.e)
      && s2.sent == (if g.gestureHoriz == Down then [] else [(Init, 0.0)])
  {
    PressFromUp(g, x0, y0, t);
    var s1 := TouchStep(g, Press(x0, y0, t).ev, t);
    assert !InCustomBand(s1.e) by {
      QuotientAbove(y0, g.height, CUSTOM_AREA_BOTTOM);
    }
    FarMoveNotThrottled(s1.e, Point(x1, y1));
  }

  /**
   * A press below the custom band, a move more than the trigger sideways and a
   * further accepted move: with seek bound to the horizontal axis the observer
   * gets Init, then Seek with 150 times the horizontal offset over the width.
   */
  lemma HorizontalSeekDrag(g: Engine, x0: real, y0: real, x1: real, y1: real, x2: real, y2: real, t: int)
    requires ValidEngine(g) && g.width >= 1.0 && g.height >= 1.0 && g.state == Up
    requires g.gestureHoriz == ControlSeek
    requires !InDeadzone(g, y0) && y0 > g.height * CUSTOM_AREA_BOTTOM
    requires Abs(x1 - x0) > g.trigger
    requires !ShorterThan(Point(x1, y1), Point(x2, y2), g.trigger / 3.0)
    ensures var s1 := TouchStep(g, Press(x0, y0, t).ev, t);
      var s2 := TouchStep(s1.e, Drag(x1, y1, t).ev, t);
      var s3 := TouchStep(s2.e, Drag(x2, y2, t).ev, t);
      s1.sent + s2.sent + s3.sent == [(Init, 0.0), (Seek, CONTROL_SEEK_MAX * ((x2 - x0) / g.width))]
  {
    PressThenSideways(g, x0, y0, x1, y1, t);
  }
}
