/**
 * Single-pointer touch-gesture state machine of the mpv Android player
 * (class TouchGestures). Pointer events (Down / Move / Up) are turned into
 * abstract property-change notifications for an observer; the engine never
 * issues player commands itself.
 *
 * The module has two layers:
 *  - value-level step functions (MetricsStep, SyncedEngine, TapStep,
 *    MovementStep, TouchStep) over an `Engine` record holding every field of
 *    the class; their contracts state what one call does;
 *  - the class `TouchGestures`, whose methods update its fields in place and
 *    are proved to agree with the step functions.
 */
module Gestures {

  datatype Option<T> = None | Some(value: T)

  /** What is sent to the observer (enum PropertyChange). */
  datatype PropertyChange =
    | Init | Seek | Volume | Bright | Finalize
    | SeekFixed | PlayPause | Custom          // tap gestures
    | CustomArea                              // custom area gesture

  /** One observer callback: the kind of change and its float argument. */
  type Notification = (PropertyChange, real)

  /** The private gesture state (enum TouchGestures.State). */
  datatype State = Up | Down | ControlSeek | ControlVolume | ControlBright | CustomArea

  /** A 32-bit float as far as the engine looks at it: a finite value or one of the non-finite ones. */
  datatype Float = Num(v: real) | PosInf | NegInf | NaN

  /** The pointer actions the engine distinguishes; every other action code is `ActionOther`. */
  datatype Action = ActionDown | ActionUp | ActionMove | ActionOther

  /** The part of a MotionEvent the engine reads. */
  datatype MotionEvent = MotionEvent(action: Action, x: Float, y: Float)

  datatype Point = Point(x: real, y: real)

  // Constants of the companion object.
  const TRIGGER_RATE: real := 30.0
  const TAP_DURATION: int := 300
  const CONTROL_SEEK_MAX: real := 150.0
  const CONTROL_VOLUME_MAX: real := 1.5
  const CONTROL_BRIGHT_MAX: real := 1.5
  const CUSTOM_AREA_SCALE: real := 100.0
  const DEADZONE: real := 5.0
  const CUSTOM_AREA_TOP: real := 0.05
  const CUSTOM_AREA_BOTTOM: real := 0.75
  const TAP_LEFT_EDGE: real := 0.28
  const TAP_RIGHT_EDGE: real := 0.72

  /** Every field of the class, as one value. */
  datatype Engine = Engine(
    state: State,
    stateDirection: int,
    lastTapTime: int,
    lastDownTime: int,
    initialPos: Point,
    lastPos: Point,
    width: real,
    height: real,
    trigger: real,
    gestureHoriz: State,
    gestureVertLeft: State,
    gestureVertRight: State,
    tapGestureLeft: Option<PropertyChange>,
    tapGestureCenter: Option<PropertyChange>,
    tapGestureRight: Option<PropertyChange>)

  /** Result of one step: the new fields, the Boolean the source returns, the notifications sent. */
  datatype Step = Step(e: Engine, handled: bool, sent: seq<Notification>)

  /** The field values right after construction. */
  const Initial: Engine := Engine(Up, 0, 0, 0, Point(0.0, 0.0), Point(0.0, 0.0), 0.0, 0.0, 0.0,
                                  Down, Down, Down, None, None, None)

  // ---------------------------------------------------------------------------
  // Pure helpers

  /** checkFloat: none of the values is infinite or NaN. */
  function CheckFloat(ns: seq<Float>): (ok: bool)
    ensures ok <==> forall i :: 0 <= i < |ns| ==> ns[i].Num?
  {
    if ns == [] then true
    else if ns[0].PosInf? || ns[0].NegInf? || ns[0].NaN? then false
    else CheckFloat(ns[1..])
  }

  function Min(a: real, b: real): real { if a <= b then a else b }

  function Abs(a: real): real { if a < 0.0 then -a else a }

  function Dist2(a: Point, b: Point): real {
    (a.x - b.x) * (a.x - b.x) + (a.y - b.y) * (a.y - b.y)
  }

  /** `PointF(a - b).length() < t`, stated without a square root. */
  predicate ShorterThan(a: Point, b: Point, t: real) {
    t > 0.0 && Dist2(a, b) < t * t
  }

  /** `PointF(a - b).length() > t`, stated without a square root. */
  predicate LongerThan(a: Point, b: Point, t: real) {
    t < 0.0 || Dist2(a, b) > t * t
  }

  /** The values a drag binding can take after a settings sync: a control state, or Down for "unbound". */
  predicate IsDragBinding(s: State) {
    s == Down || s == ControlSeek || s == ControlVolume || s == ControlBright
  }

  /** The values a tap binding can take after a settings sync: a tap action, or null for "unbound". */
  predicate IsTapBinding(t: Option<PropertyChange>) {
    t == None || t == Some(SeekFixed) || t == Some(PlayPause) || t == Some(Custom)
  }

  /** The states in which a gesture has committed to a control. */
  predicate Committed(s: State) {
    s == ControlSeek || s == ControlVolume || s == ControlBright || s == State.CustomArea
  }

  /** The notification kind a committed state emits on each move. */
  function DeltaKind(s: State): PropertyChange
    requires Committed(s)
  {
    match s
    case ControlSeek => Seek
    case ControlVolume => Volume
    case ControlBright => Bright
    case CustomArea => PropertyChange.CustomArea
  }

  /** The factor a committed state applies to the normalised offset. */
  function DeltaScale(s: State): real
    requires Committed(s)
  {
    match s
    case ControlSeek => CONTROL_SEEK_MAX
    case ControlVolume => CONTROL_VOLUME_MAX
    case ControlBright => CONTROL_BRIGHT_MAX
    case CustomArea => CUSTOM_AREA_SCALE
  }

  /** The object invariant the class keeps: trigger follows the metrics, bindings come from the tables. */
  predicate ValidEngine(g: Engine) {
    && g.trigger == Min(g.width, g.height) / TRIGGER_RATE
    && (g.stateDirection == 0 || g.stateDirection == 1)
    && IsDragBinding(g.gestureHoriz)
    && IsDragBinding(g.gestureVertLeft)
    && IsDragBinding(g.gestureVertRight)
    && IsTapBinding(g.tapGestureLeft)
    && IsTapBinding(g.tapGestureCenter)
    && IsTapBinding(g.tapGestureRight)
  }

  /** True when the two engines agree on everything but the six gesture bindings. */
  predicate SameExceptBindings(g: Engine, h: Engine) {
    h == g.(gestureHoriz := h.gestureHoriz, gestureVertLeft := h.gestureVertLeft,
            gestureVertRight := h.gestureVertRight, tapGestureLeft := h.tapGestureLeft,
            tapGestureCenter := h.tapGestureCenter, tapGestureRight := h.tapGestureRight)
  }

  /** True when the two engines have the same metrics and bindings. */
  predicate SameConfig(g: Engine, h: Engine) {
    && g.width == h.width && g.height == h.height && g.trigger == h.trigger
    && g.gestureHoriz == h.gestureHoriz && g.gestureVertLeft == h.gestureVertLeft
    && g.gestureVertRight == h.gestureVertRight && g.tapGestureLeft == h.tapGestureLeft
    && g.tapGestureCenter == h.tapGestureCenter && g.tapGestureRight == h.tapGestureRight
  }

  // ---------------------------------------------------------------------------
  // setMetrics

  /** setMetrics: throws (None) on a non-finite dimension; otherwise stores the metrics and the trigger. */
  function MetricsStep(g: Engine, width: Float, height: Float): (r: Option<Engine>)
    ensures r.None? <==> !(width.Num? && height.Num?)
    ensures r.Some? ==> && r.value.width == width.v && r.value.height == height.v
                        && r.value.trigger * TRIGGER_RATE == Min(width.v, height.v)
                        && r.value == g.(width := r.value.width, height := r.value.height,
                                         trigger := r.value.trigger)
    ensures r.Some? && ValidEngine(g) ==> ValidEngine(r.value)
  {
    if !CheckFloat([width, height]) then None
    else
      assert [width, height][0].Num? && [width, height][1].Num?;
      Some(g.(width := width.v, height := height.v,
                 trigger := Min(width.v, height.v) / TRIGGER_RATE))
  }

  // ---------------------------------------------------------------------------
  // syncSettings

  /** The keys syncSettings reads. */
  const GESTURE_HORIZ := "gesture_horiz"
  const GESTURE_VERT_LEFT := "gesture_vert_left"
  const GESTURE_VERT_RIGHT := "gesture_vert_right"
  const GESTURE_TAP_LEFT := "gesture_tap_left"
  const GESTURE_TAP_CENTER := "gesture_tap_center"
  const GESTURE_TAP_RIGHT := "gesture_tap_right"

  predicate HasDefaults(defaults: map<string, string>) {
    && GESTURE_HORIZ in defaults && GESTURE_VERT_LEFT in defaults && GESTURE_VERT_RIGHT in defaults
    && GESTURE_TAP_LEFT in defaults && GESTURE_TAP_CENTER in defaults && GESTURE_TAP_RIGHT in defaults
  }

  /** Drag-value table (`map`). */
  const DRAG_TABLE: map<string, State> :=
    map["bright" := ControlBright, "seek" := ControlSeek, "volume" := ControlVolume]

  /** Tap-value table (`map2`). */
  const TAP_TABLE: map<string, PropertyChange> :=
    map["seek" := SeekFixed, "playpause" := PlayPause, "custom" := Custom]

  /** The local `get`: the stored string, or the default resource when it is absent or empty. */
  function Pref(prefs: map<string, string>, defaults: map<string, string>, key: string): (v: string)
    requires key in defaults
    ensures key in prefs && prefs[key] != "" ==> v == prefs[key]
    ensures key !in prefs || prefs[key] == "" ==> v == defaults[key]
  {
    if key in prefs && prefs[key] != "" then prefs[key] else defaults[key]
  }

  /** `map[v] ?: State.Down`. */
  function DragBinding(v: string): (s: State)
    ensures IsDragBinding(s)
    ensures s == ControlBright <==> v == "bright"
    ensures s == ControlSeek <==> v == "seek"
    ensures s == ControlVolume <==> v == "volume"
  {
    if v in DRAG_TABLE then DRAG_TABLE[v] else Down
  }

  /** `map2[v]`, null when the value is not in the table. */
  function TapBinding(v: string): (t: Option<PropertyChange>)
    ensures IsTapBinding(t)
    ensures t == Some(SeekFixed) <==> v == "seek"
    ensures t == Some(PlayPause) <==> v == "playpause"
    ensures t == Some(Custom) <==> v == "custom"
    ensures t.None? <==> v != "seek" && v != "playpause" && v != "custom"
  {
    if v in TAP_TABLE then Some(TAP_TABLE[v]) else None
  }

  /** syncSettings: resolves all six bindings and touches nothing else. */
  function SyncedEngine(g: Engine, prefs: map<string, string>, defaults: map<string, string>): (r: Engine)
    requires HasDefaults(defaults)
    ensures SameExceptBindings(g, r)
    ensures r.gestureHoriz == DragBinding(Pref(prefs, defaults, GESTURE_HORIZ))
    ensures r.gestureVertLeft == DragBinding(Pref(prefs, defaults, GESTURE_VERT_LEFT))
    ensures r.gestureVertRight == DragBinding(Pref(prefs, defaults, GESTURE_VERT_RIGHT))
    ensures r.tapGestureLeft == TapBinding(Pref(prefs, defaults, GESTURE_TAP_LEFT))
    ensures r.tapGestureCenter == TapBinding(Pref(prefs, defaults, GESTURE_TAP_CENTER))
    ensures r.tapGestureRight == TapBinding(Pref(prefs, defaults, GESTURE_TAP_RIGHT))
    ensures ValidEngine(g) ==> ValidEngine(r)
  {
    g.(gestureHoriz := DragBinding(Pref(prefs, defaults, GESTURE_HORIZ)),
       gestureVertLeft := DragBinding(Pref(prefs, defaults, GESTURE_VERT_LEFT)),
       gestureVertRight := DragBinding(Pref(prefs, defaults, GESTURE_VERT_RIGHT)),
       tapGestureLeft := TapBinding(Pref(prefs, defaults, GESTURE_TAP_LEFT)),
       tapGestureCenter := TapBinding(Pref(prefs, defaults, GESTURE_TAP_CENTER)),
       tapGestureRight := TapBinding(Pref(prefs, defaults, GESTURE_TAP_RIGHT)))
  }

  // ---------------------------------------------------------------------------
  // processTap

  /** The tap binding of the column `x` falls in, and the value it is sent with. */
  function TapZone(g: Engine, x: real): (z: (Option<PropertyChange>, real))
    ensures z.1 == -1.0 <==> x <= g.width * TAP_LEFT_EDGE
    ensures z.1 == 1.0 <==> x > g.width * TAP_LEFT_EDGE && x >= g.width * TAP_RIGHT_EDGE
    ensures z.1 == 0.0 <==> g.width * TAP_LEFT_EDGE < x < g.width * TAP_RIGHT_EDGE
    // the left column fires the left binding, the right column the right one, the middle the center one
    ensures z.0 == (if z.1 == -1.0 then g.tapGestureLeft
                    else if z.1 == 1.0 then g.tapGestureRight
                    else g.tapGestureCenter)
  {
    if x <= g.width * TAP_LEFT_EDGE then (g.tapGestureLeft, -1.0)
    else if x >= g.width * TAP_RIGHT_EDGE then (g.tapGestureRight, 1.0)
    else (g.tapGestureCenter, 0.0)
  }

  /** processTap at time `now`. */
  function TapStep(g: Engine, p: Point, now: int): (r: Step)
    // never changes anything but the two timestamps, never sends more than one notification
    ensures r.e == g.(lastTapTime := r.e.lastTapTime, lastDownTime := r.e.lastDownTime)
    ensures |r.sent| <= 1
    // a press after a release: record the press time; invalidate the double tap if it moved away
    ensures g.state == Up ==>
      && r.handled && r.sent == [] && r.e.lastDownTime == now
      && r.e.lastTapTime == (if LongerThan(g.lastPos, p, g.trigger * 3.0) then 0 else g.lastTapTime)
    // only a press that committed to nothing can be a tap
    ensures g.state != Up && g.state != Down ==> r == Step(g, false, [])
    ensures g.state == Down ==> r.e.lastDownTime == g.lastDownTime
    // held too long: not a tap, and it cancels a pending double tap
    ensures g.state == Down && now - g.lastDownTime >= TAP_DURATION ==>
      r == Step(g.(lastTapTime := 0), false, [])
    // a quick tap outside the window of the previous one arms the window
    ensures g.state == Down && now - g.lastDownTime < TAP_DURATION && now - g.lastTapTime >= TAP_DURATION ==>
      r == Step(g.(lastTapTime := now), false, [])
    // a quick tap inside the window: fire the column's binding, or disarm when it has none
    ensures g.state == Down && now - g.lastDownTime < TAP_DURATION && now - g.lastTapTime < TAP_DURATION ==>
      var (binding, value) := TapZone(g, p.x);
      if binding.Some? then r == Step(g, true, [(binding.value, value)])
      else r == Step(g.(lastTapTime := 0), false, [])
    // a notification is sent exactly when the source returns true from a pressed state
    ensures g.state == Down ==> (r.sent != [] <==> r.handled)
  {
    if g.state == Up then
      var lastTapTime := if LongerThan(g.lastPos, p, g.trigger * 3.0) then 0 else g.lastTapTime;
      Step(g.(lastDownTime := now, lastTapTime := lastTapTime), true, [])
    else if g.state != Down then
      Step(g, false, [])
    else if now - g.lastDownTime >= TAP_DURATION then
      Step(g.(lastTapTime := 0), false, [])
    else if now - g.lastTapTime < TAP_DURATION then
      var (binding, value) := TapZone(g, p.x);
      match binding
      case Some(k) => Step(g, true, [(k, value)])
      case None => Step(g.(lastTapTime := 0), false, [])
    else
      Step(g.(lastTapTime := now), false, [])
  }

  // ---------------------------------------------------------------------------
  // processMovement

  /** The move is closer than a third of the trigger to the last processed point. */
  predicate Throttled(g: Engine, p: Point) {
    ShorterThan(g.lastPos, p, g.trigger / 3.0)
  }

  /** The press started inside the custom band. */
  predicate InCustomBand(g: Engine)
    requires g.height != 0.0
  {
    var yRatio := g.initialPos.y / g.height;
    CUSTOM_AREA_TOP <= yRatio <= CUSTOM_AREA_BOTTOM
  }

  /** The normalised offset of `p` from the press point, on the axis `stateDirection` selects. */
  function Offset(g: Engine, p: Point): real
    requires g.width != 0.0 && g.height != 0.0
  {
    if g.stateDirection == 0 then (p.x - g.initialPos.x) / g.width
    else -(p.y - g.initialPos.y) / g.height
  }

  /** The control a press commits to (Down: none yet), and the axis it locks, outside the custom band. */
  function DragTarget(g: Engine, p: Point): (State, int) {
    if Abs(p.x - g.initialPos.x) > g.trigger then (g.gestureHoriz, 0)
    else if Abs(p.y - g.initialPos.y) > g.trigger then
      (if g.initialPos.x > g.width / 2.0 then g.gestureVertRight else g.gestureVertLeft, 1)
    else (Down, g.stateDirection)
  }

  /** processMovement; the caller has checked that both metrics are at least 1. */
  function MovementStep(g: Engine, p: Point): (r: Step)
    requires g.width >= 1.0 && g.height >= 1.0
    // only the state, the axis and the last point can change
    ensures r.e == g.(state := r.e.state, stateDirection := r.e.stateDirection, lastPos := r.e.lastPos)
    // throttling: a short move is ignored altogether
    ensures Throttled(g, p) ==> r == Step(g, false, [])
    ensures !Throttled(g, p) ==> r.e.lastPos == p
    // an accepted move reports whether the gesture is now in a committed control
    ensures !Throttled(g, p) ==> (r.handled <==> r.e.state != Up && r.e.state != Down)
    // after a release nothing happens
    ensures g.state == Up ==> r.e.state == Up && r.sent == [] && r.e.stateDirection == g.stateDirection
    // from a press: commit once, send Init (twice in the custom band), never a control value
    ensures g.state == Down && !Throttled(g, p) && InCustomBand(g) ==>
      r.e.state == State.CustomArea && r.sent == [(Init, 0.0), (Init, 0.0)]
      && r.e.stateDirection == g.stateDirection
    ensures g.state == Down && !Throttled(g, p) && !InCustomBand(g) ==>
      && (r.e.state, r.e.stateDirection) == DragTarget(g, p)
      && r.sent == (if r.e.state == Down then [] else [(Init, 0.0)])
    // in a committed control: the state and axis stay, each accepted move sends one scaled value
    ensures Committed(g.state) ==> r.e.state == g.state && r.e.stateDirection == g.stateDirection
    ensures Committed(g.state) && !Throttled(g, p) ==>
      r.sent == [(DeltaKind(g.state), DeltaScale(g.state) * Offset(g, p))]
    ensures ValidEngine(g) ==> ValidEngine(r.e)
  {
    if Throttled(g, p) then Step(g, false, [])
    else
      var g1 := g.(lastPos := p);
      var dr := Offset(g, p);
      var (g2, sent) :=
        match g.state
        case Up => (g1, [])
        case Down =>
          if InCustomBand(g) then
            (g1.(state := State.CustomArea), [(Init, 0.0), (Init, 0.0)])
          else
            var (s, dir) := DragTarget(g, p);
            (g1.(state := s, stateDirection := dir), if s != Down then [(Init, 0.0)] else [])
        case CustomArea =>
          assert dr * CUSTOM_AREA_SCALE == DeltaScale(g.state) * dr;
          (g1, [(PropertyChange.CustomArea, dr * CUSTOM_AREA_SCALE)])
        case ControlSeek => (g1, [(Seek, CONTROL_SEEK_MAX * dr)])
        case ControlVolume => (g1, [(Volume, CONTROL_VOLUME_MAX * dr)])
        case ControlBright => (g1, [(Bright, CONTROL_BRIGHT_MAX * dr)]);
      Step(g2, g2.state != Up && g2.state != Down, sent)
  }

  // ---------------------------------------------------------------------------
  // onTouchEvent

  /** The press lands in the status-bar or navigation-bar deadzone. */
  predicate InDeadzone(g: Engine, y: real) {
    y < g.height * DEADZONE / 100.0 || y > g.height * (100.0 - DEADZONE) / 100.0
  }

  /** The guards of onTouchEvent: metrics set and a finite point. */
  predicate Accepts(g: Engine, ev: MotionEvent) {
    g.width >= 1.0 && g.height >= 1.0 && ev.x.Num? && ev.y.Num?
  }

  /** onTouchEvent at time `now`. */
  function TouchStep(g: Engine, ev: MotionEvent, now: int): (r: Step)
    // unset metrics, a non-finite point or an unknown action: rejected, nothing changes
    ensures !(g.width >= 1.0 && g.height >= 1.0) ==> r == Step(g, false, [])
    ensures !(ev.x.Num? && ev.y.Num?) ==> r == Step(g, false, [])
    ensures ev.action == ActionOther ==> r == Step(g, false, [])
    // metrics and bindings are never changed by an event
    ensures SameConfig(g, r.e)
    ensures ValidEngine(g) ==> ValidEngine(r.e)
  {
    if !(g.width >= 1.0 && g.height >= 1.0) then Step(g, false, [])
    else if !CheckFloat([ev.x, ev.y]) then Step(g, false, [])
    else
      assert [ev.x, ev.y][0].Num? && [ev.x, ev.y][1].Num?;
      var p := Point(ev.x.v, ev.y.v);
      match ev.action
      case ActionUp =>
        var m := MovementStep(g, p);
        var t := TapStep(m.e, p, now);
        var fin := if t.e.state != Down then [(Finalize, 0.0)] else [];
        Step(t.e.(state := Up), m.handled || t.handled, m.sent + t.sent + fin)
      case ActionDown =>
        if InDeadzone(g, p.y) then Step(g, false, [])
        else
          var t := TapStep(g.(initialPos := p), p, now);
          Step(t.e.(lastPos := p, state := Down), true, t.sent)
      case ActionMove =>
        MovementStep(g, p)
      case ActionOther =>
        Step(g, false, [])
  }

  // ---------------------------------------------------------------------------
  // The class

  /** The engine object; `sent` is what its observer has received so far. */
  class TouchGestures {
    var state: State
    var stateDirection: int
    var lastTapTime: int
    var lastDownTime: int
    var initialPos: Point
    var lastPos: Point
    var width: real
    var height: real
    var trigger: real
    var gestureHoriz: State
    var gestureVertLeft: State
    var gestureVertRight: State
    var tapGestureLeft: Option<PropertyChange>
    var tapGestureCenter: Option<PropertyChange>
    var tapGestureRight: Option<PropertyChange>
    var sent: seq<Notification>

    /** The fields as one value. */
    ghost function Fields(): Engine
      reads this
    {
      Engine(state, stateDirection, lastTapTime, lastDownTime, initialPos, lastPos,
             width, height, trigger, gestureHoriz, gestureVertLeft, gestureVertRight,
             tapGestureLeft, tapGestureCenter, tapGestureRight)
    }

    ghost predicate Valid()
      reads this
    {
      ValidEngine(Fields())
    }

    constructor ()
      ensures Valid() && Fields() == Initial && sent == []
    {
      state, stateDirection := Up, 0;
      lastTapTime, lastDownTime := 0, 0;
      initialPos, lastPos := Point(0.0, 0.0), Point(0.0, 0.0);
      width, height, trigger := 0.0, 0.0, 0.0;
      gestureHoriz, gestureVertLeft, gestureVertRight := Down, Down, Down;
      tapGestureLeft, tapGestureCenter, tapGestureRight := None, None, None;
      sent := [];
    }

    /** sendPropertyChange: hand one notification to the observer. */
    method SendPropertyChange(p: PropertyChange, diff: real)
      modifies this`sent
      ensures sent == old(sent) + [(p, diff)]
    {
      sent := sent + [(p, diff)];
    }

    /** setMetrics; `ok` is false where the source throws IllegalArgumentException. */
    method SetMetrics(w: Float, h: Float) returns (ok: bool)
      requires Valid()
      modifies this
      ensures Valid() && sent == old(sent)
      ensures ok == MetricsStep(old(Fields()), w, h).Some?
      ensures Fields() == if ok then MetricsStep(old(Fields()), w, h).value else old(Fields())
    {
      if !CheckFloat([w, h]) {
        return false;
      }
      assert [w, h][0].Num? && [w, h][1].Num?;
      width := w.v;
      height := h.v;
      trigger := Min(w.v, h.v) / TRIGGER_RATE;
      return true;
    }

    /** syncSettings, with the stored preferences and the default resources passed in as maps. */
    method SyncSettings(prefs: map<string, string>, defaults: map<string, string>)
      requires Valid() && HasDefaults(defaults)
      modifies this
      ensures Valid() && sent == old(sent)
      ensures Fields() == SyncedEngine(old(Fields()), prefs, defaults)
    {
      ghost var r := SyncedEngine(Fields(), prefs, defaults);
      var horiz := Pref(prefs, defaults, GESTURE_HORIZ);
      var vertLeft := Pref(prefs, defaults, GESTURE_VERT_LEFT);
      var vertRight := Pref(prefs, defaults, GESTURE_VERT_RIGHT);
      var tapLeft := Pref(prefs, defaults, GESTURE_TAP_LEFT);
      var tapCenter := Pref(prefs, defaults, GESTURE_TAP_CENTER);
      var tapRight := Pref(prefs, defaults, GESTURE_TAP_RIGHT);
      gestureHoriz := DragBinding(horiz);
      gestureVertLeft := DragBinding(vertLeft);
      gestureVertRight := DragBinding(vertRight);
      tapGestureLeft := TapBinding(tapLeft);
      tapGestureCenter := TapBinding(tapCenter);
      tapGestureRight := TapBinding(tapRight);
      assert Fields() == r;
    }

    /** processTap at time `now`. */
    method ProcessTap(p: Point, now: int) returns (handled: bool)
      modifies this
      ensures Fields() == TapStep(old(Fields()), p, now).e
      ensures sent == old(sent) + TapStep(old(Fields()), p, now).sent
      ensures handled == TapStep(old(Fields()), p, now).handled
    {
      if state == Up {
        lastDownTime := now;
        if LongerThan(lastPos, p, trigger * 3.0) {
          lastTapTime := 0;
        }
        return true;
      }
      if state != Down {
        return false;
      }
      if now - lastDownTime >= TAP_DURATION {
        lastTapTime := 0;
        return false;
      }
      if now - lastTapTime < TAP_DURATION {
        if p.x <= width * TAP_LEFT_EDGE {
          if tapGestureLeft.Some? {
            SendPropertyChange(tapGestureLeft.value, -1.0);
            return true;
          }
        } else if p.x >= width * TAP_RIGHT_EDGE {
          if tapGestureRight.Some? {
            SendPropertyChange(tapGestureRight.value, 1.0);
            return true;
          }
        } else {
          if tapGestureCenter.Some? {
            SendPropertyChange(tapGestureCenter.value, 0.0);
            return true;
          }
        }
        lastTapTime := 0;
      } else {
        lastTapTime := now;
      }
      return false;
    }

    /** processMovement; the caller has checked that both metrics are at least 1. */
    method ProcessMovement(p: Point) returns (handled: bool)
      requires width >= 1.0 && height >= 1.0
      modifies this
      ensures Fields() == MovementStep(old(Fields()), p).e
      ensures sent == old(sent) + MovementStep(old(Fields()), p).sent
      ensures handled == MovementStep(old(Fields()), p).handled
    {
      ghost var r := MovementStep(Fields(), p);
      if ShorterThan(lastPos, p, trigger / 3.0) {
        return false;
      }
      lastPos := p;
      var dx := p.x - initialPos.x;
      var dy := p.y - initialPos.y;
      var dr := if stateDirection == 0 then dx / width else -dy / height;
      match state {
        case Up =>
        case Down =>
          var yRatio := initialPos.y / height;
          if CUSTOM_AREA_TOP <= yRatio <= CUSTOM_AREA_BOTTOM {
            state := State.CustomArea;
            SendPropertyChange(Init, 0.0);
          } else if Abs(dx) > trigger {
            state := gestureHoriz;
            stateDirection := 0;
          } else if Abs(dy) > trigger {
            state := if initialPos.x > width / 2.0 then gestureVertRight else gestureVertLeft;
            stateDirection := 1;
          }
          if state != Down {
            SendPropertyChange(Init, 0.0);
          }
        case CustomArea =>
          SendPropertyChange(PropertyChange.CustomArea, dr * CUSTOM_AREA_SCALE);
        case ControlSeek =>
          SendPropertyChange(Seek, CONTROL_SEEK_MAX * dr);
        case ControlVolume =>
          SendPropertyChange(Volume, CONTROL_VOLUME_MAX * dr);
        case ControlBright =>
          SendPropertyChange(Bright, CONTROL_BRIGHT_MAX * dr);
      }
      assert Fields() == r.e && sent == old(sent) + r.sent;
      return state != Up && state != Down;
    }

    /**
     * onTouchEvent at time `now`. The new fields are those of TouchStep, so
     * Valid() is kept by TouchStep's own contract.
     */
    method OnTouchEvent(ev: MotionEvent, now: int) returns (handled: bool)
      modifies this
      ensures Fields() == TouchStep(old(Fields()), ev, now).e
      ensures sent == old(sent) + TouchStep(old(Fields()), ev, now).sent
      ensures handled == TouchStep(old(Fields()), ev, now).handled
    {
      if width < 1.0 || height < 1.0 {
        return false;
      }
      if !CheckFloat([ev.x, ev.y]) {
        return false;
      }
      assert [ev.x, ev.y][0].Num? && [ev.x, ev.y][1].Num?;
      var point := Point(ev.x.v, ev.y.v);
      handled := false;
      match ev.action {
        case ActionUp =>
          var moved := ProcessMovement(point);
          var tapped := ProcessTap(point, now);
          handled := moved || tapped;
          if state != Down {
            SendPropertyChange(Finalize, 0.0);
          }
          state := Up;
        case ActionDown =>
          if point.y < height * DEADZONE / 100.0 || point.y > height * (100.0 - DEADZONE) / 100.0 {
            return false;
          }
          initialPos := point;
          var _ := ProcessTap(point, now);
          lastPos := point;
          state := Down;
          handled := true;
        case ActionMove =>
          handled := ProcessMovement(point);
        case ActionOther =>
      }
    }
  }
}
