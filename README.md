# Touch gestures of the mpv Android player, in Dafny

This project models the single-pointer touch-gesture engine of the mpv
Android player, class `TouchGestures` in
`app/src/main/java/is/xyz/mpv/TouchGestures.kt`. The engine turns raw pointer
events (Down, Move, Up) into abstract property-change notifications (`Init`,
`Seek`, `Volume`, `Bright`, `Finalize`, `SeekFixed`, `PlayPause`, `Custom`,
`CustomArea`) for an observer. It never issues a player command itself.

The engine's parts:

- `setMetrics` stores the surface size and derives the trigger distance
  (the shorter side over 30).
- `syncSettings` resolves six gesture bindings from string settings through
  two fixed tables, falling back to default strings.
- `onTouchEvent` guards against unset metrics and non-finite points, drops a
  press in the top or bottom 5% deadzone, and dispatches to `processMovement`
  and `processTap`.
- `processMovement` throttles short moves and commits a press once, to the
  custom band, the horizontal binding or a vertical binding. After that it
  sends one scaled value per accepted move.
- `processTap` arms a double-tap window on a quick first tap. A second quick
  tap inside the window fires the left, center or right tap binding.

`touch_gestures.dfy` (module `Gestures`) holds the data model and two
layers:

- Pure step functions (`MetricsStep`, `SyncedEngine`, `TapStep`,
  `MovementStep`, `TouchStep`) over an `Engine` record of every field. Their
  contracts state what one call does.
- The class `TouchGestures`. Its fields are those of the source plus `sent`,
  the notifications the observer has received so far. Its methods update the
  fields in place and are proved to agree with the step functions.

`gesture_properties.dfy` (module `GestureProperties`) feeds sequences of
events through `Run` and proves properties of whole gestures:

- every control value follows an `Init` with no `Finalize` in between;
- a committed drag stays locked to its control;
- a settings sync in the middle of a drag changes nothing the observer sees
  before the next press;
- a double tap fires the column's binding, and a single tap fires nothing;
- a sideways drag sends `Init` and then scaled `Seek` values.

Modelling choices:

- Coordinates and metrics are `real`. A float read from an event or passed
  to `setMetrics` is a `Float`: a finite `Num` or one of `PosInf`, `NegInf`,
  `NaN`. This is the finiteness that `checkFloat` tests.
- `PointF.length() < t` is stated as `t > 0 && d² < t²`, and
  `length() > t` as `t < 0 || d² > t²`. Both are exact for every real `t`,
  with no square root.
- The clock reading `SystemClock.uptimeMillis()` is a parameter `now`.
- Stored preferences and default resources are `map<string, string>`
  parameters.
- The known quirks of the source are kept:
  - entering `CustomArea` sends `Init` twice;
  - `stateDirection` is never reset by a press;
  - a release sends `Finalize` whenever the state after `processMovement`
    is not `Down`, including a release with no press before it;
  - `processTap` returns true in state `Up`;
  - a press on an engine still in `Down` runs the tap logic of a release.
- In `TouchGestures.kt` a tap binding fires only on the second quick tap
  inside the window of the previous one (lines 108-118); a single tap fires
  nothing. The class has no frame-step or time-scrub modes and no
  accumulators.

## Model

| member | source | states |
|---|---|---|
| Gestures.CheckFloat | app/src/main/java/is/xyz/mpv/TouchGestures.kt:62-64 | true exactly when no value is infinite or NaN |
| Gestures.MetricsStep | app/src/main/java/is/xyz/mpv/TouchGestures.kt:66-75 | fails (the IllegalArgumentException) exactly on a non-finite width or height; otherwise stores both and a trigger with trigger·30 = min(width, height), changes nothing else and keeps the object invariant |
| Gestures.Pref | app/src/main/java/is/xyz/mpv/TouchGestures.kt:172-175 | the stored string when it is present and non-empty, the default otherwise |
| Gestures.DragBinding | app/src/main/java/is/xyz/mpv/TouchGestures.kt:177-181 | "bright", "seek" and "volume", and only those, give ControlBright, ControlSeek and ControlVolume; every other string gives the inert Down |
| Gestures.TapBinding | app/src/main/java/is/xyz/mpv/TouchGestures.kt:182-186 | "seek", "playpause" and "custom", and only those, give SeekFixed, PlayPause and Custom; every other string gives null |
| Gestures.SyncedEngine | app/src/main/java/is/xyz/mpv/TouchGestures.kt:171-194 | each of the six bindings is the table lookup of its resolved setting; nothing else changes (the state in particular); the object invariant is kept |
| Gestures.TapZone | app/src/main/java/is/xyz/mpv/TouchGestures.kt:108-114 | the value is -1 exactly left of 0.28·width (inclusive), +1 exactly from 0.72·width on, 0 exactly in between; the left column gives tapGestureLeft, the right column tapGestureRight, the middle tapGestureCenter |
| Gestures.TapStep | app/src/main/java/is/xyz/mpv/TouchGestures.kt:91-120 | only the two timestamps change and at most one notification is sent; in Up it records the press time, returns true and clears lastTapTime on a move beyond 3·trigger; in a committed state it does nothing and returns false; from Down a hold of 300 ms or more clears lastTapTime, a tap outside the window arms it, a tap inside it fires the column's binding or clears lastTapTime when there is none; from Down it returns true exactly when it sends |
| Gestures.MovementStep | app/src/main/java/is/xyz/mpv/TouchGestures.kt:122-165 | only state, axis and lastPos change; a move shorter than trigger/3 changes and sends nothing; an accepted move sets lastPos and returns true exactly when the new state is neither Up nor Down; from Up nothing happens; from Down in the band [0.05, 0.75] it enters CustomArea with Init twice, elsewhere it commits to the drag target with one Init exactly when it leaves Down; a committed state keeps state and axis and sends one value, its scale times the normalised offset; the object invariant is kept |
| Gestures.TouchStep | app/src/main/java/is/xyz/mpv/TouchGestures.kt:196-234 | unset metrics, a non-finite point or another action: returns false and changes nothing; metrics and bindings never change; the object invariant is kept |
| Gestures.TouchGestures.constructor | app/src/main/java/is/xyz/mpv/TouchGestures.kt:42-60 | the initial field values, the object invariant, nothing sent |
| Gestures.TouchGestures.SendPropertyChange | app/src/main/java/is/xyz/mpv/TouchGestures.kt:167-169 | appends one notification to what the observer has received |
| Gestures.TouchGestures.SetMetrics | app/src/main/java/is/xyz/mpv/TouchGestures.kt:70-75 | the new fields are MetricsStep's, and nothing changes where it fails; the invariant is kept |
| Gestures.TouchGestures.SyncSettings | app/src/main/java/is/xyz/mpv/TouchGestures.kt:171-194 | the new fields are SyncedEngine's; nothing is sent; the invariant is kept |
| Gestures.TouchGestures.ProcessTap | app/src/main/java/is/xyz/mpv/TouchGestures.kt:91-120 | new fields, notifications and answer are TapStep's |
| Gestures.TouchGestures.ProcessMovement | app/src/main/java/is/xyz/mpv/TouchGestures.kt:122-165 | new fields, notifications and answer are MovementStep's |
| Gestures.TouchGestures.OnTouchEvent | app/src/main/java/is/xyz/mpv/TouchGestures.kt:196-234 | new fields, notifications and answer are TouchStep's |
| GestureProperties.Run | app/src/main/java/is/xyz/mpv/TouchGestures.kt:196-234 | over any sequence of events, metrics and bindings never change and the object invariant is kept |
| GestureProperties.PressInDeadzoneRejected | app/src/main/java/is/xyz/mpv/TouchGestures.kt:217-220 | a press in the top or bottom 5% returns false and changes nothing |
| GestureProperties.PressStartsGesture | app/src/main/java/is/xyz/mpv/TouchGestures.kt:217-227 | any other press returns true, enters Down at the point and keeps the axis; after a release it records the press time, sends nothing and clears lastTapTime when the press is beyond 3·trigger of the last point; inside a committed control it sends nothing and leaves the times alone |
| GestureProperties.MoveIsMovement | app/src/main/java/is/xyz/mpv/TouchGestures.kt:229-231 | an accepted move is processMovement at the point |
| GestureProperties.ReleaseEndsGesture | app/src/main/java/is/xyz/mpv/TouchGestures.kt:210-215 | a release ends in Up, answers processMovement or processTap with both evaluated, and sends their notifications and then Finalize unless the state after processMovement is Down |
| GestureProperties.ReleaseWithoutPress | app/src/main/java/is/xyz/mpv/TouchGestures.kt:210-215 | a release in state Up returns true and sends exactly Finalize |
| GestureProperties.IgnoredWithoutMetrics | app/src/main/java/is/xyz/mpv/TouchGestures.kt:197-200 | with width or height below 1, no sequence of events changes anything or sends anything |
| GestureProperties.TapNeutral | app/src/main/java/is/xyz/mpv/TouchGestures.kt:91-120 | with bindings from the tables, processTap sends only tap actions, so it leaves the Init/Finalize reading unchanged |
| GestureProperties.MovementBracketed | app/src/main/java/is/xyz/mpv/TouchGestures.kt:131-162 | processMovement opens with Init when it commits and sends control values only while committed |
| GestureProperties.ReleaseBracketed | app/src/main/java/is/xyz/mpv/TouchGestures.kt:210-215 | a release sends no control value while no Init is open, given the engine's bracketing invariant |
| GestureProperties.TouchBracketed | app/src/main/java/is/xyz/mpv/TouchGestures.kt:196-234 | one event keeps the bracketing invariant |
| GestureProperties.RunBracketed | app/src/main/java/is/xyz/mpv/TouchGestures.kt:196-234 | any sequence of events keeps the bracketing invariant |
| GestureProperties.InitOpensEveryControl | app/src/main/java/is/xyz/mpv/TouchGestures.kt:133-161 | from any engine that keeps the object invariant and is not in a control gesture, every Seek, Volume, Bright or CustomArea value any sequence of events sends follows an Init with no Finalize in between |
| GestureProperties.InitOpensEveryControlFromStart | app/src/main/java/is/xyz/mpv/TouchGestures.kt:42-75 | after construction, setMetrics with finite dimensions and syncSettings, the engine has those metrics and is in Up, and every control value any sequence of events sends follows an Init with no Finalize in between |
| GestureProperties.DragStaysLocked | app/src/main/java/is/xyz/mpv/TouchGestures.kt:151-161 | moves never change a committed state, its axis or the press point; each sends at most one notification, always that control's kind |
| GestureProperties.BindingsUnusedUntilPress | app/src/main/java/is/xyz/mpv/TouchGestures.kt:131-162 | two engines differing only in bindings send the same notifications and answers while committed or released until the next press |
| GestureProperties.SyncWaitsForNextPress | app/src/main/java/is/xyz/mpv/TouchGestures.kt:171-194 | a settings sync during a drag or between gestures changes nothing the observer receives before the next press |
| GestureProperties.SamePointThrottled | app/src/main/java/is/xyz/mpv/TouchGestures.kt:123-124 | a move to the last point is throttled (lines 123-124), and a press there keeps the double-tap window (line 94) |
| GestureProperties.PressFromUp | app/src/main/java/is/xyz/mpv/TouchGestures.kt:217-227 | the complete new engine after an accepted press that follows a release |
| GestureProperties.ReleaseInPlace | app/src/main/java/is/xyz/mpv/TouchGestures.kt:210-215 | a release at the pressed point is processTap on the pressed state followed by Up |
| GestureProperties.FirstTapArms | app/src/main/java/is/xyz/mpv/TouchGestures.kt:116-118 | a quick first tap sends nothing, returns false on release and opens the window at the release time |
| GestureProperties.SecondTapFires | app/src/main/java/is/xyz/mpv/TouchGestures.kt:108-114 | a quick tap at the same point inside the window sends exactly the column's binding |
| GestureProperties.DoubleTap | app/src/main/java/is/xyz/mpv/TouchGestures.kt:91-120 | two quick taps at one point: the first sends nothing, the second sends exactly the column's tap binding with -1, 0 or +1 |
| GestureProperties.FarMoveNotThrottled | app/src/main/java/is/xyz/mpv/TouchGestures.kt:123-124 | a move beyond the trigger from the press point is never throttled |
| GestureProperties.PressThenSideways | app/src/main/java/is/xyz/mpv/TouchGestures.kt:139-148 | a press below the band and a move beyond the trigger sideways commit to the horizontal binding on the horizontal axis, with Init unless unbound |
| GestureProperties.HorizontalSeekDrag | app/src/main/java/is/xyz/mpv/TouchGestures.kt:154-155 | with seek on the horizontal axis, press, sideways move and a further move send exactly Init and then Seek with 150 times the horizontal offset over the width |

## Left out

- IEEE single-precision rounding: coordinates, metrics and products are exact reals, so the model says nothing about results that differ only by float rounding.
- The square root of `PointF.length()`: comparisons are stated on squared distances, which is exact for reals.
- 64-bit overflow of the millisecond clock differences: `now` and the timestamps are unbounded integers.
- `Log.w` diagnostics: they have no effect on state or notifications.
- Android `MotionEvent`, `SharedPreferences` and `Resources`: replaced by an event record and two maps. The default resources are assumed to exist for all six keys, as they are compiled into the app.
- `SystemClock.uptimeMillis()`: replaced by the parameter `now`.
- `PointF` aliasing: points are values. `lastPos.set(p)` and `initialPos.set(p)` copy coordinates in the source, so no aliasing is lost.
- A ClassCastException from `SharedPreferences.getString` on a non-string value: preferences are strings in the model.
- Gestures.TouchGestures.OnTouchEvent: it neither requires nor ensures `Valid()`; the kept invariant follows from its ensures together with TouchStep's contract.
- `TouchGesturesObserver.kt`: an interface and enum with no behaviour. Its `FrameScrubStart`, `FrameScrub` and `FrameScrubFinalize` values are used by no code in the engine.
- `MPVActivity.kt` is not part of this model: activity lifecycle, web overlay and command dispatch to a player component.
- `BackgroundPlaybackService.java` is not part of this model: foreground-service plumbing around native calls.
- `RealtimeBridge.kt` is not part of this model: JNI declarations with no visible body.
