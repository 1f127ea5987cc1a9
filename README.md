# Digital-Trackpad touch interpreter, modelled in Dafny

The desktop server of Digital-Trackpad (`app.py`) turns the raw touch
events a phone sends over a socket or over HTTP into mouse and keyboard
actions. This project models the core of that server, its
touch-to-intent interpreter:

- **The session store.** `touch_state` holds one record per connection. Each record holds one record per active touch id.
- **The gesture classifier.**
  - `process_raw_down` chains a double tap.
  - `process_raw_move` does the delta and travel bookkeeping. It then handles stale-hold recovery, hold-arm and move suppression. Finally it dispatches on the number of touches: one finger moves the cursor, two scroll, three run the latched task-view commands.
  - `process_raw_up` classifies a tap and cleans up.
  - The batch loops replay these three handlers in order.
- **The two process-wide accumulators.**
  - Motion: `process_move_delta`, with speed-based acceleration, rounding, the forced one-pixel step and the clamp to the virtual screen.
  - Scroll: the `/scroll` HTTP handler, the `scroll` socket handler and the two-finger path.
- **The recovery paths.** One pass of the hold watchdog, the disconnect reset, `force_release_all_holds`, and the `mousedown`/`mouseup` hold bookkeeping.
- **The key mapping** of `on_key` and `http_key`.

The HTTP routes `/raw`, `/key`, `/mousedown` and `/mouseup` run the same logic as their socket handlers, keyed by the caller's address instead of the socket id, so one model covers both.

The injector (pyautogui) becomes a log of `Action`s, one per call.
The wall clock becomes an explicit `now` in milliseconds: one reading per handler call, and one per event of a batch.

Layout, module by module:

- `Options`, `PyNum`: Python's `None`, `int()`, `round()`, `copysign`, `abs`, `min` and the cursor clamp.
- `PyDict`: an insertion-ordered dict, with `d[k] = v`, `del d[k]` and `{}`, plus the invariant of a walk that rewrites its values in place.
- `Injector`: the actions and step counts.
- `ScrollAccumulator`, `MotionAccumulator`: the two accumulators as functions.
- `Sessions`, `Gestures`: the records and every step of the classifier as functions of one record.
- `Keys`: the key lookup.
- `Server`: the whole interpreter as a `World` value, one function per handler.
- `ServerProperties`: the invariant every handler keeps, and the recovery properties.
- `Scenarios`: gestures played through the handlers, including behaviours of the code that look accidental but are reproduced as written.
- `Trackpad`: the process state as a class.
  - Fields: the store, the four accumulators, `_last_time`, the cursor and the log.
  - Every handler is a method that updates the fields step by step as the code does. Each is proved to end in the state the `Server` function describes and to keep the invariant.
  - The loops over `touches.values()` and `touch_state.items()` are `while` loops with their invariants.

Five behaviours of the code that may look unintended are reproduced as written:

- A disconnect resets the hold, the double-tap flags and the touches only. It keeps the three-finger latches and the right-click suppression (`Scenarios.DisconnectKeepsLatches`).
- The watchdog and the stale-hold check of a move ignore a hold whose press time is 0 (`Scenarios.HoldAtTimeZeroNeverExpires`).
- The stale-hold check of a move keeps `lastMouseDownSid`. The watchdog clears it.
- The socket `scroll` handler has no minimal horizontal step (`ScrollAccumulator.SocketHorizontalHasNoMinimalStep`).
- A two-finger move adds its scroll value to the accumulator even when that value is 0. A leftover fraction of 0.05 or more therefore scrolls a step, and can overshoot to the other side (`Scenarios.TwoFingerResidueScrolls`).

## Model

| member | source | states |
|---|---|---|
| PyNum.Trunc | app.py:276 | `int()` of a float truncates toward zero: the result is within one unit of the input, on the side of zero |
| PyNum.RoundHalfEven | app.py:420-421 | `round()` is within one half of its input, and a tie goes to the even integer |
| PyNum.UnitStep | app.py:283 | `copysign(1, x)` is one unit in the direction of `x` |
| PyNum.Clamp | app.py:439-440 | `max(lo, min(hi, v))` lies in `[lo, hi]`, is `v` when `v` is inside, `lo` below it and `hi` above it |
| PyNum.RoundIsZero | app.py:420-424 | rounding gives 0 exactly on `[-1/2, 1/2]` |
| PyDict.Dict.Set | app.py:488 | `d[k] = v` maps `k` to `v`; a new key goes last, an existing one keeps its place, and the order stays a list of the keys |
| PyDict.Dict.Del | app.py:669-670 | `del d[k]` removes exactly `k`, from the keys and from the order; on a missing key it changes nothing |
| PyDict.Dict.DelKeepsOrder | app.py:669-670 | `del d[k]` on a key at position `i` of a well-formed dict leaves the other keys exactly in their old order |
| PyDict.WithoutKeepsOrder | app.py:669-670 | removing the key at position `i` from a list without repeats gives the list with that one position cut out |
| PyDict.Empty | app.py:767 | `{}` is a well-formed dict with no key |
| Injector.OccurrencesAppend | app.py:603-614 | the count of an action in a concatenated log is the sum of the counts of the parts |
| ScrollAccumulator.WheelWithMinStep | app.py:272-285 | the steps issued plus the new accumulator equal the old accumulator plus the input; the new accumulator is below one step; no step is issued exactly when the total is below the 0.05 threshold; a step has the sign of the total; whole steps are truncated out, and otherwise at most one forced step is issued |
| ScrollAccumulator.WheelWholeStepsOnly | app.py:353-367 | the same conservation and bound; no step is issued exactly when the total is below one whole step; what is left keeps the sign of the total |
| ScrollAccumulator.WheelCall | app.py:277-278 | a wheel call requests exactly the computed steps on one axis, and none when the count is 0 |
| ScrollAccumulator.VerticalBlock | app.py:269-286 | the vertical block of both scroll handlers loses nothing, keeps a bounded accumulator bounded, does nothing on a zero input, and issues the truncated whole steps when there are any |
| ScrollAccumulator.ScrollHttp | app.py:269-301 | the `/scroll` handler loses nothing on either axis; at most two calls, none moves the cursor; accumulators that start below one step stay below it; an axis with zero input is untouched |
| ScrollAccumulator.ScrollSocket | app.py:333-367 | the same for the `scroll` socket handler |
| ScrollAccumulator.AppendSteps | app.py:434-440 | the net vertical and horizontal steps of a concatenated log add up, and a log without cursor moves stays without them |
| ScrollAccumulator.WheelRunLosesNothing | app.py:272-285 | over any non-empty run of inputs, the steps issued plus what is left equal the start plus everything fed in, and what is left is below one step |
| ScrollAccumulator.SocketHorizontalHasNoMinimalStep | app.py:350-367 | a horizontal input of 0.25 gives one step through HTTP and none through the socket |
| MotionAccumulator.SampleInterval | app.py:383-386 | the interval is 16 ms for the first sample and otherwise the elapsed time, never below 0.1 ms |
| MotionAccumulator.AccelMultiplier | app.py:402-408 | the multiplier is capped at 40; it is the base 0.2 at rest and at least the base when moving |
| MotionAccumulator.Acceleration | app.py:396-408 | given the numeric assumptions, the multiplier lies in `[BASE_SPEED_SCALE, ACCEL_CAP]` |
| MotionAccumulator.MotionAxis | app.py:416-432 | the applied step plus the new accumulator equal the old accumulator plus the delta; the accumulator stays below one pixel; no step exactly when the total is below 0.05; a step other than the rounded value is the forced unit step, taken only when rounding gives 0 |
| MotionAccumulator.MoveDelta | app.py:376-444 | `process_move_delta` records the sample time, loses nothing on either axis, keeps both accumulators below one pixel, and issues a move exactly when a step is applied; the move goes to the clamped target, which lies on the screen |
| MotionAccumulator.AxisRunLosesNothing | app.py:414-432 | no drift over any non-empty run of samples: the pixels applied differ from what was fed in by the final fraction alone, which is below one pixel |
| MotionAccumulator.ForcedStepOvershoots | app.py:420-432 | a forced step from 0.3 leaves -0.7, and a following zero delta steps back one pixel |
| Sessions.NewSession | app.py:469 | the record `setdefault` inserts satisfies the record invariant |
| Sessions.SessionOf | app.py:469 | `setdefault` hands back the stored record, or a fresh one for a new connection, and keeps the record invariant |
| Sessions.SumOverAbsNonNegative | app.py:570 | a sum of magnitudes is not negative |
| Sessions.SumOverZero | app.py:564-571 | a field that is zero on every touch sums to zero |
| Sessions.ZeroDeltaY | app.py:590-591 | consuming the pending vertical deltas keeps the keys and their order, zeroes every `lastDeltaY` and changes nothing else |
| Gestures.ChainTap | app.py:470-480 | a down clears the pending tap; it arms the hold, recording the down time, exactly when the pending tap is at most 200 ms old; it changes nothing else |
| Gestures.PlaceTouch | app.py:488-493 | the new touch record starts at the down position with zero travel, and counts the touches after its insertion |
| Gestures.Down | app.py:462-495 | `process_raw_down` is the double-tap chaining followed by the fresh touch record; it keeps the record invariant |
| Gestures.TrackMove | app.py:510-525 | a move of a known touch records the position and the delta, adds the travelled distance and sets the moved flag past 4; an unknown touch changes nothing and yields a zero delta |
| Gestures.MoveBookkeepingMonotone | app.py:513-525 | the bookkeeping keeps the record invariant; travel never shrinks, the moved flag is never cleared, and the start time is kept |
| Gestures.ReleaseStaleHold | app.py:527-535 | a hold older than 3000 ms gives one release and clears the hold and its press time; otherwise nothing happens |
| Gestures.ArmHold | app.py:537-548 | once the second tap has been held 200 ms, one press starts the hold with the press time and connection recorded, and stops waiting for the hold; otherwise nothing happens |
| Gestures.SuppressDeltas | app.py:550-555 | a suppressed move zeroes the pending deltas of its own touch and changes nothing else |
| Gestures.ScrollValueOpposesDrag | app.py:573-576 | the two-finger scroll goes against the mean drag, and a zero drag scrolls nothing |
| Gestures.ScrollValueMagnitude | app.py:573-576 | the scroll magnitude is the drag magnitude times the multiplier times the speed gain |
| Gestures.ScrollValueMonotone | app.py:574-576 | for the same drag, a faster one never scrolls less |
| Gestures.MeanSpeed | app.py:574 | the mean speed is not negative |
| Gestures.TwoFingerScroll | app.py:562-592 | the two-finger path makes at most one vertical wheel call and loses nothing; the accumulator stays below one step; every pending vertical delta is consumed and nothing else changes |
| Gestures.ThreeFingerSwipe | app.py:594-615 | the accumulator gains minus the mean travel since down; each latch is set once crossed and never cleared; Win+Tab or Escape is issued exactly when its latch goes from false to true |
| Gestures.SwipeFiresOnce | app.py:601-614 | however many swipes a contact makes, each command fires at most once, and not at all once latched |
| Gestures.TapButton | app.py:653-665 | one finger at down is a left click, two a right click, any other count a middle click |
| Gestures.TapClick | app.py:630-667 | a tap makes exactly one click, chosen by the touches at its down, and leaves the touches, the hold and the three-finger state alone; a non-tap does nothing |
| Gestures.ForgetTouch | app.py:668-674 | the touch is removed; with fewer than three left, the three-finger state is reset, otherwise kept |
| Gestures.ReleaseIdleHold | app.py:675-682 | a hold with no touch left is released and cleared, and otherwise nothing happens |
| Gestures.Up | app.py:620-684 | afterwards the touch is gone and the invariant kept. The end of a double tap gives one double click, clears the double-tap flags and returns early. Otherwise at most one click is made: a left click arms the double tap and a right click suppresses moves for 300 ms. The three-finger state is reset below three touches, and a release happens exactly when a hold was active and no touch is left |
| Gestures.DisconnectSession | app.py:755-767 | a release exactly when a hold was active; the touches are emptied, and the hold, press time, connection, expect and pending flags cleared |
| Gestures.ClearHoldFlags | app.py:791-797 | every hold and double-tap flag of a record is cleared, and nothing else changes |
| Gestures.WatchdogSession | app.py:813-821 | an expired hold gives one release and clears the hold, press time and connection; any other record is untouched |
| Gestures.WatchdogReleaseIsFinal | app.py:813-821 | a hold the watchdog released is never found expired again, whatever the later time |
| Gestures.MouseUpSession | app.py:959-962 | after `mouseup` no hold can expire |
| Gestures.MouseDownSession | app.py:943-946 | the press records an active hold with its time and connection; `ServerProperties.WatchdogRecoversForgottenHold` shows the watchdog releases such a hold after 3000 ms |
| Keys.SpecialKey | app.py:986-996 | the lookup answers exactly for the eight browser names of the table, with their injector keys |
| Keys.SpecialKeyRoundTrip | app.py:986-996 | the lookup and its inverse agree both ways |
| Keys.SpecialKeyInjective | app.py:986-996 | no two browser names press the same key |
| Keys.SingleCharacterNotSpecial | app.py:998-1003 | the one-character fallback never shadows a mapped key |
| Keys.KeyActions | app.py:971-1007 | a key press exactly for a mapped key name; text typed exactly for a non-empty character event or a one-character key name; nothing in every other case, including a missing `type` |
| Server.Initial | app.py:372-373 | the start-up state has an empty store and log, and satisfies the invariant for every environment |
| Server.Update | app.py:469 | storing a record changes only that entry, and keeps the store well formed |
| Server.OnDown | app.py:462-495 | a down changes only its connection's record and issues nothing |
| Server.PrepareMove | app.py:498-548 | the bookkeeping, the stale-hold release and the hold-arm issue no cursor move and no wheel step, and keep the record invariant |
| Server.Dispatch | app.py:550-615 | suppressed: only that touch's deltas are dropped. One touch: the motion accumulator, with a zero delta for an unknown touch. Two: one scroll from the shared accumulator, deltas consumed. Three: the latched commands. Other counts: nothing |
| Server.OnMove | app.py:498-617 | a move logs the actions of the hold handling, then dispatches on the prepared record; the store stays well formed and gains at most the mover's connection |
| Server.OnUp | app.py:620-684 | an up changes only its connection's record and appends the actions of `Up` |
| Server.OnEvent | app.py:721-728 | a batch element of unknown type is skipped, and every element keeps the store well formed |
| Server.OnBatch | app.py:841-856 | a batch, through the socket or the `/raw` route, keeps the store well formed |
| Server.OnBatchSplit | app.py:721-728 | a batch is the same as its parts sent one after the other |
| Server.OnBatchSnoc | app.py:721-728 | one more event is the batch followed by that event |
| Server.OnBatchPrefix | app.py:721-728 | after `i + 1` events the loop has applied the first `i` events, then event `i` |
| Server.OnScrollHttp | app.py:261-305 | `/scroll` changes only the scroll state and the log, appends at most two calls, and keeps the accumulators below one step |
| Server.OnScrollSocket | app.py:326-369 | the same for the `scroll` socket handler |
| Server.OnMouseDown | app.py:1049-1062 | the press is logged and the hold recorded for that connection only |
| Server.OnMouseUp | app.py:1066-1079 | the release is logged and the hold cleared for that connection only |
| Server.OnKey | app.py:1011-1045 | a key event changes nothing but the log, which gains at most one call |
| Server.OnDisconnect | app.py:749-771 | an unknown connection is not created; a known one is reset and the others are untouched |
| Server.ClearAllHolds | app.py:790-799 | every record has its hold state cleared, and keys and order are kept |
| Server.ForceReleaseAllHolds | app.py:774-801 | one unconditional release; every record's hold and double-tap flags are cleared, and its touches, suppression and three-finger accumulator kept |
| Server.ExpiredCount | app.py:811-821 | the number of expired holds among the records visited is at most their number |
| Server.ExpiredCountSnoc | app.py:811-821 | one more record adds one to the count exactly when its hold has expired |
| Server.WatchdogRecords | app.py:811-821 | each record after the watchdog's test and release |
| Server.WatchdogTick | app.py:807-829 | one pass releases once per expired hold; it clears those holds and leaves every other record, the store order and the accumulators alone |
| ServerProperties.MovesOnScreenAppend | app.py:434-440 | a log made of on-screen parts has every cursor move on screen |
| ServerProperties.DispatchKeepsRecords | app.py:550-615 | every touch-map update of the dispatch keeps the record invariant |
| ServerProperties.DispatchAppends | app.py:550-615 | a dispatch only appends to the log |
| ServerProperties.DispatchKeepsHold | app.py:550-615 | the dispatch never touches the hold state set by the hold handling |
| ServerProperties.DispatchKeepsStore | app.py:550-615 | the dispatch keeps the whole store consistent |
| ServerProperties.DispatchKeepsOutputs | app.py:550-615 | the dispatch keeps both accumulators below one unit and every cursor move on screen |
| ServerProperties.OnMovePreservesInv | app.py:498-617 | a move keeps the invariant |
| ServerProperties.OnEventPreservesInv | app.py:721-728 | every raw event keeps the invariant |
| ServerProperties.OnBatchPreservesInv | app.py:714-730 | every batch keeps the invariant |
| ServerProperties.ScrollPreservesInv | app.py:261-369 | both scroll handlers keep the invariant |
| ServerProperties.MouseDownPreservesInv | app.py:937-950 | `mousedown` keeps the invariant |
| ServerProperties.MouseUpPreservesInv | app.py:954-966 | `mouseup` keeps the invariant |
| ServerProperties.KeyPreservesInv | app.py:971-1007 | a key event keeps the invariant |
| ServerProperties.DisconnectPreservesInv | app.py:749-771 | a disconnect keeps the invariant |
| ServerProperties.ForceReleasePreservesInv | app.py:774-801 | the forced release keeps the invariant |
| ServerProperties.WatchdogPreservesInv | app.py:807-829 | a watchdog pass keeps the invariant |
| ServerProperties.NoneExpiredCountsZero | app.py:811-821 | with no expired hold, the watchdog counts none |
| ServerProperties.WatchdogIdempotent | app.py:807-829 | a second pass at the same time changes nothing: no release, same records |
| ServerProperties.ForceReleaseIdempotent | app.py:784-799 | forcing the release twice leaves the records as forcing it once |
| ServerProperties.WatchdogRecoversForgottenHold | app.py:937-950 | a hold pressed through `mousedown` and never released is released and cleared by the first pass after the timeout |
| ServerProperties.ExpiredCountPositive | app.py:811-821 | a store holding an expired hold counts at least one |
| Scenarios.DownThenUp | app.py:462-684 | a down then an up act on the record as `Down` then `Up` say |
| Scenarios.QuickTouchIsTap | app.py:636-659 | on an idle record, a quick touch is one left click that arms the double tap and leaves no touch |
| Scenarios.SingleTapClicks | app.py:636-659 | on a new connection, a quick touch logs exactly one left click |
| Scenarios.SecondFingerTapIsRightClick | app.py:660-663 | a quick second finger is a right click that suppresses moves for 300 ms |
| Scenarios.SecondQuickTouchIsDoubleClick | app.py:640-651 | a quick touch within 200 ms of a tap is one double click that ends the double tap |
| Scenarios.SecondTapDoubleClicks | app.py:640-651 | the same through the handlers: exactly one double click is logged |
| Scenarios.HoldPressPrepares | app.py:537-548 | the hold handling of a move on a record held past the trigger issues one press and starts the hold |
| Scenarios.HeldSecondTapPresses | app.py:537-548 | through the handler, that press is the first action of the move, and the hold stays recorded |
| Scenarios.SecondTouchExpectsHold | app.py:477-480 | a second touch within the interval waits for the hold |
| Scenarios.LiftingLastFingerReleases | app.py:675-682 | lifting the last finger of a held drag releases the button and clears the hold |
| Scenarios.DoubleClickSkipsCleanup | app.py:649-651 | the double click returns early: an active hold is not released, and the three-finger latch not reset |
| Scenarios.ZeroDeltaForcedStep | app.py:420-440 | a zero delta with 0.3 pixel pending moves the cursor one pixel right and leaves -0.7 |
| Scenarios.NoDragScrollsNothing | app.py:572-576 | with no pending vertical delta on any touch, the two-finger scroll value is 0 |
| Scenarios.TwoFingerResidueScrolls | app.py:577-588 | the zero scroll value is still added to the accumulator: from 0.3, a two-finger move with no vertical drag scrolls one step up and leaves -0.7, and the next one scrolls one step back |
| Scenarios.OneFingerMoveIsMotion | app.py:557-560 | an unsuppressed move on a one-touch record goes to the motion accumulator alone, after the hold actions |
| Scenarios.UnknownTouchPrepares | app.py:511-513 | a move of an unknown id on a lone-touch record prepares a zero delta and no hold action |
| Scenarios.UnknownTouchFeedsZeroDelta | app.py:557-560 | a move of an unknown id still reaches the motion accumulator, with a zero delta |
| Scenarios.ThreeFingerTravelCountedAgain | app.py:598-602 | two moves with no new travel count the travel since down twice |
| Scenarios.DisconnectKeepsLatches | app.py:755-767 | a disconnect keeps the three-finger latches and the right-click suppression |
| Scenarios.HoldAtTimeZeroNeverExpires | app.py:813-814 | a hold with press time 0 is never released by the watchdog |
| Trackpad.DeltaYTotals | app.py:564-571 | the loop over `touches.values()` computes the sum of the deltas, the sum of their magnitudes and the count |
| Trackpad.TravelYTotal | app.py:595-599 | the loop computes the sum of the travel since down and the count |
| Trackpad.ZeroPendingDeltaY | app.py:590-591 | the in-place loop leaves the touches as `ZeroDeltaY` says |
| Trackpad.TapRecord | app.py:630-667 | the tap test ends the up early exactly on the end of a double tap, with the effect of `Up`, and otherwise makes the click of `TapClick` |
| Trackpad.UpRecord | app.py:620-684 | the step-by-step record update of `process_raw_up` has the effect of `Up` |
| Trackpad.ClearHolds | app.py:790-799 | the loop over `touch_state.items()` leaves the store as `ClearAllHolds` says |
| Trackpad.DownRecord | app.py:469-493 | the step-by-step record update of `process_raw_down` is `Down` |
| Trackpad.DisconnectRecord | app.py:755-767 | the record update of `on_client_disconnect` has the effect of `DisconnectSession` |
| Trackpad.WatchdogVisit | app.py:813-821 | the loop body for one record has the effect of `WatchdogSession` |
| Trackpad.ExpiredBeforeIsCount | app.py:811-821 | counting releases by position agrees with the count over the prefix |
| Trackpad.WatchdogPass | app.py:811-821 | the loop leaves the records of `WatchdogRecords` and issues one release per expired hold |
| Trackpad.Trackpad.constructor | app.py:102-103 | start-up is the `Initial` state, with zero accumulators and no sample time, and satisfies the invariant |
| Trackpad.Trackpad.ProcessMoveDelta | app.py:376-444 | the update of the accumulators, sample time, cursor and log is `MoveDelta` |
| Trackpad.Trackpad.WheelVertical | app.py:272-285 | the vertical block updates its accumulator and the log as `WheelWithMinStep` says, and nothing else |
| Trackpad.Trackpad.WheelHorizontal | app.py:290-301 | the HTTP horizontal block does the same on the horizontal axis |
| Trackpad.Trackpad.WheelHorizontalWhole | app.py:351-367 | the socket horizontal block updates as `WheelWholeStepsOnly` says, and nothing else |
| Trackpad.Trackpad.ScrollMouse | app.py:261-305 | `/scroll` ends in `OnScrollHttp` and keeps the invariant |
| Trackpad.Trackpad.OnScroll | app.py:326-369 | the `scroll` socket handler ends in `OnScrollSocket` and keeps the invariant |
| Trackpad.Trackpad.ProcessRawDown | app.py:462-495 | ends in `OnDown` and keeps the invariant |
| Trackpad.Trackpad.TwoFingerPath | app.py:562-592 | the two-finger path updates the store, the vertical accumulator and the log as `TwoFingerScroll` says |
| Trackpad.Trackpad.ThreeFingerPath | app.py:594-615 | the three-finger path updates the record and the log as `ThreeFingerSwipe` says |
| Trackpad.Trackpad.MoveDispatch | app.py:550-615 | the dispatch ends in `Dispatch` |
| Trackpad.Trackpad.PrepareTouchMove | app.py:510-548 | the hold handling logs its calls and yields `PrepareMove` |
| Trackpad.Trackpad.ProcessRawMove | app.py:498-617 | ends in `OnMove` and keeps the invariant |
| Trackpad.Trackpad.ProcessRawUp | app.py:620-684 | ends in `OnUp` and keeps the invariant |
| Trackpad.Trackpad.ProcessEvent | app.py:721-728 | one batch element ends in `OnEvent` |
| Trackpad.Trackpad.OnRawBatch | app.py:714-730 | the batch loop ends in `OnBatch` and keeps the invariant |
| Trackpad.Trackpad.OnMouseDown | app.py:937-950 | ends in `OnMouseDown` and keeps the invariant |
| Trackpad.Trackpad.OnMouseUp | app.py:954-966 | ends in `OnMouseUp` and keeps the invariant |
| Trackpad.Trackpad.OnKey | app.py:971-1007 | ends in `OnKey` and keeps the invariant |
| Trackpad.Trackpad.OnClientDisconnect | app.py:749-771 | ends in `OnDisconnect` and keeps the invariant |
| Trackpad.Trackpad.ForceReleaseAllHolds | app.py:774-801 | ends in `ForceReleaseAllHolds` and keeps the invariant |
| Trackpad.Trackpad.HoldWatchdogStep | app.py:807-829 | one watchdog pass ends in `WatchdogTick` and keeps the invariant |

## Left out

- Threads and locks: `move_lock` and `scroll_lock` are not modelled. Each handler runs to completion before the next one starts, so interleavings between connections and the watchdog are not covered.
- The watchdog's thread, its 0.5 s sleep and its endless loop are not modelled. One pass is a method, and the time between passes is the caller's choice.
- Every time the code stores or compares is `time.time() * 1000`, a fractional number of milliseconds. The model uses whole milliseconds (`now: int`) throughout. This covers the down time of a double tap (app.py:471), a touch's `startTime` (484), the tap duration (632), `lastTapTime` (637), `suppressMoveUntil` (663), the press time of an armed hold (545) and of `mousedown` (945, 1056), and the watchdog's reading (810). `process_move_delta` keeps `_last_time` in seconds (383). The model keeps it in milliseconds and divides the elapsed time by 1000. A sub-millisecond difference, such as a tap lasting 200.4 ms, is therefore not modelled.
- The wall clock is not read. Each handler call takes one `now` in milliseconds, and every clock reading within that call is that same `now`. In the code the readings are separate:
  - `process_raw_down` reads the clock twice (app.py:471, 484);
  - `process_raw_move` reads it for the stale-hold check (528) and again in `process_move_delta` (383);
  - `process_raw_up` reads it up to three times (632, 637, 663).

  Time passing between readings of the same call is not modelled. An event of a batch gets its own `now` (`RawEvent.at`).
- Floating point is modelled as exact reals. `math.hypot` and the power `x ** 1.1` are parameters (`Numerics`). All the model assumes of them is that a length is never negative and a power of a positive number is never negative.
- Injector failures, and the fallbacks they trigger, are not modelled. Each injector call is one logged action and never fails. This covers the shift+scroll fallback of `_try_hscroll` and the socket handler, and the ctypes fallbacks of `_press_key_combo` and `_press_single_key`.
- `detect_screen_bounds` queries the operating system. The screen rectangle is a constructor parameter instead.
- `pyautogui.position()` is not re-read. The cursor is the position the model last moved it to, or the start-up position, so a cursor moved by anything else is not modelled.
- Transport and payload decoding are not modelled: Flask and SocketIO routes, `request.sid`, `_get_sid_for_http` and JSON parsing. Each handler takes the connection key and the decoded fields as parameters, and a batch is a sequence of decoded events.
- The `/click`, `click`, `taskview`, `taskview_exit` and `/drag` handlers are one-line injector calls outside the interpreter.
- The static web client and the service worker are not modelled.
- The test files are smoke tests against endpoints, and state nothing about the interpreter.
- The exception handlers that print and continue are not modelled: with decoded inputs, no modelled step raises.
- A record created by `mousedown`/`mouseup` lacks the `lastTapTime` and `pendingDoubleTap` keys. The code reads them through `.get` with the defaults 0 and False. The model stores those defaults, which behaves the same.
- Server.ExpiredCount: it states only the bound on its result. What it counts is given by `Server.ExpiredCountSnoc`, `ServerProperties.ExpiredCountPositive` and `ServerProperties.NoneExpiredCountsZero`.
- Server.WatchdogRecords: its contract restates the per-record rule of `Gestures.WatchdogSession`. The properties of a pass are stated on `Server.WatchdogTick`.
