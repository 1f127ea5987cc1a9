/**
 * The gesture classifier of app.py as functions of one session record:
 * `process_raw_down`, the steps of `process_raw_move`, `process_raw_up`, and
 * the per-session parts of the recovery paths.
 */
module Gestures {
  import opened Options
  import opened PyNum
  import opened PyDict
  import opened Injector
  import opened Sessions
  import opened ScrollAccumulator

  /** A session after a step, with the injector calls the step made. */
  datatype Effect = Effect(session: Session, actions: seq<Action>)

  /** The three-finger commands: Win+Tab forward, Escape back. */
  const TASK_SWITCH: Action := Chord(["winleft"], "tab")
  const TASK_EXIT: Action := PressKey("esc")

  // ---------------------------------------------------------------- down

  /** A pending first tap recent enough that this down is the second tap. */
  predicate ChainsDoubleTap(st: Session, now: int)
  {
    st.pendingDoubleTap && now - st.lastTapTime <= DOUBLE_TAP_MAX_INTERVAL_MS
  }

  function FreshTouch(x: real, y: real, now: int, count: int): Touch
  {
    Touch(x, y, x, y, now, false, 0.0, 0.0, 0.0, count)
  }

  /** The double-tap bookkeeping at a down: a stale pending tap is dropped, a recent one arms the hold. */
  function ChainTap(st: Session, now: int): (r: Session)
    ensures !r.pendingDoubleTap
    ensures r.doubleTapExpectHold == (st.doubleTapExpectHold || ChainsDoubleTap(st, now))
    ensures r.doubleTapDownTime == if ChainsDoubleTap(st, now) then now else st.doubleTapDownTime
    ensures r == st.(pendingDoubleTap := false, doubleTapExpectHold := r.doubleTapExpectHold,
                     doubleTapDownTime := r.doubleTapDownTime)
  {
    var st1 := if st.pendingDoubleTap && now - st.lastTapTime > DOUBLE_TAP_MAX_INTERVAL_MS
               then st.(pendingDoubleTap := false) else st;
    if st1.pendingDoubleTap && now - st1.lastTapTime <= DOUBLE_TAP_MAX_INTERVAL_MS
    then st1.(pendingDoubleTap := false, doubleTapExpectHold := true, doubleTapDownTime := now)
    else st1
  }

  /** A fresh record for `tid`, counting the touches after its insertion. */
  function PlaceTouch(d: Dict<TouchId, Touch>, tid: TouchId, x: real, y: real, now: int): (r: Dict<TouchId, Touch>)
    ensures r.entries == d.entries[tid := FreshTouch(x, y, now, r.Len())]
    ensures r.Len() == d.Len() + (if tid in d.entries then 0 else 1)
    ensures r.Len() >= 1
    ensures d.Valid() ==> r.Valid()
  {
    var placed := d.Set(tid, FreshTouch(x, y, now, 0));
    assert |placed.entries| >= 1 by {
      assert placed.entries.Keys >= {tid};
    }
    placed.Set(tid, FreshTouch(x, y, now, placed.Len()))
  }

  /** `process_raw_down`: double-tap chaining, then a fresh record counting the touches after insertion. */
  function Down(st: Session, tid: TouchId, x: real, y: real, now: int): (r: Session)
    ensures r.touches.entries == st.touches.entries[tid := FreshTouch(x, y, now, r.touches.Len())]
    ensures r.touches.Len() == st.touches.Len() + (if tid in st.touches.entries then 0 else 1)
    ensures SessionInv(st) ==> SessionInv(r)
    ensures !r.pendingDoubleTap
    ensures r.doubleTapExpectHold == (st.doubleTapExpectHold || ChainsDoubleTap(st, now))
    ensures r.doubleTapDownTime == if ChainsDoubleTap(st, now) then now else st.doubleTapDownTime
    ensures r == st.(touches := r.touches, pendingDoubleTap := false,
                     doubleTapExpectHold := r.doubleTapExpectHold, doubleTapDownTime := r.doubleTapDownTime)
  {
    var chained := ChainTap(st, now);
    var r := chained.(touches := PlaceTouch(st.touches, tid, x, y, now));
    assert SessionInv(st) ==> SessionInv(r) by {
      if SessionInv(st) {
        forall k | k in r.touches.entries ensures TouchInv(r.touches.entries[k]) {
          if k != tid { assert r.touches.entries[k] == st.touches.entries[k]; }
        }
      }
    }
    r
  }

  // ---------------------------------------------------------------- move

  /** A session after the bookkeeping of a move, with the delta the move carried (0 for an unknown touch). */
  datatype Tracked = Tracked(session: Session, dx: real, dy: real)

  /** The first block of `process_raw_move`: delta, position, travelled distance and the moved flag. */
  function TrackMove(st: Session, tid: TouchId, x: real, y: real, hypot: (real, real) -> real): (r: Tracked)
    ensures r.session == st.(touches := r.session.touches)
    ensures r.session.touches.order == st.touches.order
    ensures r.session.touches.entries.Keys == st.touches.entries.Keys
    ensures forall k :: k in st.touches.entries && k != tid ==> r.session.touches.entries[k] == st.touches.entries[k]
    ensures tid !in st.touches.entries ==> r == Tracked(st, 0.0, 0.0)
    ensures tid in st.touches.entries ==>
      var t, t' := st.touches.entries[tid], r.session.touches.entries[tid];
      && r.dx == x - t.lastX && r.dy == y - t.lastY
      && t' == t.(lastX := x, lastY := y, lastDeltaX := r.dx, lastDeltaY := r.dy,
                  totalDistance := t'.totalDistance, hasMoved := t'.hasMoved)
      && t'.totalDistance == t.totalDistance + hypot(r.dx, r.dy)
      && t'.hasMoved == (t.hasMoved || t'.totalDistance > MOVED_THRESHOLD)
  {
    if tid in st.touches.entries then
      var t := st.touches.entries[tid];
      var dx := x - t.lastX;
      var dy := y - t.lastY;
      var total := t.totalDistance + hypot(dx, dy);
      var t' := t.(lastX := x, lastY := y, totalDistance := total, lastDeltaX := dx, lastDeltaY := dy,
                   hasMoved := t.hasMoved || total > MOVED_THRESHOLD);
      Tracked(st.(touches := st.touches.Set(tid, t')), dx, dy)
    else Tracked(st, 0.0, 0.0)
  }

  /** The bookkeeping keeps every touch record consistent; travel never shrinks and the moved flag is never cleared. */
  lemma MoveBookkeepingMonotone(st: Session, tid: TouchId, x: real, y: real, hypot: (real, real) -> real)
    requires SessionInv(st)
    requires forall a, b :: hypot(a, b) >= 0.0
    ensures SessionInv(TrackMove(st, tid, x, y, hypot).session)
    ensures tid in st.touches.entries ==>
      var t, t' := st.touches.entries[tid], TrackMove(st, tid, x, y, hypot).session.touches.entries[tid];
      t'.totalDistance >= t.totalDistance && (t.hasMoved ==> t'.hasMoved) && t'.startTime == t.startTime
  {
    var r := TrackMove(st, tid, x, y, hypot);
    if tid in st.touches.entries {
      var t := st.touches.entries[tid];
      assert hypot(r.dx, r.dy) >= 0.0;
      forall k | k in r.session.touches.entries ensures TouchInv(r.session.touches.entries[k]) {
        if k != tid { assert r.session.touches.entries[k] == st.touches.entries[k]; }
      }
    }
  }

  /** A hold whose button has been down longer than the timeout (shared by a move and the watchdog). */
  predicate HoldExpired(st: Session, now: int)
  {
    st.doubleTapHoldActive && st.lastMouseDownTime != 0 && now - st.lastMouseDownTime > DOUBLE_TAP_HOLD_TIMEOUT_MS
  }

  /** Stale-hold recovery in `process_raw_move`: release and clear the hold, keeping `lastMouseDownSid`. */
  function ReleaseStaleHold(st: Session, now: int): (r: Effect)
    ensures r.actions == (if HoldExpired(st, now) then [MouseUp] else [])
    ensures HoldExpired(st, now) ==> !r.session.doubleTapHoldActive && r.session.lastMouseDownTime == 0
    ensures r.session == st.(doubleTapHoldActive := r.session.doubleTapHoldActive, lastMouseDownTime := r.session.lastMouseDownTime)
    ensures !HoldExpired(st, now) ==> r.session == st
  {
    if HoldExpired(st, now) then Effect(st.(doubleTapHoldActive := false, lastMouseDownTime := 0), [MouseUp])
    else Effect(st, [])
  }

  /** The second tap of a double tap is being held past the trigger duration. */
  predicate HoldDue(st: Session, now: int)
  {
    st.doubleTapExpectHold && st.doubleTapDownTime != 0 && now - st.doubleTapDownTime >= DOUBLE_TAP_HOLD_TRIGGER_MS
  }

  /** Hold-arm in `process_raw_move`: press the button and start the hold. */
  function ArmHold(st: Session, sid: SessionKey, now: int): (r: Effect)
    ensures r.actions == (if HoldDue(st, now) then [MouseDown] else [])
    ensures HoldDue(st, now) ==>
      && r.session.doubleTapHoldActive && r.session.lastMouseDownTime == now
      && r.session.lastMouseDownSid == Some(sid) && !r.session.doubleTapExpectHold
    ensures r.session == st.(doubleTapHoldActive := r.session.doubleTapHoldActive,
                             lastMouseDownTime := r.session.lastMouseDownTime,
                             lastMouseDownSid := r.session.lastMouseDownSid,
                             doubleTapExpectHold := r.session.doubleTapExpectHold)
    ensures !HoldDue(st, now) ==> r.session == st
  {
    if HoldDue(st, now) then
      Effect(st.(doubleTapHoldActive := true, lastMouseDownTime := now, lastMouseDownSid := Some(sid),
                 doubleTapExpectHold := false), [MouseDown])
    else Effect(st, [])
  }

  /** A suppressed move drops the pending delta of its touch. */
  function SuppressDeltas(st: Session, tid: TouchId): (r: Session)
    ensures r.touches.entries.Keys == st.touches.entries.Keys && r.touches.order == st.touches.order
    ensures tid in st.touches.entries ==> r.touches.entries[tid].lastDeltaX == 0.0 && r.touches.entries[tid].lastDeltaY == 0.0
    ensures tid in st.touches.entries ==> r.touches.entries[tid] == st.touches.entries[tid].(lastDeltaX := 0.0, lastDeltaY := 0.0)
    ensures forall k :: k in st.touches.entries && k != tid ==> r.touches.entries[k] == st.touches.entries[k]
    ensures r == st.(touches := r.touches)
  {
    if tid in st.touches.entries then
      st.(touches := st.touches.Set(tid, st.touches.entries[tid].(lastDeltaX := 0.0, lastDeltaY := 0.0)))
    else st
  }

  /** The two-finger scroll amount: opposite to the mean drag, amplified by the mean speed. */
  function ScrollValue(avgDy: real, speed: real): real
  {
    -avgDy * SCROLL_MULTIPLIER * (1.0 + Min(SCROLL_ACCEL_CAP, speed) * SCROLL_ACCEL_FACTOR)
  }

  /** Scrolling goes against the drag: down for an upward drag, up for a downward one. */
  lemma ScrollValueOpposesDrag(avgDy: real, speed: real)
    requires speed >= 0.0
    ensures avgDy > 0.0 ==> ScrollValue(avgDy, speed) < 0.0
    ensures avgDy < 0.0 ==> ScrollValue(avgDy, speed) > 0.0
    ensures avgDy == 0.0 ==> ScrollValue(avgDy, speed) == 0.0
  {
    var a := 1.0 + Min(SCROLL_ACCEL_CAP, speed) * SCROLL_ACCEL_FACTOR;
    assert a >= 1.0;
    assert ScrollValue(avgDy, speed) == -avgDy * (SCROLL_MULTIPLIER * a);
  }

  /** The scroll magnitude factors into the drag magnitude times the speed gain. */
  lemma ScrollValueMagnitude(avgDy: real, speed: real)
    requires speed >= 0.0
    ensures Abs(ScrollValue(avgDy, speed)) == (Abs(avgDy) * SCROLL_MULTIPLIER) * (1.0 + Min(SCROLL_ACCEL_CAP, speed) * SCROLL_ACCEL_FACTOR)
  {
    var a := 1.0 + Min(SCROLL_ACCEL_CAP, speed) * SCROLL_ACCEL_FACTOR;
    var m := Abs(avgDy) * SCROLL_MULTIPLIER;
    if avgDy >= 0.0 {
      assert ScrollValue(avgDy, speed) == -(m * a);
    } else {
      assert ScrollValue(avgDy, speed) == m * a;
    }
  }

  /** For a given drag, a faster drag never scrolls less. */
  lemma ScrollValueMonotone(avgDy: real, slow: real, fast: real)
    requires 0.0 <= slow <= fast
    ensures Abs(ScrollValue(avgDy, slow)) <= Abs(ScrollValue(avgDy, fast))
  {
    ScrollValueMagnitude(avgDy, slow);
    ScrollValueMagnitude(avgDy, fast);
    MulMonotone(Abs(avgDy) * SCROLL_MULTIPLIER, 1.0 + Min(SCROLL_ACCEL_CAP, slow) * SCROLL_ACCEL_FACTOR,
                1.0 + Min(SCROLL_ACCEL_CAP, fast) * SCROLL_ACCEL_FACTOR);
  }

  lemma MulMonotone(m: real, a: real, b: real)
    requires m >= 0.0 && a <= b
    ensures m * a <= m * b
  {
    assert m * b - m * a == m * (b - a);
  }

  datatype TwoFingerOutcome = TwoFingerOutcome(touches: Dict<TouchId, Touch>, accumY: real, actions: seq<Action>)

  /** The mean pending vertical delta and the mean speed of the touches. */
  function MeanDeltaY(d: Dict<TouchId, Touch>): real
    requires d.Valid() && |d.order| != 0
  {
    SumTouches(d, DeltaY) / |d.order| as real
  }

  function MeanSpeed(d: Dict<TouchId, Touch>): (s: real)
    requires d.Valid() && |d.order| != 0
    ensures s >= 0.0
  {
    SumOverAbsNonNegative(d.entries, d.order);
    SumTouches(d, AbsDeltaY) / |d.order| as real
  }

  /** The two-finger path: one scroll from the vertical accumulator, then every pending vertical delta is consumed. */
  function TwoFingerScroll(d: Dict<TouchId, Touch>, accumY: real): (r: TwoFingerOutcome)
    requires d.Valid()
    ensures r.touches.Valid() && r.touches.order == d.order && r.touches.entries.Keys == d.entries.Keys
    ensures |r.actions| <= 1 && NoMotion(r.actions) && HorizontalSteps(r.actions) == 0
    ensures |d.order| != 0 ==>
      && r.touches == ZeroDeltaY(d)
      && VerticalSteps(r.actions) as real + r.accumY == accumY + ScrollValue(MeanDeltaY(d), MeanSpeed(d))
      && -1.0 < r.accumY < 1.0
    ensures |d.order| == 0 ==> r == TwoFingerOutcome(d, accumY, [])
  {
    if |d.order| != 0 then
      var w := WheelWithMinStep(accumY, ScrollValue(MeanDeltaY(d), MeanSpeed(d)));
      TwoFingerOutcome(ZeroDeltaY(d), w.accum, WheelCall(w.steps, false))
    else TwoFingerOutcome(d, accumY, [])
  }

  /** The three-finger path: add minus the mean travel since down, and fire each latch once. */
  function ThreeFingerSwipe(st: Session): (r: Effect)
    requires st.touches.Valid()
    ensures r.session == st.(threeFingerAccumY := r.session.threeFingerAccumY,
                             threeFingerTriggeredUp := r.session.threeFingerTriggeredUp,
                             threeFingerTriggeredDown := r.session.threeFingerTriggeredDown)
    ensures |st.touches.order| != 0 ==>
      r.session.threeFingerAccumY == st.threeFingerAccumY - SumTouches(st.touches, TravelY) / |st.touches.order| as real
    ensures |st.touches.order| == 0 ==> r == Effect(st, [])
    ensures NoMotion(r.actions) && VerticalSteps(r.actions) == 0 && HorizontalSteps(r.actions) == 0
    ensures st.threeFingerTriggeredUp ==> r.session.threeFingerTriggeredUp
    ensures st.threeFingerTriggeredDown ==> r.session.threeFingerTriggeredDown
    ensures r.session.threeFingerTriggeredUp && !st.threeFingerTriggeredUp ==> r.session.threeFingerAccumY >= THREE_FINGER_TRIGGER
    ensures r.session.threeFingerTriggeredDown && !st.threeFingerTriggeredDown ==> r.session.threeFingerAccumY <= -THREE_FINGER_TRIGGER
    ensures |st.touches.order| != 0 && !st.threeFingerTriggeredUp && r.session.threeFingerAccumY >= THREE_FINGER_TRIGGER ==>
      r.session.threeFingerTriggeredUp
    ensures |st.touches.order| != 0 && !st.threeFingerTriggeredDown && r.session.threeFingerAccumY <= -THREE_FINGER_TRIGGER ==>
      r.session.threeFingerTriggeredDown
    ensures r.actions == (if r.session.threeFingerTriggeredUp && !st.threeFingerTriggeredUp then [TASK_SWITCH] else [])
                       + (if r.session.threeFingerTriggeredDown && !st.threeFingerTriggeredDown then [TASK_EXIT] else [])
  {
    if |st.touches.order| != 0 then
      var acc := st.threeFingerAccumY + -(SumTouches(st.touches, TravelY) / |st.touches.order| as real);
      var up := !st.threeFingerTriggeredUp && acc >= THREE_FINGER_TRIGGER;
      var down := !st.threeFingerTriggeredDown && acc <= -THREE_FINGER_TRIGGER;
      Effect(st.(threeFingerAccumY := acc,
                 threeFingerTriggeredUp := st.threeFingerTriggeredUp || up,
                 threeFingerTriggeredDown := st.threeFingerTriggeredDown || down),
             (if up then [TASK_SWITCH] else []) + (if down then [TASK_EXIT] else []))
    else Effect(st, [])
  }

  /**
   * Three-finger swipes on one contact: before each swipe the touches are
   * replaced by `frames[i]`, standing for the moves that precede it.
   */
  function SwipeRun(st: Session, frames: seq<Dict<TouchId, Touch>>): (r: Effect)
    requires forall i :: 0 <= i < |frames| ==> frames[i].Valid()
    decreases |frames|
  {
    if frames == [] then Effect(st, [])
    else
      var e := ThreeFingerSwipe(st.(touches := frames[0]));
      var rest := SwipeRun(e.session, frames[1..]);
      Effect(rest.session, e.actions + rest.actions)
  }

  /** However many swipes a contact makes, each command fires at most once, and not at all once latched. */
  lemma {:induction false} SwipeFiresOnce(st: Session, frames: seq<Dict<TouchId, Touch>>)
    requires forall i :: 0 <= i < |frames| ==> frames[i].Valid()
    ensures Occurrences(SwipeRun(st, frames).actions, TASK_SWITCH) <= (if st.threeFingerTriggeredUp then 0 else 1)
    ensures Occurrences(SwipeRun(st, frames).actions, TASK_EXIT) <= (if st.threeFingerTriggeredDown then 0 else 1)
    ensures st.threeFingerTriggeredUp ==> SwipeRun(st, frames).session.threeFingerTriggeredUp
    ensures st.threeFingerTriggeredDown ==> SwipeRun(st, frames).session.threeFingerTriggeredDown
    decreases |frames|
  {
    if frames != [] {
      var e := ThreeFingerSwipe(st.(touches := frames[0]));
      SwipeFiresOnce(e.session, frames[1..]);
      var rest := SwipeRun(e.session, frames[1..]);
      var up := if e.session.threeFingerTriggeredUp && !st.threeFingerTriggeredUp then [TASK_SWITCH] else [];
      var down := if e.session.threeFingerTriggeredDown && !st.threeFingerTriggeredDown then [TASK_EXIT] else [];
      assert e.actions == up + down;
      OccurrencesAppend(up, down, TASK_SWITCH);
      OccurrencesAppend(up, down, TASK_EXIT);
      OccurrencesAppend(e.actions, rest.actions, TASK_SWITCH);
      OccurrencesAppend(e.actions, rest.actions, TASK_EXIT);
      assert Occurrences(down, TASK_SWITCH) == 0;
      assert Occurrences(up, TASK_EXIT) == 0;
    }
  }

  // ---------------------------------------------------------------- up

  /** Short and still: `(not moved or distance <= 4) and duration <= 200`. */
  predicate IsTap(t: Touch, duration: int)
  {
    (!t.hasMoved || t.totalDistance <= TAP_MOVE_THRESHOLD) && duration <= TAP_TIMEOUT_MS
  }

  /** The up of `tid` at `now` ends a tap. */
  predicate Tapped(st: Session, tid: TouchId, now: int)
  {
    tid in st.touches.entries && IsTap(st.touches.entries[tid], now - st.touches.entries[tid].startTime)
  }

  /** The click a tap makes, by the number of touches active at its down. */
  function TapButton(count: int): (b: Button)
    ensures b == Left <==> count == 1
    ensures b == Right <==> count == 2
    ensures b == Middle <==> count != 1 && count != 2
  {
    if count == 1 then Left else if count == 2 then Right else Middle
  }

  /** The click dispatch of `process_raw_up` for a tap that is not the end of a double tap. */
  function TapClick(st: Session, tid: TouchId, now: int): (r: Effect)
    ensures !Tapped(st, tid, now) ==> r == Effect(st, [])
    ensures Tapped(st, tid, now) ==> r.actions == [Click(TapButton(st.touches.entries[tid].touchCountAtDown))]
    ensures NoMotion(r.actions) && VerticalSteps(r.actions) == 0 && HorizontalSteps(r.actions) == 0
    ensures r.session.touches == st.touches
    ensures r.session.doubleTapHoldActive == st.doubleTapHoldActive && r.session.lastMouseDownTime == st.lastMouseDownTime
    ensures r.session.lastMouseDownSid == st.lastMouseDownSid && r.session.doubleTapDownTime == st.doubleTapDownTime
    ensures r.session.threeFingerAccumY == st.threeFingerAccumY
    ensures r.session.threeFingerTriggeredUp == st.threeFingerTriggeredUp
    ensures r.session.threeFingerTriggeredDown == st.threeFingerTriggeredDown
  {
    if Tapped(st, tid, now) then
      var count := st.touches.entries[tid].touchCountAtDown;
      if count == 1 then Effect(st.(lastTapTime := now, pendingDoubleTap := true), [Click(Left)])
      else if count == 2 then Effect(st.(suppressMoveUntil := now + RIGHT_CLICK_SUPPRESS_MS), [Click(Right)])
      else Effect(st, [Click(Middle)])
    else Effect(st, [])
  }

  /** The early return of `process_raw_up`: the second tap was released before the hold fired. */
  predicate EndsDoubleTap(st: Session, tid: TouchId, now: int)
  {
    Tapped(st, tid, now) && st.doubleTapExpectHold
  }

  /** An up that is not the end of a double tap, with a hold active and no touch left: the button is released. */
  predicate ReleasesHold(st: Session, tid: TouchId, now: int)
  {
    !EndsDoubleTap(st, tid, now) && st.doubleTapHoldActive && st.touches.Del(tid).Len() == 0
  }

  /** The click of a tap, if the up ends one. */
  function TapActions(st: Session, tid: TouchId, now: int): seq<Action>
  {
    if Tapped(st, tid, now) then [Click(TapButton(st.touches.entries[tid].touchCountAtDown))] else []
  }

  /** The bookkeeping after the click of `process_raw_up`: the touch forgotten, the three-finger state reset below three touches. */
  function ForgetTouch(st: Session, tid: TouchId): (r: Session)
    ensures r.touches == st.touches.Del(tid)
    ensures SessionInv(st) ==> SessionInv(r)
    ensures r.touches.Len() < 3 ==>
      r == st.(touches := r.touches, threeFingerAccumY := 0.0, threeFingerTriggeredUp := false, threeFingerTriggeredDown := false)
    ensures r.touches.Len() >= 3 ==> r == st.(touches := r.touches)
  {
    var st1 := st.(touches := st.touches.Del(tid));
    if st1.touches.Len() < 3
    then st1.(threeFingerAccumY := 0.0, threeFingerTriggeredUp := false, threeFingerTriggeredDown := false)
    else st1
  }

  /** The last step of `process_raw_up`: a hold with no touch left is released. */
  function ReleaseIdleHold(st: Session): (r: Effect)
    ensures r.actions == (if st.doubleTapHoldActive && st.touches.Len() == 0 then [MouseUp] else [])
    ensures st.doubleTapHoldActive && st.touches.Len() == 0 ==>
      r.session == st.(doubleTapHoldActive := false, lastMouseDownTime := 0)
    ensures !(st.doubleTapHoldActive && st.touches.Len() == 0) ==> r.session == st
    ensures NoMotion(r.actions) && VerticalSteps(r.actions) == 0 && HorizontalSteps(r.actions) == 0
  {
    if st.doubleTapHoldActive && st.touches.Len() == 0
    then Effect(st.(doubleTapHoldActive := false, lastMouseDownTime := 0), [MouseUp])
    else Effect(st, [])
  }

  /** `process_raw_up`: classify a tap, forget the touch, reset the three-finger state, release a finished hold. */
  function Up(st: Session, tid: TouchId, now: int): (r: Effect)
    ensures r.session.touches == st.touches.Del(tid)
    ensures tid !in r.session.touches.entries
    ensures SessionInv(st) ==> SessionInv(r.session)
    ensures NoMotion(r.actions) && VerticalSteps(r.actions) == 0 && HorizontalSteps(r.actions) == 0
    // the early return: one double click, the double-tap flags cleared, nothing else touched
    ensures EndsDoubleTap(st, tid, now) ==>
      && r.actions == [DoubleClick]
      && r.session == st.(touches := st.touches.Del(tid), doubleTapExpectHold := false,
                          pendingDoubleTap := false, lastTapTime := 0)
    // otherwise: at most one click, chosen by the touches at down, then the hold release
    ensures !EndsDoubleTap(st, tid, now) ==>
      r.actions == TapActions(st, tid, now) + (if ReleasesHold(st, tid, now) then [MouseUp] else [])
    ensures !EndsDoubleTap(st, tid, now) && Tapped(st, tid, now) && st.touches.entries[tid].touchCountAtDown == 1 ==>
      r.session.pendingDoubleTap && r.session.lastTapTime == now
    ensures !EndsDoubleTap(st, tid, now) && Tapped(st, tid, now) && st.touches.entries[tid].touchCountAtDown == 2 ==>
      r.session.suppressMoveUntil == now + RIGHT_CLICK_SUPPRESS_MS
    ensures !EndsDoubleTap(st, tid, now) && st.touches.Del(tid).Len() < 3 ==>
      r.session.threeFingerAccumY == 0.0 && !r.session.threeFingerTriggeredUp && !r.session.threeFingerTriggeredDown
    ensures !EndsDoubleTap(st, tid, now) && st.touches.Del(tid).Len() >= 3 ==>
      && r.session.threeFingerAccumY == st.threeFingerAccumY
      && r.session.threeFingerTriggeredUp == st.threeFingerTriggeredUp
      && r.session.threeFingerTriggeredDown == st.threeFingerTriggeredDown
    ensures ReleasesHold(st, tid, now) ==> !r.session.doubleTapHoldActive && r.session.lastMouseDownTime == 0
    ensures !ReleasesHold(st, tid, now) ==>
      r.session.doubleTapHoldActive == st.doubleTapHoldActive && r.session.lastMouseDownTime == st.lastMouseDownTime
    ensures r.session.lastMouseDownSid == st.lastMouseDownSid && r.session.doubleTapDownTime == st.doubleTapDownTime
  {
    if EndsDoubleTap(st, tid, now) then
      Effect(st.(doubleTapExpectHold := false, pendingDoubleTap := false, lastTapTime := 0,
                 touches := st.touches.Del(tid)), [DoubleClick])
    else
      var tapped := TapClick(st, tid, now);
      var released := ReleaseIdleHold(ForgetTouch(tapped.session, tid));
      AppendSteps(tapped.actions, released.actions);
      Effect(released.session, tapped.actions + released.actions)
  }

  // ---------------------------------------------------------------- recovery

  /** `on_client_disconnect` for a known session. */
  function DisconnectSession(st: Session): (r: Effect)
    ensures r.actions == (if st.doubleTapHoldActive then [MouseUp] else [])
    ensures !r.session.doubleTapHoldActive && !r.session.doubleTapExpectHold && !r.session.pendingDoubleTap
    ensures r.session.lastMouseDownTime == 0 && r.session.lastMouseDownSid == None
    ensures r.session.touches == Empty()
    ensures r.session == st.(touches := Empty(), doubleTapHoldActive := false, lastMouseDownTime := 0,
                             lastMouseDownSid := None, doubleTapExpectHold := false, pendingDoubleTap := false)
  {
    var acts := if st.doubleTapHoldActive then [MouseUp] else [];
    var st1 := if st.doubleTapHoldActive then st.(doubleTapHoldActive := false) else st;
    Effect(st1.(lastMouseDownTime := 0, lastMouseDownSid := None, doubleTapExpectHold := false,
                pendingDoubleTap := false, touches := Empty()), acts)
  }

  /** The per-session part of `force_release_all_holds`. */
  function ClearHoldFlags(st: Session): (r: Session)
    ensures !r.doubleTapHoldActive && !r.doubleTapExpectHold && !r.pendingDoubleTap
    ensures r.lastMouseDownTime == 0 && r.lastMouseDownSid == None
    ensures r == st.(doubleTapHoldActive := false, lastMouseDownTime := 0, lastMouseDownSid := None,
                     doubleTapExpectHold := false, pendingDoubleTap := false)
  {
    var st1 := if st.doubleTapHoldActive then st.(doubleTapHoldActive := false) else st;
    st1.(lastMouseDownTime := 0, lastMouseDownSid := None, doubleTapExpectHold := false, pendingDoubleTap := false)
  }

  /** The watchdog's test and release for one session. */
  function WatchdogSession(st: Session, now: int): (r: Effect)
    ensures r.actions == (if HoldExpired(st, now) then [MouseUp] else [])
    ensures HoldExpired(st, now) ==>
      r.session == st.(doubleTapHoldActive := false, lastMouseDownTime := 0, lastMouseDownSid := None)
    ensures !HoldExpired(st, now) ==> r.session == st
  {
    if HoldExpired(st, now) then
      Effect(st.(doubleTapHoldActive := false, lastMouseDownTime := 0, lastMouseDownSid := None), [MouseUp])
    else Effect(st, [])
  }

  /** A hold the watchdog released stays released: no later pass finds it expired again. */
  lemma WatchdogReleaseIsFinal(st: Session, now: int, later: int)
    requires HoldExpired(st, now)
    ensures !HoldExpired(WatchdogSession(st, now).session, later)
    ensures WatchdogSession(WatchdogSession(st, now).session, later) == Effect(WatchdogSession(st, now).session, [])
  {
  }

  /** The bookkeeping of `on_mousedown` / `http_mousedown`. */
  function MouseDownSession(st: Session, sid: SessionKey, now: int): (r: Session)
    ensures r.doubleTapHoldActive && r.lastMouseDownTime == now && r.lastMouseDownSid == Some(sid)
    ensures r == st.(doubleTapHoldActive := true, lastMouseDownTime := now, lastMouseDownSid := Some(sid))
  {
    st.(doubleTapHoldActive := true, lastMouseDownTime := now, lastMouseDownSid := Some(sid))
  }

  /** The bookkeeping of `on_mouseup` / `http_mouseup`. */
  function MouseUpSession(st: Session): (r: Session)
    ensures !r.doubleTapHoldActive && r.lastMouseDownTime == 0 && r.lastMouseDownSid == None
    ensures forall now :: !HoldExpired(r, now)
    ensures r == st.(doubleTapHoldActive := false, lastMouseDownTime := 0, lastMouseDownSid := None)
  {
    st.(doubleTapHoldActive := false, lastMouseDownTime := 0, lastMouseDownSid := None)
  }
}
