/**
 * The process state of app.py as one object: the session store
 * `touch_state`, the globals `move_accum_x/y` and `scroll_accum_x/y`,
 * `process_move_delta._last_time`, the cursor the injector reports, and the
 * injector log. Each handler updates the fields step by step as the source
 * does, and is proved to end in the state the Server function describes.
 */
module Trackpad {
  import opened Options
  import opened PyNum
  import opened PyDict
  import opened Injector
  import opened Sessions
  import opened Gestures
  import opened Keys
  import opened Server
  import opened ServerProperties
  import MA = MotionAccumulator
  import SA = ScrollAccumulator

  /** The two sums of the two-finger path, in one pass over `touches.values()`. */
  method DeltaYTotals(d: Dict<TouchId, Touch>) returns (totalDelta: real, speedAcc: real, count: nat)
    requires d.Valid()
    ensures totalDelta == SumTouches(d, DeltaY) && speedAcc == SumTouches(d, AbsDeltaY)
    ensures count == |d.order|
  {
    totalDelta, speedAcc, count := 0.0, 0.0, 0;
    var i := 0;
    while i < |d.order|
      invariant 0 <= i <= |d.order| && count == i
      invariant totalDelta == SumOver(d.entries, d.order[..i], DeltaY)
      invariant speedAcc == SumOver(d.entries, d.order[..i], AbsDeltaY)
    {
      assert d.order[..i + 1][..i] == d.order[..i];
      var ldy := d.entries[d.order[i]].lastDeltaY;
      totalDelta := totalDelta + ldy;
      speedAcc := speedAcc + Abs(ldy);
      count := count + 1;
      i := i + 1;
    }
    assert d.order[..i] == d.order;
  }

  /** The sum of the three-finger path: each touch's travel since its down. */
  method TravelYTotal(d: Dict<TouchId, Touch>) returns (total: real, count: nat)
    requires d.Valid()
    ensures total == SumTouches(d, TravelY) && count == |d.order|
  {
    total, count := 0.0, 0;
    var i := 0;
    while i < |d.order|
      invariant 0 <= i <= |d.order| && count == i
      invariant total == SumOver(d.entries, d.order[..i], TravelY)
    {
      assert d.order[..i + 1][..i] == d.order[..i];
      var td := d.entries[d.order[i]];
      total := total + (td.lastY - td.startY);
      count := count + 1;
      i := i + 1;
    }
    assert d.order[..i] == d.order;
  }

  /** The loop of the two-finger path that consumes every touch's pending vertical delta, in place. */
  method ZeroPendingDeltaY(d: Dict<TouchId, Touch>) returns (r: Dict<TouchId, Touch>)
    requires d.Valid()
    ensures r == ZeroDeltaY(d)
  {
    r := d;
    var keys := d.order;
    ghost var visited: set<TouchId> := {};
    ghost var target := ZeroDeltaY(d);
    var i := 0;
    while i < |keys|
      invariant 0 <= i <= |keys|
      invariant RewrittenOn(r, d, visited, target)
      invariant forall j :: 0 <= j < i ==> keys[j] in visited
    {
      var k := keys[i];
      RewriteNext(r, d, visited, target, k);
      VisitNext(keys, i, visited);
      r := r.(entries := r.entries[k := r.entries[k].(lastDeltaY := 0.0)]);
      visited := visited + {k};
      i := i + 1;
    }
    RewriteDone(r, d, visited, target);
  }

  /**
   * The tap test of `process_raw_up`: the end of a double tap (which returns
   * early, `done`), or the click a tap makes.
   */
  method TapRecord(st: Session, tid: TouchId, now: int) returns (next: Session, acts: seq<Action>, done: bool)
    ensures done <==> EndsDoubleTap(st, tid, now)
    ensures done ==> Effect(next, acts) == Up(st, tid, now)
    ensures !done ==> Effect(next, acts) == TapClick(st, tid, now)
  {
    next, acts, done := st, [], false;
    if tid in next.touches.entries {
      var touch := next.touches.entries[tid];
      var duration := now - touch.startTime;
      if (!touch.hasMoved || touch.totalDistance <= TAP_MOVE_THRESHOLD) && duration <= TAP_TIMEOUT_MS {
        if next.doubleTapExpectHold {
          acts := [DoubleClick];
          next := next.(doubleTapExpectHold := false, pendingDoubleTap := false, lastTapTime := 0);
          next := next.(touches := next.touches.Del(tid));
          done := true;
          return;
        }
        var count := touch.touchCountAtDown;
        if count == 1 {
          acts := [Click(Left)];
          next := next.(lastTapTime := now, pendingDoubleTap := true);
        } else if count == 2 {
          acts := [Click(Right)];
          next := next.(suppressMoveUntil := now + RIGHT_CLICK_SUPPRESS_MS);
        } else {
          acts := [Click(Middle)];
        }
      }
    }
  }

  /** The record update and injector calls of `process_raw_up`, in the source's order. */
  method UpRecord(st: Session, tid: TouchId, now: int) returns (next: Session, acts: seq<Action>)
    ensures Effect(next, acts) == Up(st, tid, now)
  {
    var done;
    next, acts, done := TapRecord(st, tid, now);
    if done {
      return;
    }
    next := next.(touches := next.touches.Del(tid));
    if next.touches.Len() < 3 {
      next := next.(threeFingerAccumY := 0.0, threeFingerTriggeredUp := false, threeFingerTriggeredDown := false);
    }
    if next.doubleTapHoldActive && next.touches.Len() == 0 {
      acts := acts + [MouseUp];
      next := next.(doubleTapHoldActive := false, lastMouseDownTime := 0);
    }
  }

  /** The loop of `force_release_all_holds` over `touch_state.items()`. */
  method ClearHolds(store: Dict<SessionKey, Session>) returns (r: Dict<SessionKey, Session>)
    requires store.Listed()
    ensures r == ClearAllHolds(store)
  {
    r := store;
    var keys := store.order;
    ghost var visited: set<SessionKey> := {};
    ghost var target := ClearAllHolds(store);
    var i := 0;
    while i < |keys|
      invariant 0 <= i <= |keys|
      invariant RewrittenOn(r, store, visited, target)
      invariant forall j :: 0 <= j < i ==> keys[j] in visited
    {
      var k := keys[i];
      var st := store.entries[k];
      if st.doubleTapHoldActive {
        st := st.(doubleTapHoldActive := false);
      }
      st := st.(lastMouseDownTime := 0, lastMouseDownSid := None, doubleTapExpectHold := false,
                pendingDoubleTap := false);
      assert st == target.entries[k];
      RewriteNext(r, store, visited, target, k);
      VisitNext(keys, i, visited);
      r := r.(entries := r.entries[k := st]);
      visited := visited + {k};
      i := i + 1;
    }
    RewriteDone(r, store, visited, target);
  }

  /** The record `process_raw_down` leaves behind: the double-tap chain checked, then the touch placed. */
  method DownRecord(st: Session, tid: TouchId, x: real, y: real, now: int) returns (next: Session)
    ensures next == Down(st, tid, x, y, now)
  {
    next := st;
    if next.pendingDoubleTap && now - next.lastTapTime > DOUBLE_TAP_MAX_INTERVAL_MS {
      next := next.(pendingDoubleTap := false);
    }
    if next.pendingDoubleTap && now - next.lastTapTime <= DOUBLE_TAP_MAX_INTERVAL_MS {
      next := next.(pendingDoubleTap := false, doubleTapExpectHold := true, doubleTapDownTime := now);
    }
    var touches := next.touches.Set(tid, FreshTouch(x, y, now, 0));
    touches := touches.Set(tid, touches.entries[tid].(touchCountAtDown := touches.Len()));
    next := next.(touches := touches);
  }

  /** The record update of `on_client_disconnect`: the hold released, the double-tap state and the touches dropped. */
  method DisconnectRecord(st: Session) returns (next: Session, acts: seq<Action>)
    ensures Effect(next, acts) == DisconnectSession(st)
  {
    next, acts := st, [];
    if next.doubleTapHoldActive {
      acts := [MouseUp];
      next := next.(doubleTapHoldActive := false);
    }
    next := next.(lastMouseDownTime := 0, lastMouseDownSid := None, doubleTapExpectHold := false,
                  pendingDoubleTap := false, touches := Empty());
  }

  /** The body of the watchdog's loop for one record. */
  method WatchdogVisit(st: Session, now: int) returns (next: Session, acts: seq<Action>)
    ensures Effect(next, acts) == WatchdogSession(st, now)
  {
    next, acts := st, [];
    if st.doubleTapHoldActive && st.lastMouseDownTime != 0 {
      if now - st.lastMouseDownTime > DOUBLE_TAP_HOLD_TIMEOUT_MS {
        acts := [MouseUp];
        next := next.(doubleTapHoldActive := false, lastMouseDownTime := 0, lastMouseDownSid := None);
      }
    }
  }

  /** The number of expired holds among the first `i` records of `keys`. */
  ghost function ExpiredBefore(m: map<SessionKey, Session>, keys: seq<SessionKey>, i: nat, now: int): nat
    requires i <= |keys|
  {
    if i == 0 then 0
    else ExpiredBefore(m, keys, i - 1, now) + (if keys[i - 1] in m && HoldExpired(m[keys[i - 1]], now) then 1 else 0)
  }

  /** Counting by position agrees with counting over the prefix. */
  lemma {:induction false} ExpiredBeforeIsCount(m: map<SessionKey, Session>, keys: seq<SessionKey>, i: nat, now: int)
    requires i <= |keys|
    ensures ExpiredBefore(m, keys, i, now) == ExpiredCount(m, keys[..i], now)
  {
    if i > 0 {
      ExpiredBeforeIsCount(m, keys, i - 1, now);
      assert keys[..i][..i - 1] == keys[..i - 1];
    }
  }

  /** One more record visited: its release, if any, extends the run of releases by one. */
  lemma ReleasesCounted(m: map<SessionKey, Session>, keys: seq<SessionKey>, i: nat, now: int,
                        released: seq<Action>, acts: seq<Action>)
    requires i < |keys| && keys[i] in m
    requires released == Repeat(MouseUp, ExpiredBefore(m, keys, i, now))
    requires acts == WatchdogSession(m[keys[i]], now).actions
    ensures released + acts == Repeat(MouseUp, ExpiredBefore(m, keys, i + 1, now))
  { }

  /** How far a watchdog pass has got after visiting the first `i` records of `keys`. */
  ghost predicate PassedOver(store: Dict<SessionKey, Session>, now: int, keys: seq<SessionKey>, i: nat,
                             r: Dict<SessionKey, Session>, released: seq<Action>, visited: set<SessionKey>)
  {
    && keys == store.order && i <= |keys|
    && RewrittenOn(r, store, visited, WatchdogRecords(store, now))
    && (forall j :: 0 <= j < i ==> keys[j] in visited)
    && released == Repeat(MouseUp, ExpiredBefore(store.entries, keys, i, now))
  }

  /** Visiting the next record, with its release and new state, moves the pass on by one. */
  lemma PassStep(store: Dict<SessionKey, Session>, now: int, keys: seq<SessionKey>, i: nat,
                 r: Dict<SessionKey, Session>, released: seq<Action>, visited: set<SessionKey>,
                 next: Session, acts: seq<Action>)
    requires PassedOver(store, now, keys, i, r, released, visited) && i < |keys| && keys[i] in store.entries
    requires Effect(next, acts) == WatchdogSession(store.entries[keys[i]], now)
    ensures PassedOver(store, now, keys, i + 1, r.(entries := r.entries[keys[i] := next]), released + acts, visited + {keys[i]})
  {
    ReleasesCounted(store.entries, keys, i, now, released, acts);
    RewriteNext(r, store, visited, WatchdogRecords(store, now), keys[i]);
    VisitNext(keys, i, visited);
  }

  /** A pass that has visited every record has produced the records and releases of the whole pass. */
  lemma PassDone(store: Dict<SessionKey, Session>, now: int, keys: seq<SessionKey>,
                 r: Dict<SessionKey, Session>, released: seq<Action>, visited: set<SessionKey>)
    requires PassedOver(store, now, keys, |keys|, r, released, visited) && store.Listed()
    ensures r == WatchdogRecords(store, now)
    ensures released == Repeat(MouseUp, ExpiredCount(store.entries, store.order, now))
  {
    ExpiredBeforeIsCount(store.entries, keys, |keys|, now);
    assert keys[..|keys|] == keys;
    RewriteDone(r, store, visited, WatchdogRecords(store, now));
  }

  /** The loop of one watchdog pass over `touch_state.items()`: the records after it and its releases. */
  method WatchdogPass(store: Dict<SessionKey, Session>, now: int) returns (r: Dict<SessionKey, Session>, released: seq<Action>)
    requires store.Listed()
    ensures r == WatchdogRecords(store, now)
    ensures released == Repeat(MouseUp, ExpiredCount(store.entries, store.order, now))
  {
    r, released := store, [];
    var keys := store.order;
    ghost var visited: set<SessionKey> := {};
    var i := 0;
    while i < |keys|
      invariant PassedOver(store, now, keys, i, r, released, visited)
    {
      var k := keys[i];
      var next, acts := WatchdogVisit(store.entries[k], now);
      PassStep(store, now, keys, i, r, released, visited, next, acts);
      released := released + acts;
      r := r.(entries := r.entries[k := next]);
      visited := visited + {k};
      i := i + 1;
    }
    PassDone(store, now, keys, r, released, visited);
  }

  class Trackpad {
    const env: Env
    var sessions: Dict<SessionKey, Session>
    var moveAccumX: real
    var moveAccumY: real
    var lastMoveTime: Option<int>
    var scrollAccumX: real
    var scrollAccumY: real
    var cursor: MA.Point
    var log: seq<Action>

    ghost function State(): World
      reads this
    {
      World(sessions, MA.MotionState(moveAccumX, moveAccumY, lastMoveTime),
            SA.ScrollState(scrollAccumX, scrollAccumY), cursor, log)
    }

    ghost predicate Valid()
      reads this
    {
      Inv(State(), env) && EnvOk(env)
    }

    /** Start-up: the screen bounds and numerics found, nothing recorded yet. */
    constructor (screen: MA.Screen, num: MA.Numerics, cursorAtStart: MA.Point)
      requires EnvOk(Env(screen, num))
      ensures Valid() && env == Env(screen, num)
      ensures State() == Initial(cursorAtStart)
    {
      env := Env(screen, num);
      sessions := Empty();
      moveAccumX, moveAccumY, lastMoveTime := 0.0, 0.0, None;
      scrollAccumX, scrollAccumY := 0.0, 0.0;
      cursor := cursorAtStart;
      log := [];
    }

    // ---------------------------------------------------------- accumulators

    /** `process_move_delta` */
    method ProcessMoveDelta(deltaX: real, deltaY: real, now: int)
      modifies this
      ensures var o := MA.MoveDelta(old(State()).motion, old(cursor), deltaX, deltaY, now, env.screen, env.num);
        State() == old(State()).(motion := o.state, cursor := o.cursor, log := old(log) + o.actions)
    {
      var dt := MA.SampleInterval(lastMoveTime, now);
      // the speed is the length of the scaled deltas per second
      var speed := env.num.hypot(deltaX * MA.MOVE_MULTIPLIER, deltaY * MA.MOVE_MULTIPLIER) / dt;
      var accelMult := MA.BASE_SPEED_SCALE;
      if speed > 0.0 {
        accelMult := MA.BASE_SPEED_SCALE + env.num.pow(MA.ACCELERATION_FACTOR * speed);
        if accelMult > MA.ACCEL_CAP {
          accelMult := MA.ACCEL_CAP;
        }
      }
      assert accelMult == MA.Acceleration(lastMoveTime, now, deltaX, deltaY, env.num);
      var ax := MA.MotionAxis(moveAccumX, MA.Accelerated(deltaX, accelMult));
      var ay := MA.MotionAxis(moveAccumY, MA.Accelerated(deltaY, accelMult));
      var p, acts := cursor, [];
      if ax.applied != 0 || ay.applied != 0 {
        var nx := Clamp(env.screen.left, env.screen.left + env.screen.width - 1, cursor.x + ax.applied);
        var ny := Clamp(env.screen.top, env.screen.top + env.screen.height - 1, cursor.y + ay.applied);
        p, acts := MA.Point(nx, ny), [MoveTo(nx, ny)];
      }
      moveAccumX, moveAccumY, lastMoveTime := ax.accum, ay.accum, Some(now);
      cursor, log := p, log + acts;
    }

    /** The vertical wheel block shared by both scroll handlers and the two-finger path. */
    method WheelVertical(added: real)
      modifies this
      ensures var s := SA.WheelWithMinStep(old(scrollAccumY), added);
        scrollAccumY == s.accum && log == old(log) + SA.WheelCall(s.steps, false)
      ensures sessions == old(sessions) && scrollAccumX == old(scrollAccumX) && cursor == old(cursor)
      ensures moveAccumX == old(moveAccumX) && moveAccumY == old(moveAccumY) && lastMoveTime == old(lastMoveTime)
    {
      scrollAccumY := scrollAccumY + added;
      var amount := Trunc(scrollAccumY);
      if amount != 0 {
        log := log + [Scroll(amount)];
        scrollAccumY := scrollAccumY - amount as real;
      } else if Abs(scrollAccumY) >= SA.MIN_SCROLL_FRAC_TO_STEP {
        var step := UnitStep(scrollAccumY);
        log := log + [Scroll(step)];
        scrollAccumY := scrollAccumY - step as real;
      }
    }

    /** The horizontal block of the `/scroll` HTTP handler: whole steps, or one forced step for a significant fraction. */
    method WheelHorizontal(added: real)
      modifies this
      ensures var s := SA.WheelWithMinStep(old(scrollAccumX), added);
        scrollAccumX == s.accum && log == old(log) + SA.WheelCall(s.steps, true)
      ensures sessions == old(sessions) && scrollAccumY == old(scrollAccumY) && cursor == old(cursor)
      ensures moveAccumX == old(moveAccumX) && moveAccumY == old(moveAccumY) && lastMoveTime == old(lastMoveTime)
    {
      scrollAccumX := scrollAccumX + added;
      var amountX := Trunc(scrollAccumX);
      if amountX != 0 {
        log := log + [HScroll(amountX)];
        scrollAccumX := scrollAccumX - amountX as real;
      } else if Abs(scrollAccumX) >= SA.MIN_SCROLL_FRAC_TO_STEP {
        var stepX := UnitStep(scrollAccumX);
        log := log + [HScroll(stepX)];
        scrollAccumX := scrollAccumX - stepX as real;
      }
    }

    /** The horizontal block of the `scroll` socket handler: whole steps only, the fraction kept. */
    method WheelHorizontalWhole(added: real)
      modifies this
      ensures var s := SA.WheelWholeStepsOnly(old(scrollAccumX), added);
        scrollAccumX == s.accum && log == old(log) + SA.WheelCall(s.steps, true)
      ensures sessions == old(sessions) && scrollAccumY == old(scrollAccumY) && cursor == old(cursor)
      ensures moveAccumX == old(moveAccumX) && moveAccumY == old(moveAccumY) && lastMoveTime == old(lastMoveTime)
    {
      scrollAccumX := scrollAccumX + added;
      var amountX := Trunc(scrollAccumX);
      if amountX != 0 {
        log := log + [HScroll(amountX)];
      }
      scrollAccumX := scrollAccumX - amountX as real;
    }

    /** The `/scroll` HTTP handler. */
    method ScrollMouse(scrollX: real, scrollY: real)
      requires Valid()
      modifies this
      ensures Valid()
      ensures State() == OnScrollHttp(old(State()), scrollX, scrollY)
    {
      ScrollPreservesInv(State(), env, scrollX, scrollY);
      ghost var o := SA.ScrollHttp(State().scroll, scrollX, scrollY);
      ghost var v := SA.VerticalBlock(scrollAccumY, scrollY);
      if scrollY != 0.0 {
        WheelVertical(scrollY * SA.SCROLL_MULTIPLIER);
      }
      assert scrollAccumY == v.accum && log == old(log) + SA.WheelCall(v.steps, false);
      ghost var h := if scrollX != 0.0 then SA.WheelWithMinStep(scrollAccumX, scrollX * SA.SCROLL_MULTIPLIER)
                     else SA.WheelStep(0, scrollAccumX);
      ghost var logV := log;
      if scrollX != 0.0 {
        WheelHorizontal(scrollX * SA.SCROLL_MULTIPLIER);
      }
      assert scrollAccumX == h.accum && log == logV + SA.WheelCall(h.steps, true);
      assert o.actions == SA.WheelCall(v.steps, false) + SA.WheelCall(h.steps, true);
      assert log == old(log) + o.actions;
    }

    /** The `scroll` socket handler: whole horizontal steps only. */
    method OnScroll(scrollX: real, scrollY: real)
      requires Valid()
      modifies this
      ensures Valid()
      ensures State() == OnScrollSocket(old(State()), scrollX, scrollY)
    {
      ScrollPreservesInv(State(), env, scrollX, scrollY);
      ghost var o := SA.ScrollSocket(State().scroll, scrollX, scrollY);
      ghost var v := SA.VerticalBlock(scrollAccumY, scrollY);
      if scrollY != 0.0 {
        WheelVertical(scrollY * SA.SCROLL_MULTIPLIER);
      }
      assert scrollAccumY == v.accum && log == old(log) + SA.WheelCall(v.steps, false);
      ghost var h := if scrollX != 0.0 then SA.WheelWholeStepsOnly(scrollAccumX, scrollX * SA.SCROLL_MULTIPLIER)
                     else SA.WheelStep(0, scrollAccumX);
      ghost var logV := log;
      if scrollX != 0.0 {
        WheelHorizontalWhole(scrollX * SA.SCROLL_MULTIPLIER);
      }
      assert scrollAccumX == h.accum && log == logV + SA.WheelCall(h.steps, true);
      assert o.actions == SA.WheelCall(v.steps, false) + SA.WheelCall(h.steps, true);
      assert log == old(log) + o.actions;
    }

    // ---------------------------------------------------------- raw touch events

    /** `process_raw_down` */
    method ProcessRawDown(sid: SessionKey, tid: TouchId, x: real, y: real, now: int)
      requires Valid()
      modifies this
      ensures Valid()
      ensures State() == OnDown(old(State()), sid, tid, x, y, now)
    {
      ghost var w := State();
      var st := DownRecord(SessionOf(sessions, sid), tid, x, y, now);
      assert SessionInv(st);
      sessions := sessions.Set(sid, st);
      assert State() == Update(w, sid, st);
    }

    /** The two-finger path: one wheel step from the shared accumulator, then the deltas consumed. */
    method TwoFingerPath(sid: SessionKey, st: Session)
      requires st.touches.Valid()
      modifies this
      ensures var tf := TwoFingerScroll(st.touches, old(scrollAccumY));
        && sessions == old(sessions).Set(sid, st.(touches := tf.touches))
        && scrollAccumY == tf.accumY && log == old(log) + tf.actions
      ensures scrollAccumX == old(scrollAccumX) && cursor == old(cursor)
      ensures moveAccumX == old(moveAccumX) && moveAccumY == old(moveAccumY) && lastMoveTime == old(lastMoveTime)
    {
      var next := st;
      var totalDelta, speedAcc, count := DeltaYTotals(st.touches);
      if count != 0 {
        var avgDy := totalDelta / count as real;
        var speed := speedAcc / count as real;
        var accel := 1.0 + Min(SCROLL_ACCEL_CAP, speed) * SCROLL_ACCEL_FACTOR;
        var scrollVal := -avgDy * SA.SCROLL_MULTIPLIER * accel;
        assert scrollVal == ScrollValue(MeanDeltaY(st.touches), MeanSpeed(st.touches));
        WheelVertical(scrollVal);
        var zeroed := ZeroPendingDeltaY(st.touches);
        next := st.(touches := zeroed);
      }
      sessions := sessions.Set(sid, next);
    }

    /** The three-finger path: the latched task-view commands. */
    method ThreeFingerPath(sid: SessionKey, st: Session)
      requires st.touches.Valid()
      modifies this
      ensures var sw := ThreeFingerSwipe(st);
        sessions == old(sessions).Set(sid, sw.session) && log == old(log) + sw.actions
      ensures scrollAccumX == old(scrollAccumX) && scrollAccumY == old(scrollAccumY) && cursor == old(cursor)
      ensures moveAccumX == old(moveAccumX) && moveAccumY == old(moveAccumY) && lastMoveTime == old(lastMoveTime)
    {
      var next := st;
      var travel, count := TravelYTotal(st.touches);
      if count != 0 {
        var avg := travel / count as real;
        next := next.(threeFingerAccumY := next.threeFingerAccumY + -avg);
        var acts: seq<Action> := [];
        if !next.threeFingerTriggeredUp && next.threeFingerAccumY >= THREE_FINGER_TRIGGER {
          next := next.(threeFingerTriggeredUp := true);
          acts := acts + [TASK_SWITCH];
        }
        if !next.threeFingerTriggeredDown && next.threeFingerAccumY <= -THREE_FINGER_TRIGGER {
          next := next.(threeFingerTriggeredDown := true);
          acts := acts + [TASK_EXIT];
        }
        log := log + acts;
      }
      sessions := sessions.Set(sid, next);
    }

    /** The dispatch of `process_raw_move` after the bookkeeping. */
    method MoveDispatch(sid: SessionKey, tid: TouchId, p: Prepared, now: int)
      requires p.session.touches.Valid()
      modifies this
      ensures State() == Dispatch(old(State()), env, sid, tid, p, now)
    {
      var st := p.session;
      if st.suppressMoveUntil > now {
        sessions := sessions.Set(sid, SuppressDeltas(st, tid));
        return;
      }
      var n := st.touches.Len();
      if n == 1 {
        sessions := sessions.Set(sid, st);
        ProcessMoveDelta(p.dx, p.dy, now);
      } else if n == 2 {
        TwoFingerPath(sid, st);
      } else if n == 3 {
        ThreeFingerPath(sid, st);
      } else {
        sessions := sessions.Set(sid, st);
      }
    }

    /** The first half of `process_raw_move`: bookkeeping, stale-hold release and hold-arm, with their injector calls. */
    method PrepareTouchMove(sid: SessionKey, tid: TouchId, x: real, y: real, now: int) returns (p: Prepared)
      modifies this
      ensures p == PrepareMove(SessionOf(old(sessions), sid), sid, tid, x, y, now, env.num.hypot)
      ensures State() == old(State()).(log := old(log) + p.actions)
    {
      var st := SessionOf(sessions, sid);
      var tracked := TrackMove(st, tid, x, y, env.num.hypot);
      var released := ReleaseStaleHold(tracked.session, now);
      log := log + released.actions;
      var armed := ArmHold(released.session, sid, now);
      log := log + armed.actions;
      p := Prepared(armed.session, tracked.dx, tracked.dy, released.actions + armed.actions);
    }

    /** `process_raw_move` */
    method ProcessRawMove(sid: SessionKey, tid: TouchId, x: real, y: real, now: int)
      requires Valid()
      modifies this
      ensures Valid()
      ensures State() == OnMove(old(State()), env, sid, tid, x, y, now)
    {
      OnMovePreservesInv(State(), env, sid, tid, x, y, now);
      var p := PrepareTouchMove(sid, tid, x, y, now);
      MoveDispatch(sid, tid, p, now);
    }

    /** `process_raw_up` */
    method ProcessRawUp(sid: SessionKey, tid: TouchId, now: int)
      requires Valid()
      modifies this
      ensures Valid()
      ensures State() == OnUp(old(State()), sid, tid, now)
    {
      ghost var w0 := State();
      MovesOnScreenAppend(w0.log, Up(SessionOf(w0.sessions, sid), tid, now).actions, env.screen);
      var st := SessionOf(sessions, sid);
      var next, acts := UpRecord(st, tid, now);
      log := log + acts;
      sessions := sessions.Set(sid, next);
    }

    /** One event of a raw batch. */
    method ProcessEvent(sid: SessionKey, ev: RawEvent)
      requires Valid()
      modifies this
      ensures Valid()
      ensures State() == OnEvent(old(State()), env, sid, ev)
    {
      if ev.kind == "down" {
        ProcessRawDown(sid, ev.id, ev.x, ev.y, ev.at);
      } else if ev.kind == "move" {
        ProcessRawMove(sid, ev.id, ev.x, ev.y, ev.at);
      } else if ev.kind == "up" {
        ProcessRawUp(sid, ev.id, ev.at);
      }
    }

    /** `on_raw_batch_socket` / `raw_http` */
    method OnRawBatch(sid: SessionKey, events: seq<RawEvent>)
      requires Valid()
      modifies this
      ensures Valid()
      ensures State() == OnBatch(old(State()), env, sid, events)
    {
      ghost var w0 := State();
      assert Shaped(w0.sessions);
      var i := 0;
      while i < |events|
        invariant 0 <= i <= |events|
        invariant Valid()
        invariant State() == OnBatch(w0, env, sid, events[..i])
      {
        OnBatchPrefix(w0, env, sid, events, i);
        ProcessEvent(sid, events[i]);
        i := i + 1;
      }
      assert events[..i] == events;
    }

    // ---------------------------------------------------------- other handlers

    /** `on_mousedown` / `http_mousedown` */
    method OnMouseDown(sid: SessionKey, now: int)
      requires Valid()
      modifies this
      ensures Valid()
      ensures State() == Server.OnMouseDown(old(State()), sid, now)
    {
      MouseDownPreservesInv(State(), env, sid, now);
      log := log + [MouseDown];
      var st := SessionOf(sessions, sid);
      st := st.(doubleTapHoldActive := true, lastMouseDownTime := now, lastMouseDownSid := Some(sid));
      sessions := sessions.Set(sid, st);
    }

    /** `on_mouseup` / `http_mouseup` */
    method OnMouseUp(sid: SessionKey)
      requires Valid()
      modifies this
      ensures Valid()
      ensures State() == Server.OnMouseUp(old(State()), sid)
    {
      MouseUpPreservesInv(State(), env, sid);
      log := log + [MouseUp];
      var st := SessionOf(sessions, sid);
      st := st.(doubleTapHoldActive := false, lastMouseDownTime := 0, lastMouseDownSid := None);
      sessions := sessions.Set(sid, st);
    }

    /** `on_key` / `http_key` */
    method OnKey(e: KeyEvent)
      requires Valid()
      modifies this
      ensures Valid()
      ensures State() == Server.OnKey(old(State()), e)
    {
      KeyPreservesInv(State(), env, e);
      ghost var w := State();
      var acts := KeyActions(e);
      log := log + acts;
      assert State() == w.(log := w.log + acts);
    }

    /** `on_client_disconnect` */
    method OnClientDisconnect(sid: SessionKey)
      requires Valid()
      modifies this
      ensures Valid()
      ensures State() == OnDisconnect(old(State()), sid)
    {
      DisconnectPreservesInv(State(), env, sid);
      ghost var w := State();
      if sid in sessions.entries {
        var next, released := DisconnectRecord(sessions.entries[sid]);
        log := log + released;
        sessions := sessions.Set(sid, next);
        assert State() == Update(w, sid, next).(log := w.log + released);
      }
    }

    /** `force_release_all_holds` */
    method ForceReleaseAllHolds()
      requires Valid()
      modifies this
      ensures Valid()
      ensures State() == Server.ForceReleaseAllHolds(old(State()))
    {
      ForceReleasePreservesInv(State(), env);
      log := log + [MouseUp];
      sessions := ClearHolds(sessions);
    }

    /** One pass of `_hold_watchdog_loop` at `now`. */
    method HoldWatchdogStep(now: int)
      requires Valid()
      modifies this
      ensures Valid()
      ensures State() == WatchdogTick(old(State()), now)
    {
      WatchdogPreservesInv(State(), env, now);
      var store, released := WatchdogPass(sessions, now);
      sessions, log := store, log + released;
    }
  }
}
