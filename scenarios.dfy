/**
 * Gesture sequences played through the Server handlers, from a connection
 * the store has not seen yet: what a user does on the phone and what the
 * desktop receives. The last group pins down behaviour of app.py that looks
 * accidental but is reproduced as written.
 */
module Scenarios {
  import opened Options
  import opened PyNum
  import opened PyDict
  import opened Injector
  import opened Sessions
  import opened Gestures
  import opened Server
  import MA = MotionAccumulator
  import ServerProperties

  /** A down then an up on the same connection act on its record as the session functions say. */
  lemma DownThenUp(w: World, sid: SessionKey, tid: TouchId, x: real, y: real, down: int, up: int)
    ensures var r := OnUp(OnDown(w, sid, tid, x, y, down), sid, tid, up);
      var e := Up(Down(SessionOf(w.sessions, sid), tid, x, y, down), tid, up);
      r.log == w.log + e.actions && r.sessions.entries[sid] == e.session
  {
    var w1 := OnDown(w, sid, tid, x, y, down);
    assert SessionOf(w1.sessions, sid) == Down(SessionOf(w.sessions, sid), tid, x, y, down);
  }

  /** On a record with no touch, no hold and no double tap under way, a quick touch is a left click that arms the double tap. */
  lemma QuickTouchIsTap(st: Session, tid: TouchId, x: real, y: real, down: int, up: int)
    requires st.touches.entries == map[] && !st.doubleTapExpectHold && !st.doubleTapHoldActive && !st.pendingDoubleTap
    requires up - down <= TAP_TIMEOUT_MS
    ensures var e := Up(Down(st, tid, x, y, down), tid, up);
      && e.actions == [Click(Left)]
      && e.session.pendingDoubleTap && e.session.lastTapTime == up
      && e.session.touches.entries == map[]
      && !e.session.doubleTapExpectHold && !e.session.doubleTapHoldActive
  {
    var s1 := Down(st, tid, x, y, down);
    assert s1.touches.entries == map[tid := FreshTouch(x, y, down, 1)];
    assert !s1.doubleTapExpectHold;
    assert Tapped(s1, tid, up);
    assert s1.touches.Del(tid).entries == map[];
  }

  /** A quick touch with one finger is a left click, and arms the double tap. */
  lemma SingleTapClicks(w: World, sid: SessionKey, tid: TouchId, x: real, y: real, down: int, up: int)
    requires sid !in w.sessions.entries
    requires up - down <= TAP_TIMEOUT_MS
    ensures var r := OnUp(OnDown(w, sid, tid, x, y, down), sid, tid, up);
      && r.log == w.log + [Click(Left)]
      && r.sessions.entries[sid].pendingDoubleTap && r.sessions.entries[sid].lastTapTime == up
      && r.sessions.entries[sid].touches.entries == map[]
  {
    DownThenUp(w, sid, tid, x, y, down, up);
    QuickTouchIsTap(NewSession(), tid, x, y, down, up);
  }

  /** A quick touch with a second finger while the first rests is a right click, and moves are suppressed for a while. */
  lemma SecondFingerTapIsRightClick(st: Session, a: TouchId, b: TouchId, x: real, y: real, down: int, up: int)
    requires st.touches.entries.Keys == {a} && a != b && !st.doubleTapExpectHold && !ChainsDoubleTap(st, down)
    requires up - down <= TAP_TIMEOUT_MS
    ensures var e := Up(Down(st, b, x, y, down), b, up);
      && e.actions[0] == Click(Right)
      && e.session.suppressMoveUntil == up + RIGHT_CLICK_SUPPRESS_MS
  {
    var s1 := Down(st, b, x, y, down);
    assert |st.touches.entries| == 1 by { assert st.touches.entries.Keys == {a}; }
    assert s1.touches.entries[b] == FreshTouch(x, y, down, 2);
    assert Tapped(s1, b, up);
    assert !EndsDoubleTap(s1, b, up);
  }

  /** A quick touch soon after a tap, on a record with no touch, is the second tap: one double click. */
  lemma SecondQuickTouchIsDoubleClick(st: Session, tid: TouchId, x: real, y: real, down: int, up: int)
    requires st.touches.entries == map[] && st.pendingDoubleTap
    requires down - st.lastTapTime <= DOUBLE_TAP_MAX_INTERVAL_MS && up - down <= TAP_TIMEOUT_MS
    ensures var e := Up(Down(st, tid, x, y, down), tid, up);
      && e.actions == [DoubleClick]
      && !e.session.doubleTapExpectHold && !e.session.pendingDoubleTap && e.session.lastTapTime == 0
  {
    var s1 := Down(st, tid, x, y, down);
    assert ChainsDoubleTap(st, down);
    assert s1.touches.entries == map[tid := FreshTouch(x, y, down, 1)];
    assert EndsDoubleTap(s1, tid, up);
  }

  /**
   * After a tap (the record as `SingleTapClicks` leaves it), a second quick
   * touch within the interval is one double click, which ends the double tap.
   */
  lemma SecondTapDoubleClicks(w: World, sid: SessionKey, tid: TouchId, x: real, y: real, down: int, up: int)
    requires sid in w.sessions.entries
    requires var st := w.sessions.entries[sid];
      st.touches.entries == map[] && st.pendingDoubleTap && down - st.lastTapTime <= DOUBLE_TAP_MAX_INTERVAL_MS
    requires up - down <= TAP_TIMEOUT_MS
    ensures var r := OnUp(OnDown(w, sid, tid, x, y, down), sid, tid, up);
      && r.log == w.log + [DoubleClick]
      && !r.sessions.entries[sid].doubleTapExpectHold && !r.sessions.entries[sid].pendingDoubleTap
  {
    DownThenUp(w, sid, tid, x, y, down, up);
    SecondQuickTouchIsDoubleClick(w.sessions.entries[sid], tid, x, y, down, up);
  }

  /** The bookkeeping of a move on a record whose second tap is held past the trigger presses the button and starts the hold. */
  lemma HoldPressPrepares(st: Session, sid: SessionKey, tid: TouchId, x: real, y: real, now: int,
                          hypot: (real, real) -> real, p: Prepared)
    requires HoldDue(st, now) && !st.doubleTapHoldActive
    requires p == PrepareMove(st, sid, tid, x, y, now, hypot)
    ensures p.actions == [MouseDown]
    ensures p.session.doubleTapHoldActive && p.session.lastMouseDownTime == now && p.session.lastMouseDownSid == Some(sid)
  {
    var tracked := TrackMove(st, tid, x, y, hypot);
    assert !HoldExpired(tracked.session, now) && HoldDue(tracked.session, now);
  }

  /** A move on a record whose second tap is held past the trigger presses the button before anything else. */
  lemma HeldSecondTapPresses(w: World, env: Env, sid: SessionKey, tid: TouchId, mx: real, my: real, m: int)
    requires Shaped(w.sessions) && sid in w.sessions.entries
    requires var st := w.sessions.entries[sid];
      && HoldDue(st, m) && !st.doubleTapHoldActive
    ensures var r := OnMove(w, env, sid, tid, mx, my, m);
      && |r.log| > |w.log| && r.log[|w.log|] == MouseDown
      && r.sessions.entries[sid].doubleTapHoldActive && r.sessions.entries[sid].lastMouseDownTime == m
      && r.sessions.entries[sid].lastMouseDownSid == Some(sid)
  {
    var st := SessionOf(w.sessions, sid);
    var p := PrepareMove(st, sid, tid, mx, my, m, env.num.hypot);
    HoldPressPrepares(st, sid, tid, mx, my, m, env.num.hypot, p);
    var w1 := w.(log := w.log + [MouseDown]);
    var r := Dispatch(w1, env, sid, tid, p, m);
    assert OnMove(w, env, sid, tid, mx, my, m) == r;
    ServerProperties.DispatchAppends(w1, env, sid, tid, p, m);
    ServerProperties.DispatchKeepsHold(w1, env, sid, tid, p, m);
    assert r.log[|w.log|] == w1.log[|w.log|];
  }

  /** After a tap, a second touch within the interval makes the record wait for the hold. */
  lemma SecondTouchExpectsHold(w: World, sid: SessionKey, tid: TouchId, x: real, y: real, down: int)
    requires sid in w.sessions.entries
    requires var st := w.sessions.entries[sid];
      st.pendingDoubleTap && down - st.lastTapTime <= DOUBLE_TAP_MAX_INTERVAL_MS
    ensures var st := OnDown(w, sid, tid, x, y, down).sessions.entries[sid];
      && st.doubleTapExpectHold && st.doubleTapDownTime == down && !st.pendingDoubleTap
  {
  }

  /** Lifting the last finger of a held drag releases the button. */
  lemma LiftingLastFingerReleases(w: World, sid: SessionKey, tid: TouchId, now: int)
    requires sid in w.sessions.entries
    requires var st := w.sessions.entries[sid];
      && st.doubleTapHoldActive && !st.doubleTapExpectHold && st.touches.entries.Keys <= {tid}
    ensures var r := OnUp(w, sid, tid, now);
      && r.log[|r.log| - 1] == MouseUp
      && !r.sessions.entries[sid].doubleTapHoldActive && r.sessions.entries[sid].lastMouseDownTime == 0
  {
    var st := w.sessions.entries[sid];
    assert st.touches.Del(tid).entries == map[];
    assert ReleasesHold(st, tid, now);
  }

  // ------------------------------------------------------------ reproduced quirks

  /**
   * The double click returns early: a hold still active is not released,
   * and the three-finger state is not reset, even though no touch is left.
   */
  lemma DoubleClickSkipsCleanup(st: Session, tid: TouchId, now: int)
    requires EndsDoubleTap(st, tid, now) && st.doubleTapHoldActive && st.threeFingerTriggeredUp
    ensures var r := Up(st, tid, now);
      && r.actions == [DoubleClick]
      && r.session.doubleTapHoldActive
      && r.session.threeFingerTriggeredUp
  {
  }

  /** A zero delta with 0.3 pixel carried on x: the forced step moves the cursor one pixel right and leaves -0.7 behind. */
  lemma ZeroDeltaForcedStep(m: MA.MotionState, cursor: MA.Point, now: int, screen: MA.Screen, num: MA.Numerics)
    requires m.accumX == 0.3 && m.accumY == 0.0
    ensures MA.MoveDelta(m, cursor, 0.0, 0.0, now, screen, num).state.accumX == -0.7
    ensures MA.MoveDelta(m, cursor, 0.0, 0.0, now, screen, num).actions ==
      [MoveTo(Clamp(screen.left, screen.left + screen.width - 1, cursor.x + 1),
              Clamp(screen.top, screen.top + screen.height - 1, cursor.y))]
  {
    var a := MA.Acceleration(m.lastTime, now, 0.0, 0.0, num);
    assert MA.Accelerated(0.0, a) == 0.0;
    MA.ForcedStepOvershoots();
    assert MA.MotionAxis(0.0, 0.0) == MA.AxisStep(0, 0.0) by {
      RoundIsZero(0.0);
    }
    var mv := MA.MoveDelta(m, cursor, 0.0, 0.0, now, screen, num);
    assert mv.stepX == 1 && mv.stepY == 0;
  }

  /**
   * The two-finger path feeds its scroll value to the accumulator even when
   * it is 0: with 0.3 left over, a two-finger move with no vertical drag
   * scrolls one step up and leaves -0.7, and the next such move scrolls
   * one step back down.
   */
  lemma TwoFingerResidueScrolls(d: Dict<TouchId, Touch>)
    requires d.Valid() && |d.order| != 0
    requires forall k :: k in d.entries ==> d.entries[k].lastDeltaY == 0.0
    ensures TwoFingerScroll(d, 0.3).actions == [Scroll(1)] && TwoFingerScroll(d, 0.3).accumY == -0.7
    ensures TwoFingerScroll(ZeroDeltaY(d), -0.7).actions == [Scroll(-1)]
    ensures TwoFingerScroll(ZeroDeltaY(d), -0.7).accumY == 0.3
  {
    NoDragScrollsNothing(d);
    NoDragScrollsNothing(ZeroDeltaY(d));
    assert ScrollAccumulator.WheelWithMinStep(0.3, 0.0) == ScrollAccumulator.WheelStep(1, -0.7);
    assert ScrollAccumulator.WheelWithMinStep(-0.7, 0.0) == ScrollAccumulator.WheelStep(-1, 0.3);
  }

  /** With no pending vertical delta on any touch, the two-finger scroll value is 0. */
  lemma NoDragScrollsNothing(d: Dict<TouchId, Touch>)
    requires d.Valid() && |d.order| != 0
    requires forall k :: k in d.entries ==> d.entries[k].lastDeltaY == 0.0
    ensures ScrollValue(MeanDeltaY(d), MeanSpeed(d)) == 0.0
  {
    forall i | 0 <= i < |d.order|
      ensures d.order[i] in d.entries && FieldValue(d.entries[d.order[i]], DeltaY) == 0.0
      ensures FieldValue(d.entries[d.order[i]], AbsDeltaY) == 0.0
    {
    }
    SumOverZero(d.entries, d.order, DeltaY);
    SumOverZero(d.entries, d.order, AbsDeltaY);
  }

  /**
   * A move that is not suppressed and finds one touch on its record goes
   * to the motion accumulator alone: after the hold actions, the cursor
   * moves exactly as the accumulator says.
   */
  lemma OneFingerMoveIsMotion(w: World, env: Env, sid: SessionKey, tid: TouchId, x: real, y: real, now: int, p: Prepared)
    requires Shaped(w.sessions)
    requires p == PrepareMove(SessionOf(w.sessions, sid), sid, tid, x, y, now, env.num.hypot)
    requires !Suppressed(p, now) && p.session.touches.Len() == 1
    ensures OnMove(w, env, sid, tid, x, y, now).log
              == w.log + p.actions + MA.MoveDelta(w.motion, w.cursor, p.dx, p.dy, now, env.screen, env.num).actions
    ensures OnMove(w, env, sid, tid, x, y, now).motion
              == MA.MoveDelta(w.motion, w.cursor, p.dx, p.dy, now, env.screen, env.num).state
    ensures OnMove(w, env, sid, tid, x, y, now).cursor
              == MA.MoveDelta(w.motion, w.cursor, p.dx, p.dy, now, env.screen, env.num).cursor
    ensures OnMove(w, env, sid, tid, x, y, now).scroll == w.scroll
  {
    var w1 := w.(log := w.log + p.actions);
    assert OnMove(w, env, sid, tid, x, y, now) == Dispatch(w1, env, sid, tid, p, now);
  }

  /** A record with one touch, not `ghostId`, no hold under way and no move suppression at `now`. */
  predicate LoneOtherTouch(st: Session, ghostId: TouchId, now: int)
  {
    && st.touches.Len() == 1 && ghostId !in st.touches.entries
    && !st.doubleTapHoldActive && !st.doubleTapExpectHold && st.suppressMoveUntil <= now
  }

  /** On such a record, a move of the unknown id prepares a zero delta and no hold action. */
  lemma UnknownTouchPrepares(st: Session, sid: SessionKey, ghostId: TouchId,
                             x: real, y: real, now: int, hypot: (real, real) -> real, p: Prepared)
    requires LoneOtherTouch(st, ghostId, now)
    requires p == PrepareMove(st, sid, ghostId, x, y, now, hypot)
    ensures p.dx == 0.0 && p.dy == 0.0 && p.actions == []
    ensures p.session.touches.Len() == 1 && !Suppressed(p, now)
  { }

  /**
   * A move of a touch id the record does not know still reaches the motion
   * accumulator, with a zero delta; with a fraction carried, that zero delta
   * can move the cursor (ZeroDeltaForcedStep).
   */
  lemma UnknownTouchFeedsZeroDelta(w: World, env: Env, sid: SessionKey, ghostId: TouchId, x: real, y: real, now: int)
    requires sid in w.sessions.entries && Shaped(w.sessions)
    requires LoneOtherTouch(w.sessions.entries[sid], ghostId, now)
    ensures OnMove(w, env, sid, ghostId, x, y, now).log
              == w.log + MA.MoveDelta(w.motion, w.cursor, 0.0, 0.0, now, env.screen, env.num).actions
    ensures OnMove(w, env, sid, ghostId, x, y, now).motion
              == MA.MoveDelta(w.motion, w.cursor, 0.0, 0.0, now, env.screen, env.num).state
  {
    var st := SessionOf(w.sessions, sid);
    var p := PrepareMove(st, sid, ghostId, x, y, now, env.num.hypot);
    UnknownTouchPrepares(st, sid, ghostId, x, y, now, env.num.hypot, p);
    OneFingerMoveIsMotion(w, env, sid, ghostId, x, y, now, p);
    assert w.log + p.actions == w.log;
  }

  /**
   * The three-finger path adds the whole travel since the fingers went down
   * on every move, so two moves in a row with no further travel count it twice.
   */
  lemma ThreeFingerTravelCountedAgain(st: Session)
    requires st.touches.Valid() && |st.touches.order| != 0
    ensures var once := ThreeFingerSwipe(st).session;
      ThreeFingerSwipe(once).session.threeFingerAccumY
        == st.threeFingerAccumY - 2.0 * (SumTouches(st.touches, TravelY) / |st.touches.order| as real)
  {
  }

  /** A disconnect keeps the three-finger latches and the right-click suppression of the record. */
  lemma DisconnectKeepsLatches(st: Session)
    ensures var r := DisconnectSession(st).session;
      && r.threeFingerTriggeredUp == st.threeFingerTriggeredUp
      && r.threeFingerTriggeredDown == st.threeFingerTriggeredDown
      && r.suppressMoveUntil == st.suppressMoveUntil
  {
  }

  /** A hold recorded at time 0 looks like no hold to both the move check and the watchdog, and is never released by them. */
  lemma HoldAtTimeZeroNeverExpires(st: Session, now: int)
    requires st.doubleTapHoldActive && st.lastMouseDownTime == 0
    ensures !HoldExpired(st, now)
    ensures WatchdogSession(st, now).actions == []
  {
  }
}
