/**
 * What the handlers of the Server module keep and promise across calls:
 * the store, the accumulators and the injector log stay well formed, the
 * watchdog is idempotent, and the gesture rules play out as designed,
 * quirks included.
 */
module ServerProperties {
  import opened Options
  import opened PyDict
  import opened Injector
  import opened Sessions
  import opened Gestures
  import opened Keys
  import opened Server
  import MA = MotionAccumulator
  import SA = ScrollAccumulator

  lemma MovesOnScreenAppend(a: seq<Action>, b: seq<Action>, screen: MA.Screen)
    requires MovesOnScreen(a, screen)
    requires NoMotion(b) || MovesOnScreen(b, screen)
    ensures MovesOnScreen(a + b, screen)
  {
    forall i | 0 <= i < |a + b| && (a + b)[i].MoveTo?
      ensures MA.OnScreen(screen, MA.Point((a + b)[i].x, (a + b)[i].y))
    {
      if i >= |a| { assert (a + b)[i] == b[i - |a|]; }
    }
  }

  /** The touch-map updates of the move dispatch keep every touch record consistent. */
  lemma DispatchKeepsRecords(w: World, env: Env, sid: SessionKey, tid: TouchId, p: Prepared, now: int)
    requires SessionInv(p.session)
    ensures SessionInv(Dispatch(w, env, sid, tid, p, now).sessions.entries[sid])
  {
    var r := Dispatch(w, env, sid, tid, p, now);
    var t := p.session.touches;
    if Suppressed(p, now) {
      var st := SuppressDeltas(p.session, tid);
      forall k | k in st.touches.entries ensures TouchInv(st.touches.entries[k]) {
        if k != tid { assert st.touches.entries[k] == t.entries[k]; }
      }
    } else if t.Len() == 2 {
      var z := TwoFingerScroll(t, w.scroll.accumY).touches;
      forall k | k in z.entries ensures TouchInv(z.entries[k]) {
        assert z.entries[k] == t.entries[k].(lastDeltaY := z.entries[k].lastDeltaY);
      }
    }
  }

  /** A dispatch only appends to the log. */
  lemma DispatchAppends(w: World, env: Env, sid: SessionKey, tid: TouchId, p: Prepared, now: int)
    requires p.session.touches.Valid()
    ensures w.log <= Dispatch(w, env, sid, tid, p, now).log
  {
    var r := Dispatch(w, env, sid, tid, p, now);
    if Suppressed(p, now) || p.session.touches.Len() !in {1, 2, 3} {
      assert r.log == w.log;
    } else if p.session.touches.Len() == 1 {
      assert r.log == w.log + MA.MoveDelta(w.motion, w.cursor, p.dx, p.dy, now, env.screen, env.num).actions;
    } else if p.session.touches.Len() == 2 {
      assert r.log == w.log + TwoFingerScroll(p.session.touches, w.scroll.accumY).actions;
    } else {
      assert r.log == w.log + ThreeFingerSwipe(p.session).actions;
    }
  }

  /** A dispatch leaves the double-tap hold of the record as the bookkeeping set it. */
  lemma DispatchKeepsHold(w: World, env: Env, sid: SessionKey, tid: TouchId, p: Prepared, now: int)
    requires p.session.touches.Valid()
    ensures var st := Dispatch(w, env, sid, tid, p, now).sessions.entries[sid];
      && st.doubleTapHoldActive == p.session.doubleTapHoldActive
      && st.lastMouseDownTime == p.session.lastMouseDownTime && st.lastMouseDownSid == p.session.lastMouseDownSid
  {
  }

  /** The record stored by a dispatch keeps the store consistent. */
  lemma DispatchKeepsStore(w: World, env: Env, sid: SessionKey, tid: TouchId, p: Prepared, now: int)
    requires StoreOk(w.sessions) && SessionInv(p.session)
    ensures StoreOk(Dispatch(w, env, sid, tid, p, now).sessions)
  {
    var r := Dispatch(w, env, sid, tid, p, now);
    DispatchKeepsRecords(w, env, sid, tid, p, now);
    forall k | k in r.sessions.entries ensures SessionInv(r.sessions.entries[k]) {
      if k != sid { assert r.sessions.entries[k] == w.sessions.entries[k]; }
    }
    assert r.sessions.Valid() by {
      assert w.sessions.Set(sid, r.sessions.entries[sid]).entries == r.sessions.entries;
    }
  }

  /** The accumulators stay below one unit and every cursor move stays on screen through a dispatch. */
  lemma DispatchKeepsOutputs(w: World, env: Env, sid: SessionKey, tid: TouchId, p: Prepared, now: int)
    requires p.session.touches.Valid() && EnvOk(env)
    requires MA.Bounded(w.motion) && SA.Bounded(w.scroll) && MovesOnScreen(w.log, env.screen)
    ensures var r := Dispatch(w, env, sid, tid, p, now);
      MA.Bounded(r.motion) && SA.Bounded(r.scroll) && MovesOnScreen(r.log, env.screen)
  {
    if !Suppressed(p, now) {
      if p.session.touches.Len() == 1 {
        var mv := MA.MoveDelta(w.motion, w.cursor, p.dx, p.dy, now, env.screen, env.num);
        MovesOnScreenAppend(w.log, mv.actions, env.screen);
      } else if p.session.touches.Len() == 2 {
        MovesOnScreenAppend(w.log, TwoFingerScroll(p.session.touches, w.scroll.accumY).actions, env.screen);
      } else if p.session.touches.Len() == 3 {
        MovesOnScreenAppend(w.log, ThreeFingerSwipe(p.session).actions, env.screen);
      }
    }
  }

  /** A move keeps the invariant: records consistent, accumulators below one unit, every cursor move on screen. */
  lemma OnMovePreservesInv(w: World, env: Env, sid: SessionKey, tid: TouchId, x: real, y: real, now: int)
    requires Inv(w, env) && EnvOk(env)
    ensures Inv(OnMove(w, env, sid, tid, x, y, now), env)
  {
    var p := PrepareMove(SessionOf(w.sessions, sid), sid, tid, x, y, now, env.num.hypot);
    var w1 := w.(log := w.log + p.actions);
    MovesOnScreenAppend(w.log, p.actions, env.screen);
    DispatchKeepsStore(w1, env, sid, tid, p, now);
    DispatchKeepsOutputs(w1, env, sid, tid, p, now);
  }

  /** Every raw event keeps the invariant. */
  lemma OnEventPreservesInv(w: World, env: Env, sid: SessionKey, ev: RawEvent)
    requires Inv(w, env) && EnvOk(env)
    ensures Inv(OnEvent(w, env, sid, ev), env)
  {
    if ev.kind == "move" {
      OnMovePreservesInv(w, env, sid, ev.id, ev.x, ev.y, ev.at);
    } else if ev.kind == "up" {
      MovesOnScreenAppend(w.log, Up(SessionOf(w.sessions, sid), ev.id, ev.at).actions, env.screen);
    }
  }

  /** Every batch keeps the invariant. */
  lemma {:induction false} OnBatchPreservesInv(w: World, env: Env, sid: SessionKey, evs: seq<RawEvent>)
    requires Inv(w, env) && EnvOk(env)
    ensures Inv(OnBatch(w, env, sid, evs), env)
    decreases |evs|
  {
    if evs != [] {
      OnEventPreservesInv(w, env, sid, evs[0]);
      OnBatchPreservesInv(OnEvent(w, env, sid, evs[0]), env, sid, evs[1..]);
    }
  }

  /** Both scroll handlers keep the invariant. */
  lemma ScrollPreservesInv(w: World, env: Env, sx: real, sy: real)
    requires Inv(w, env)
    ensures Inv(OnScrollHttp(w, sx, sy), env) && Inv(OnScrollSocket(w, sx, sy), env)
  {
    MovesOnScreenAppend(w.log, SA.ScrollHttp(w.scroll, sx, sy).actions, env.screen);
    MovesOnScreenAppend(w.log, SA.ScrollSocket(w.scroll, sx, sy).actions, env.screen);
  }

  lemma MouseDownPreservesInv(w: World, env: Env, sid: SessionKey, now: int)
    requires Inv(w, env)
    ensures Inv(OnMouseDown(w, sid, now), env)
  {
    MovesOnScreenAppend(w.log, [MouseDown], env.screen);
  }

  lemma MouseUpPreservesInv(w: World, env: Env, sid: SessionKey)
    requires Inv(w, env)
    ensures Inv(OnMouseUp(w, sid), env)
  {
    MovesOnScreenAppend(w.log, [MouseUp], env.screen);
  }

  lemma KeyPreservesInv(w: World, env: Env, e: KeyEvent)
    requires Inv(w, env)
    ensures Inv(OnKey(w, e), env)
  {
    MovesOnScreenAppend(w.log, KeyActions(e), env.screen);
  }

  lemma DisconnectPreservesInv(w: World, env: Env, sid: SessionKey)
    requires Inv(w, env)
    ensures Inv(OnDisconnect(w, sid), env)
  {
    if sid in w.sessions.entries {
      var d := DisconnectSession(w.sessions.entries[sid]);
      MovesOnScreenAppend(w.log, d.actions, env.screen);
      assert SessionInv(d.session);
    }
  }

  lemma ForceReleasePreservesInv(w: World, env: Env)
    requires Inv(w, env)
    ensures Inv(ForceReleaseAllHolds(w), env)
  {
    MovesOnScreenAppend(w.log, [MouseUp], env.screen);
    var f := ClearAllHolds(w.sessions);
    forall k | k in f.entries ensures SessionInv(f.entries[k]) {
      assert f.entries[k].touches == w.sessions.entries[k].touches;
    }
    assert f.Valid();
  }

  lemma WatchdogPreservesInv(w: World, env: Env, now: int)
    requires Inv(w, env)
    ensures Inv(WatchdogTick(w, now), env)
  {
    var n := ExpiredCount(w.sessions.entries, w.sessions.order, now);
    MovesOnScreenAppend(w.log, Repeat(MouseUp, n), env.screen);
    var g := WatchdogRecords(w.sessions, now);
    forall k | k in g.entries ensures SessionInv(g.entries[k]) {
      assert g.entries[k].touches == w.sessions.entries[k].touches;
    }
    assert g.Valid();
  }

  // ------------------------------------------------------------ recovery

  /** With no expired hold among `ids`, the watchdog counts none. */
  lemma {:induction false} NoneExpiredCountsZero(m: map<SessionKey, Session>, ids: seq<SessionKey>, now: int)
    requires forall k :: k in m ==> !HoldExpired(m[k], now)
    ensures ExpiredCount(m, ids, now) == 0
  {
    if ids != [] {
      NoneExpiredCountsZero(m, ids[..|ids| - 1], now);
    }
  }

  /** A second watchdog pass at the same time changes nothing. */
  lemma WatchdogIdempotent(w: World, now: int)
    ensures WatchdogTick(WatchdogTick(w, now), now) == WatchdogTick(w, now)
  {
    var t := WatchdogTick(w, now);
    forall k | k in t.sessions.entries ensures !HoldExpired(t.sessions.entries[k], now) {
    }
    NoneExpiredCountsZero(t.sessions.entries, t.sessions.order, now);
    var t2 := WatchdogTick(t, now);
    assert t2.log == t.log;
    assert t2.sessions.entries == t.sessions.entries;
  }

  /** Forcing the release twice leaves the records as forcing it once. */
  lemma ForceReleaseIdempotent(w: World)
    ensures ForceReleaseAllHolds(ForceReleaseAllHolds(w)).sessions == ForceReleaseAllHolds(w).sessions
  {
    var once := ForceReleaseAllHolds(w).sessions;
    var twice := ForceReleaseAllHolds(ForceReleaseAllHolds(w)).sessions;
    assert twice.entries == once.entries;
  }

  /** A hold pressed through `mousedown` and never released is released by the watchdog once the timeout has passed. */
  lemma WatchdogRecoversForgottenHold(w: World, sid: SessionKey, pressed: int, later: int)
    requires w.sessions.Valid()
    requires pressed != 0 && later - pressed > DOUBLE_TAP_HOLD_TIMEOUT_MS
    ensures var r := WatchdogTick(OnMouseDown(w, sid, pressed), later);
      && !r.sessions.entries[sid].doubleTapHoldActive
      && r.sessions.entries[sid].lastMouseDownSid == None
      && ExpiredCount(OnMouseDown(w, sid, pressed).sessions.entries, OnMouseDown(w, sid, pressed).sessions.order, later) >= 1
  {
    var d := OnMouseDown(w, sid, pressed);
    assert HoldExpired(d.sessions.entries[sid], later);
    assert sid in d.sessions.order by {
      assert w.sessions.Set(sid, d.sessions.entries[sid]) == d.sessions;
    }
    ExpiredCountPositive(d.sessions.entries, d.sessions.order, sid, later);
  }

  lemma {:induction false} ExpiredCountPositive(m: map<SessionKey, Session>, ids: seq<SessionKey>, sid: SessionKey, now: int)
    requires sid in ids && sid in m && HoldExpired(m[sid], now)
    ensures ExpiredCount(m, ids, now) >= 1
  {
    if ids[|ids| - 1] != sid {
      assert sid in ids[..|ids| - 1] by {
        var i :| 0 <= i < |ids| && ids[i] == sid;
        assert ids[..|ids| - 1][i] == sid;
      }
      ExpiredCountPositive(m, ids[..|ids| - 1], sid, now);
    }
  }
}
