/**
 * The whole interpreter of app.py as a value: the session store
 * (`touch_state`), the motion and scroll accumulators, the cursor position
 * the injector reports, and the log of injector calls. Every handler is a
 * function from the world before the call to the world after it.
 */
module Server {
  import opened Options
  import opened PyNum
  import opened PyDict
  import opened Injector
  import opened Sessions
  import opened Gestures
  import opened Keys
  import MA = MotionAccumulator
  import SA = ScrollAccumulator

  datatype World = World(
    sessions: Dict<SessionKey, Session>,
    motion: MA.MotionState,
    scroll: SA.ScrollState,
    cursor: MA.Point,
    log: seq<Action>)

  /** What the process finds out at start-up: the virtual screen, and the numerics it relies on. */
  datatype Env = Env(screen: MA.Screen, num: MA.Numerics)

  ghost predicate EnvOk(env: Env)
  {
    MA.ValidNumerics(env.num) && env.screen.width >= 1 && env.screen.height >= 1
  }

  /** The store and every record's touch map are well-formed dicts. */
  ghost predicate Shaped(store: Dict<SessionKey, Session>)
  {
    store.Valid() && forall sid :: sid in store.entries ==> store.entries[sid].touches.Valid()
  }

  /** Every stored record satisfies the record invariant. */
  ghost predicate StoreOk(store: Dict<SessionKey, Session>)
  {
    store.Valid() && forall sid :: sid in store.entries ==> SessionInv(store.entries[sid])
  }

  /** Every cursor move in `acts` lands on the virtual screen. */
  predicate MovesOnScreen(acts: seq<Action>, screen: MA.Screen)
  {
    forall i :: 0 <= i < |acts| && acts[i].MoveTo? ==> MA.OnScreen(screen, MA.Point(acts[i].x, acts[i].y))
  }

  /** The invariant every handler keeps. */
  ghost predicate Inv(w: World, env: Env)
  {
    && StoreOk(w.sessions)
    && MA.Bounded(w.motion)
    && SA.Bounded(w.scroll)
    && MovesOnScreen(w.log, env.screen)
  }

  /** The state at start-up, the cursor being wherever the operating system put it. */
  function Initial(cursor: MA.Point): (w: World)
    ensures forall env :: Inv(w, env)
    ensures w.log == [] && w.sessions.entries == map[]
  {
    World(Empty(), MA.MotionState(0.0, 0.0, None), SA.ScrollState(0.0, 0.0), cursor, [])
  }

  /** Store `st` as the record of `sid` (the `setdefault` and the in-place updates together). */
  function Update(w: World, sid: SessionKey, st: Session): (r: World)
    ensures r.sessions.entries == w.sessions.entries[sid := st]
    ensures r.sessions.entries.Keys == w.sessions.entries.Keys + {sid}
    ensures StoreOk(w.sessions) && SessionInv(st) ==> StoreOk(r.sessions)
    ensures Shaped(w.sessions) && st.touches.Valid() ==> Shaped(r.sessions)
    ensures r == w.(sessions := r.sessions)
  {
    w.(sessions := w.sessions.Set(sid, st))
  }

  /** `r` differs from `w` at most in the record of `sid` and in what was appended to the log. */
  predicate OnlySession(w: World, r: World, sid: SessionKey)
  {
    && r.sessions.entries.Keys == w.sessions.entries.Keys + {sid}
    && (forall k :: k in w.sessions.entries && k != sid ==> r.sessions.entries[k] == w.sessions.entries[k])
    && r.motion == w.motion && r.scroll == w.scroll && r.cursor == w.cursor
    && |w.log| <= |r.log| && r.log[..|w.log|] == w.log
  }

  // ------------------------------------------------------------ raw touch events

  /** `process_raw_down` */
  function OnDown(w: World, sid: SessionKey, tid: TouchId, x: real, y: real, now: int): (r: World)
    ensures OnlySession(w, r, sid) && r.log == w.log
    ensures r.sessions.entries[sid] == Down(SessionOf(w.sessions, sid), tid, x, y, now)
    ensures StoreOk(w.sessions) ==> StoreOk(r.sessions)
    ensures Shaped(w.sessions) ==> Shaped(r.sessions)
  {
    Update(w, sid, Down(SessionOf(w.sessions, sid), tid, x, y, now))
  }

  /** The part of a move before the dispatch: bookkeeping, stale-hold release, hold-arm. */
  datatype Prepared = Prepared(session: Session, dx: real, dy: real, actions: seq<Action>)

  function PrepareMove(st: Session, sid: SessionKey, tid: TouchId, x: real, y: real, now: int,
                       hypot: (real, real) -> real): (p: Prepared)
    ensures NoMotion(p.actions) && VerticalSteps(p.actions) == 0 && HorizontalSteps(p.actions) == 0
    ensures p.actions == ReleaseStaleHold(TrackMove(st, tid, x, y, hypot).session, now).actions
                       + ArmHold(ReleaseStaleHold(TrackMove(st, tid, x, y, hypot).session, now).session, sid, now).actions
    ensures p.session.touches == TrackMove(st, tid, x, y, hypot).session.touches
    ensures p.dx == TrackMove(st, tid, x, y, hypot).dx && p.dy == TrackMove(st, tid, x, y, hypot).dy
    ensures st.touches.Valid() ==> p.session.touches.Valid()
    ensures SessionInv(st) && (forall a, b :: hypot(a, b) >= 0.0) ==> SessionInv(p.session)
  {
    var tracked := TrackMove(st, tid, x, y, hypot);
    var released := ReleaseStaleHold(tracked.session, now);
    var armed := ArmHold(released.session, sid, now);
    var acts := released.actions + armed.actions;
    assert NoMotion(acts) && VerticalSteps(acts) == 0 && HorizontalSteps(acts) == 0 by {
      SA.AppendSteps(released.actions, armed.actions);
    }
    assert SessionInv(st) && (forall a, b :: hypot(a, b) >= 0.0) ==> SessionInv(armed.session) by {
      if SessionInv(st) && (forall a, b :: hypot(a, b) >= 0.0) {
        MoveBookkeepingMonotone(st, tid, x, y, hypot);
      }
    }
    Prepared(armed.session, tracked.dx, tracked.dy, acts)
  }

  /** Moves are dropped for a while after a two-finger tap. */
  predicate Suppressed(p: Prepared, now: int)
  {
    p.session.suppressMoveUntil > now
  }

  /** The dispatch of `process_raw_move` on the touches left after the bookkeeping. */
  function Dispatch(w: World, env: Env, sid: SessionKey, tid: TouchId, p: Prepared, now: int): (r: World)
    requires p.session.touches.Valid()
    ensures sid in r.sessions.entries && r.sessions.entries == w.sessions.entries[sid := r.sessions.entries[sid]]
    ensures r.sessions.entries[sid].touches.Valid()
    // suppressed: the touch's pending deltas are dropped and nothing else happens
    ensures Suppressed(p, now) ==>
      && r.sessions.entries[sid] == SuppressDeltas(p.session, tid)
      && r.log == w.log && r.motion == w.motion && r.scroll == w.scroll && r.cursor == w.cursor
    // one touch: the motion accumulator, with a zero delta for an unknown touch
    ensures !Suppressed(p, now) && p.session.touches.Len() == 1 ==>
      var mv := MA.MoveDelta(w.motion, w.cursor, p.dx, p.dy, now, env.screen, env.num);
      && r.sessions.entries[sid] == p.session
      && r.log == w.log + mv.actions
      && r.motion == mv.state && r.cursor == mv.cursor && r.scroll == w.scroll
    // two touches: one scroll from the shared vertical accumulator, deltas consumed
    ensures !Suppressed(p, now) && p.session.touches.Len() == 2 ==>
      var tf := TwoFingerScroll(p.session.touches, w.scroll.accumY);
      && r.sessions.entries[sid] == p.session.(touches := tf.touches)
      && r.log == w.log + tf.actions
      && r.scroll == w.scroll.(accumY := tf.accumY) && r.motion == w.motion && r.cursor == w.cursor
    // three touches: the latched task-view commands
    ensures !Suppressed(p, now) && p.session.touches.Len() == 3 ==>
      var sw := ThreeFingerSwipe(p.session);
      && r.sessions.entries[sid] == sw.session
      && r.log == w.log + sw.actions
      && r.motion == w.motion && r.scroll == w.scroll && r.cursor == w.cursor
    // any other count: only the bookkeeping
    ensures !Suppressed(p, now) && p.session.touches.Len() !in {1, 2, 3} ==>
      && r.sessions.entries[sid] == p.session
      && r.log == w.log && r.motion == w.motion && r.scroll == w.scroll && r.cursor == w.cursor
  {
    if Suppressed(p, now) then
      Update(w, sid, SuppressDeltas(p.session, tid))
    else if p.session.touches.Len() == 1 then
      var mv := MA.MoveDelta(w.motion, w.cursor, p.dx, p.dy, now, env.screen, env.num);
      Update(w, sid, p.session).(motion := mv.state, cursor := mv.cursor, log := w.log + mv.actions)
    else if p.session.touches.Len() == 2 then
      var tf := TwoFingerScroll(p.session.touches, w.scroll.accumY);
      Update(w, sid, p.session.(touches := tf.touches)).(scroll := w.scroll.(accumY := tf.accumY),
                                                        log := w.log + tf.actions)
    else if p.session.touches.Len() == 3 then
      var sw := ThreeFingerSwipe(p.session);
      Update(w, sid, sw.session).(log := w.log + sw.actions)
    else
      Update(w, sid, p.session)
  }

  /** `process_raw_move`: the bookkeeping and hold handling, then the dispatch on the number of touches. */
  function OnMove(w: World, env: Env, sid: SessionKey, tid: TouchId, x: real, y: real, now: int): (r: World)
    requires Shaped(w.sessions)
    ensures Shaped(r.sessions)
    ensures r.sessions.entries.Keys == w.sessions.entries.Keys + {sid}
    ensures r == Dispatch(w.(log := w.log + MoveHoldActions(w, env, sid, tid, x, y, now)), env, sid, tid,
                          PrepareMove(SessionOf(w.sessions, sid), sid, tid, x, y, now, env.num.hypot), now)
  {
    var p := PrepareMove(SessionOf(w.sessions, sid), sid, tid, x, y, now, env.num.hypot);
    Dispatch(w.(log := w.log + p.actions), env, sid, tid, p, now)
  }

  /** The hold release and hold press a move makes before its dispatch. */
  function MoveHoldActions(w: World, env: Env, sid: SessionKey, tid: TouchId, x: real, y: real, now: int): seq<Action>
  {
    PrepareMove(SessionOf(w.sessions, sid), sid, tid, x, y, now, env.num.hypot).actions
  }

  /** `process_raw_up` */
  function OnUp(w: World, sid: SessionKey, tid: TouchId, now: int): (r: World)
    ensures OnlySession(w, r, sid)
    ensures r.sessions.entries[sid] == Up(SessionOf(w.sessions, sid), tid, now).session
    ensures r.log == w.log + Up(SessionOf(w.sessions, sid), tid, now).actions
    ensures StoreOk(w.sessions) ==> StoreOk(r.sessions)
    ensures Shaped(w.sessions) ==> Shaped(r.sessions)
  {
    var e := Up(SessionOf(w.sessions, sid), tid, now);
    Update(w, sid, e.session).(log := w.log + e.actions)
  }

  /** One element of a raw batch as decoded, with the time its handler reads. */
  datatype RawEvent = RawEvent(kind: string, id: TouchId, x: real, y: real, at: int)

  /** The dispatch of the batch loops; an unknown type is skipped. */
  function OnEvent(w: World, env: Env, sid: SessionKey, ev: RawEvent): (r: World)
    requires Shaped(w.sessions)
    ensures Shaped(r.sessions)
    ensures ev.kind !in {"down", "move", "up"} ==> r == w
  {
    if ev.kind == "down" then OnDown(w, sid, ev.id, ev.x, ev.y, ev.at)
    else if ev.kind == "move" then OnMove(w, env, sid, ev.id, ev.x, ev.y, ev.at)
    else if ev.kind == "up" then OnUp(w, sid, ev.id, ev.at)
    else w
  }

  /** `on_raw_batch_socket` / `raw_http`: the events handled one after another, in order. */
  function OnBatch(w: World, env: Env, sid: SessionKey, evs: seq<RawEvent>): (r: World)
    requires Shaped(w.sessions)
    ensures Shaped(r.sessions)
    decreases |evs|
  {
    if evs == [] then w else OnBatch(OnEvent(w, env, sid, evs[0]), env, sid, evs[1..])
  }

  /** A batch is the same as its parts sent one after the other. */
  lemma {:induction false} OnBatchSplit(w: World, env: Env, sid: SessionKey, a: seq<RawEvent>, b: seq<RawEvent>)
    requires Shaped(w.sessions)
    ensures OnBatch(w, env, sid, a + b) == OnBatch(OnBatch(w, env, sid, a), env, sid, b)
    decreases |a|
  {
    if a == [] {
      assert a + b == b;
    } else {
      assert (a + b)[1..] == a[1..] + b;
      OnBatchSplit(OnEvent(w, env, sid, a[0]), env, sid, a[1..], b);
    }
  }

  /** A batch with one more event is the batch, then that event. */
  lemma OnBatchSnoc(w: World, env: Env, sid: SessionKey, evs: seq<RawEvent>, ev: RawEvent)
    requires Shaped(w.sessions)
    ensures OnBatch(w, env, sid, evs + [ev]) == OnEvent(OnBatch(w, env, sid, evs), env, sid, ev)
  {
    OnBatchSplit(w, env, sid, evs, [ev]);
    assert [ev][1..] == [];
  }

  /** The batch up to event `i + 1` is the batch up to `i` followed by event `i`. */
  lemma OnBatchPrefix(w: World, env: Env, sid: SessionKey, evs: seq<RawEvent>, i: nat)
    requires Shaped(w.sessions) && i < |evs|
    ensures OnBatch(w, env, sid, evs[..i + 1]) == OnEvent(OnBatch(w, env, sid, evs[..i]), env, sid, evs[i])
  {
    assert evs[..i + 1] == evs[..i] + [evs[i]];
    OnBatchSnoc(w, env, sid, evs[..i], evs[i]);
  }

  // ------------------------------------------------------------ other handlers

  /** The `/scroll` HTTP handler. */
  function OnScrollHttp(w: World, scrollX: real, scrollY: real): (r: World)
    ensures r.sessions == w.sessions && r.motion == w.motion && r.cursor == w.cursor
    ensures w.log <= r.log && |r.log| <= |w.log| + 2
    ensures SA.Bounded(w.scroll) ==> SA.Bounded(r.scroll)
  {
    var o := SA.ScrollHttp(w.scroll, scrollX, scrollY);
    w.(scroll := o.state, log := w.log + o.actions)
  }

  /** The `scroll` socket handler. */
  function OnScrollSocket(w: World, scrollX: real, scrollY: real): (r: World)
    ensures r.sessions == w.sessions && r.motion == w.motion && r.cursor == w.cursor
    ensures w.log <= r.log && |r.log| <= |w.log| + 2
    ensures SA.Bounded(w.scroll) ==> SA.Bounded(r.scroll)
  {
    var o := SA.ScrollSocket(w.scroll, scrollX, scrollY);
    w.(scroll := o.state, log := w.log + o.actions)
  }

  /** `on_mousedown` / `http_mousedown`: press first, then record the hold. */
  function OnMouseDown(w: World, sid: SessionKey, now: int): (r: World)
    ensures OnlySession(w, r, sid)
    ensures r.log == w.log + [MouseDown]
    ensures r.sessions.entries[sid] == MouseDownSession(SessionOf(w.sessions, sid), sid, now)
    ensures StoreOk(w.sessions) ==> StoreOk(r.sessions)
  {
    Update(w, sid, MouseDownSession(SessionOf(w.sessions, sid), sid, now)).(log := w.log + [MouseDown])
  }

  /** `on_mouseup` / `http_mouseup`: release first, then clear the hold. */
  function OnMouseUp(w: World, sid: SessionKey): (r: World)
    ensures OnlySession(w, r, sid)
    ensures r.log == w.log + [MouseUp]
    ensures r.sessions.entries[sid] == MouseUpSession(SessionOf(w.sessions, sid))
    ensures StoreOk(w.sessions) ==> StoreOk(r.sessions)
  {
    Update(w, sid, MouseUpSession(SessionOf(w.sessions, sid))).(log := w.log + [MouseUp])
  }

  /** `on_key` / `http_key` */
  function OnKey(w: World, e: KeyEvent): (r: World)
    ensures r.sessions == w.sessions && r.motion == w.motion && r.scroll == w.scroll && r.cursor == w.cursor
    ensures w.log <= r.log && |r.log| <= |w.log| + 1
  {
    w.(log := w.log + KeyActions(e))
  }

  /** `on_client_disconnect`: a known connection is reset; an unknown one is not created. */
  function OnDisconnect(w: World, sid: SessionKey): (r: World)
    ensures sid !in w.sessions.entries ==> r == w
    ensures sid in w.sessions.entries ==>
      && OnlySession(w, r, sid)
      && r.sessions.entries[sid] == DisconnectSession(w.sessions.entries[sid]).session
      && r.log == w.log + DisconnectSession(w.sessions.entries[sid]).actions
    ensures r.sessions.entries.Keys == w.sessions.entries.Keys
  {
    if sid in w.sessions.entries then
      var e := DisconnectSession(w.sessions.entries[sid]);
      Update(w, sid, e.session).(log := w.log + e.actions)
    else w
  }

  /** Every record with its hold state cleared. */
  function ClearAllHolds(store: Dict<SessionKey, Session>): (r: Dict<SessionKey, Session>)
    ensures r.order == store.order && r.entries.Keys == store.entries.Keys
    ensures forall k :: k in r.entries ==> r.entries[k] == ClearHoldFlags(store.entries[k])
  {
    Dict(map k | k in store.entries :: ClearHoldFlags(store.entries[k]), store.order)
  }

  /** `force_release_all_holds`: one unconditional release, then every record's hold state cleared. */
  function ForceReleaseAllHolds(w: World): (r: World)
    ensures r.log == w.log + [MouseUp]
    ensures r.sessions.order == w.sessions.order && r.sessions.entries.Keys == w.sessions.entries.Keys
    ensures forall k :: k in r.sessions.entries ==>
      var st, st' := w.sessions.entries[k], r.sessions.entries[k];
      && !st'.doubleTapHoldActive && !st'.doubleTapExpectHold && !st'.pendingDoubleTap
      && st'.lastMouseDownTime == 0 && st'.lastMouseDownSid == None
      && st'.touches == st.touches && st'.suppressMoveUntil == st.suppressMoveUntil
      && st'.threeFingerAccumY == st.threeFingerAccumY
    ensures r.motion == w.motion && r.scroll == w.scroll && r.cursor == w.cursor
  {
    w.(sessions := ClearAllHolds(w.sessions), log := w.log + [MouseUp])
  }

  /** The number of records among `ids` whose hold has expired at `now`. */
  function ExpiredCount(m: map<SessionKey, Session>, ids: seq<SessionKey>, now: int): (n: nat)
    ensures n <= |ids|
  {
    if ids == [] then 0
    else ExpiredCount(m, ids[..|ids| - 1], now)
         + (if ids[|ids| - 1] in m && HoldExpired(m[ids[|ids| - 1]], now) then 1 else 0)
  }

  /** Counting one more record adds one exactly when its hold has expired. */
  lemma ExpiredCountSnoc(m: map<SessionKey, Session>, ids: seq<SessionKey>, k: SessionKey, now: int)
    ensures ExpiredCount(m, ids + [k], now) == ExpiredCount(m, ids, now) + (if k in m && HoldExpired(m[k], now) then 1 else 0)
  {
    assert (ids + [k])[..|ids|] == ids;
  }

  /** Every record after the watchdog's test and release. */
  function WatchdogRecords(store: Dict<SessionKey, Session>, now: int): (r: Dict<SessionKey, Session>)
    ensures r.order == store.order && r.entries.Keys == store.entries.Keys
    ensures forall k :: k in r.entries ==> r.entries[k] == WatchdogSession(store.entries[k], now).session
  {
    Dict(map k | k in store.entries :: WatchdogSession(store.entries[k], now).session, store.order)
  }

  /** One pass of `_hold_watchdog_loop` at `now`: one release per expired hold, in store order. */
  function WatchdogTick(w: World, now: int): (r: World)
    ensures r.log == w.log + Repeat(MouseUp, ExpiredCount(w.sessions.entries, w.sessions.order, now))
    ensures r.sessions.order == w.sessions.order && r.sessions.entries.Keys == w.sessions.entries.Keys
    ensures forall k :: k in w.sessions.entries && HoldExpired(w.sessions.entries[k], now) ==>
      r.sessions.entries[k] == w.sessions.entries[k].(doubleTapHoldActive := false, lastMouseDownTime := 0,
                                                      lastMouseDownSid := None)
    ensures forall k :: k in w.sessions.entries && !HoldExpired(w.sessions.entries[k], now) ==>
      r.sessions.entries[k] == w.sessions.entries[k]
    ensures r.motion == w.motion && r.scroll == w.scroll && r.cursor == w.cursor
  {
    w.(sessions := WatchdogRecords(w.sessions, now),
       log := w.log + Repeat(MouseUp, ExpiredCount(w.sessions.entries, w.sessions.order, now)))
  }
}
