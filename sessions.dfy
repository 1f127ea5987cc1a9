/**
 * The per-connection records of app.py's `touch_state`: one Session per
 * connection key, each holding one Touch per active touch id.
 */
module Sessions {
  import opened Options
  import opened PyNum
  import opened PyDict

  type TouchId = int
  type SessionKey = string

  const TAP_TIMEOUT_MS: int := 200
  const TAP_MOVE_THRESHOLD: real := 4.0
  /** Travel beyond which a touch counts as moved (the literal 4 of `process_raw_move`). */
  const MOVED_THRESHOLD: real := 4.0
  const DOUBLE_TAP_HOLD_TIMEOUT_MS: int := 3000
  const DOUBLE_TAP_MAX_INTERVAL_MS: int := 200
  const DOUBLE_TAP_HOLD_TRIGGER_MS: int := 200
  /** How long moves are suppressed after a two-finger tap's right click. */
  const RIGHT_CLICK_SUPPRESS_MS: int := 300
  const SCROLL_ACCEL_FACTOR: real := 2.0
  const SCROLL_ACCEL_CAP: real := 2000.0
  /** Mean vertical travel that fires a three-finger command. */
  const THREE_FINGER_TRIGGER: real := 12.0

  datatype Touch = Touch(
    lastX: real, lastY: real,
    startX: real, startY: real,
    startTime: int,
    hasMoved: bool,
    totalDistance: real,
    lastDeltaX: real, lastDeltaY: real,
    touchCountAtDown: int)

  /**
   * A session record. Keys the source never initialises (`doubleTapExpectHold`,
   * `doubleTapDownTime`) are read through `.get` with the defaults False and 0,
   * which is what these fields start as.
   */
  datatype Session = Session(
    touches: Dict<TouchId, Touch>,
    threeFingerAccumY: real,
    threeFingerTriggeredUp: bool,
    threeFingerTriggeredDown: bool,
    doubleTapHoldActive: bool,
    suppressMoveUntil: int,
    lastMouseDownTime: int,
    lastMouseDownSid: Option<SessionKey>,
    lastTapTime: int,
    pendingDoubleTap: bool,
    doubleTapExpectHold: bool,
    doubleTapDownTime: int)

  /** The record `setdefault` inserts for a connection seen for the first time. */
  function NewSession(): (st: Session)
    ensures SessionInv(st)
  {
    Session(Empty(), 0.0, false, false, false, 0, 0, None, 0, false, false, 0)
  }

  /**
   * The record `touch_state.setdefault(sid, ...)` hands back: the stored one,
   * or a fresh one for a connection seen for the first time.
   */
  function SessionOf(store: Dict<SessionKey, Session>, sid: SessionKey): (st: Session)
    ensures sid in store.entries ==> st == store.entries[sid]
    ensures sid !in store.entries ==> st == NewSession()
    ensures (forall k :: k in store.entries ==> SessionInv(store.entries[k])) ==> SessionInv(st)
    ensures (forall k :: k in store.entries ==> store.entries[k].touches.Valid()) ==> st.touches.Valid()
  {
    if sid in store.entries then store.entries[sid] else NewSession()
  }

  /** A touch has moved exactly when its travel passed the jitter threshold, and it counts itself among the touches at its down. */
  predicate TouchInv(t: Touch)
  {
    && (t.hasMoved <==> t.totalDistance > MOVED_THRESHOLD)
    && t.totalDistance >= 0.0
    && t.touchCountAtDown >= 1
  }

  ghost predicate SessionInv(st: Session)
  {
    st.touches.Valid() && forall tid :: tid in st.touches.entries ==> TouchInv(st.touches.entries[tid])
  }

  /** The per-touch quantities the two- and three-finger paths add up. */
  datatype Field = DeltaY | AbsDeltaY | TravelY

  function FieldValue(t: Touch, f: Field): real
  {
    match f
    case DeltaY => t.lastDeltaY
    case AbsDeltaY => Abs(t.lastDeltaY)
    case TravelY => t.lastY - t.startY
  }

  /** The sum of field `f` over the touches `ids`, added up in that order. */
  function SumOver(m: map<TouchId, Touch>, ids: seq<TouchId>, f: Field): real
    requires forall i :: 0 <= i < |ids| ==> ids[i] in m
  {
    if ids == [] then 0.0
    else SumOver(m, ids[..|ids| - 1], f) + FieldValue(m[ids[|ids| - 1]], f)
  }

  /** A sum of magnitudes is not negative. */
  lemma {:induction false} SumOverAbsNonNegative(m: map<TouchId, Touch>, ids: seq<TouchId>)
    requires forall i :: 0 <= i < |ids| ==> ids[i] in m
    ensures SumOver(m, ids, AbsDeltaY) >= 0.0
  {
    if ids != [] {
      SumOverAbsNonNegative(m, ids[..|ids| - 1]);
    }
  }

  /** A field that is zero on every touch adds up to zero. */
  lemma {:induction false} SumOverZero(m: map<TouchId, Touch>, ids: seq<TouchId>, f: Field)
    requires forall i :: 0 <= i < |ids| ==> ids[i] in m && FieldValue(m[ids[i]], f) == 0.0
    ensures SumOver(m, ids, f) == 0.0
  {
    if ids != [] {
      SumOverZero(m, ids[..|ids| - 1], f);
    }
  }

  /** The sum over all touches of a session, in dict order. */
  function SumTouches(d: Dict<TouchId, Touch>, f: Field): real
    requires d.Valid()
  {
    SumOver(d.entries, d.order, f)
  }

  /** The touches with their pending vertical delta consumed. */
  function ZeroDeltaY(d: Dict<TouchId, Touch>): (r: Dict<TouchId, Touch>)
    ensures r.order == d.order && r.entries.Keys == d.entries.Keys
    ensures d.Valid() ==> r.Valid()
    ensures forall k :: k in r.entries ==> r.entries[k].lastDeltaY == 0.0
    ensures forall k :: k in r.entries ==> r.entries[k] == d.entries[k].(lastDeltaY := r.entries[k].lastDeltaY)
  {
    Dict(map k | k in d.entries :: d.entries[k].(lastDeltaY := 0.0), d.order)
  }
}
