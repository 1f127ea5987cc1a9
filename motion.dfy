/**
 * `process_move_delta` of app.py: the process-wide motion accumulator with
 * speed-based acceleration, rounding, the forced minimal step and the clamp
 * to the virtual screen.
 */
module MotionAccumulator {
  import opened Options
  import opened PyNum
  import opened Injector

  const MOVE_MULTIPLIER: real := 0.1
  const BASE_SPEED_SCALE: real := 0.2
  const ACCELERATION_FACTOR: real := 0.2
  const ACCEL_CAP: real := 40.0
  const MIN_MOVE_FRAC_TO_STEP: real := 0.05
  /** Seconds assumed for the first sample, and the smallest interval used. */
  const FIRST_SAMPLE_DT: real := 0.016
  const MIN_DT: real := 0.0001

  /** The virtual screen rectangle found at start-up. */
  datatype Screen = Screen(left: int, top: int, width: int, height: int)

  /**
   * The floating-point functions the model does not compute: `math.hypot`
   * and `x ** ACCEL_EXPONENT` (ACCEL_EXPONENT = 1.1).
   */
  datatype Numerics = Numerics(hypot: (real, real) -> real, pow: real -> real)

  /** What the model relies on about them: a length is never negative, nor is a power of a positive number. */
  ghost predicate ValidNumerics(n: Numerics)
  {
    (forall a, b :: n.hypot(a, b) >= 0.0) && (forall s :: s > 0.0 ==> n.pow(s) >= 0.0)
  }

  datatype Point = Point(x: int, y: int)

  predicate OnScreen(s: Screen, p: Point)
  {
    s.left <= p.x <= s.left + s.width - 1 && s.top <= p.y <= s.top + s.height - 1
  }

  /** Seconds since the previous sample (`_last_time`), never below MIN_DT. */
  function SampleInterval(last: Option<int>, now: int): (dt: real)
    ensures dt > 0.0
    ensures last.None? ==> dt == FIRST_SAMPLE_DT
    ensures last.Some? ==> dt >= MIN_DT && dt >= (now - last.value) as real / 1000.0
    ensures last.Some? && (now - last.value) as real / 1000.0 > MIN_DT ==> dt == (now - last.value) as real / 1000.0
  {
    match last
    case None => FIRST_SAMPLE_DT
    case Some(t) =>
      var elapsed := (now - t) as real / 1000.0;
      if MIN_DT < elapsed then elapsed else MIN_DT
  }

  /** The acceleration multiplier for a speed: the base alone at rest, the capped curve otherwise. */
  function AccelMultiplier(speed: real, pow: real -> real): (m: real)
    ensures m <= ACCEL_CAP
    ensures speed <= 0.0 ==> m == BASE_SPEED_SCALE
    ensures speed > 0.0 && pow(ACCELERATION_FACTOR * speed) >= 0.0 ==> BASE_SPEED_SCALE <= m
  {
    if speed > 0.0 then
      var m := BASE_SPEED_SCALE + pow(ACCELERATION_FACTOR * speed);
      if m > ACCEL_CAP then ACCEL_CAP else m
    else BASE_SPEED_SCALE
  }

  /** The multiplier `process_move_delta` applies to a raw delta sampled at `now`. */
  function Acceleration(last: Option<int>, now: int, dx: real, dy: real, num: Numerics): (m: real)
    ensures ValidNumerics(num) ==> BASE_SPEED_SCALE <= m <= ACCEL_CAP
  {
    var dt := SampleInterval(last, now);
    var speed := num.hypot(dx * MOVE_MULTIPLIER, dy * MOVE_MULTIPLIER) / dt;
    AccelMultiplier(speed, num.pow)
  }

  /** A raw delta scaled to pixels and accelerated: `delta * MOVE_MULTIPLIER * accel_mult`. */
  function Accelerated(d: real, mult: real): real
  {
    d * MOVE_MULTIPLIER * mult
  }

  /** One axis: the whole pixels to apply now and the fraction carried forward. */
  datatype AxisStep = AxisStep(applied: int, accum: real)

  /** Round to nearest; if that is 0 but the fraction is significant, force one pixel in its direction. */
  function MotionAxis(accum: real, delta: real): (r: AxisStep)
    ensures r.applied as real + r.accum == accum + delta
    ensures -1.0 < r.accum < 1.0
    ensures r.applied == 0 <==> -MIN_MOVE_FRAC_TO_STEP < accum + delta < MIN_MOVE_FRAC_TO_STEP
    ensures r.applied != RoundHalfEven(accum + delta) ==>
              RoundHalfEven(accum + delta) == 0 && Abs(accum + delta) >= MIN_MOVE_FRAC_TO_STEP &&
              r.applied == UnitStep(accum + delta)
  {
    var total := accum + delta;
    var rounded := RoundHalfEven(total);
    RoundIsZero(total);
    var applied := if rounded == 0 && Abs(total) >= MIN_MOVE_FRAC_TO_STEP then UnitStep(total) else rounded;
    AxisStep(applied, if applied != 0 then total - applied as real else total)
  }

  /** The fractional pixels pending on each axis and the time of the previous sample. */
  datatype MotionState = MotionState(accumX: real, accumY: real, lastTime: Option<int>)

  /** The steps applied on each axis, where the cursor ends up and what was sent to the injector. */
  datatype MoveOutcome = MoveOutcome(state: MotionState, stepX: int, stepY: int, cursor: Point, actions: seq<Action>)

  /** Both accumulators hold less than one pixel. */
  predicate Bounded(m: MotionState)
  {
    -1.0 < m.accumX < 1.0 && -1.0 < m.accumY < 1.0
  }

  /** `process_move_delta(dx, dy)` at time `now`, the cursor being at `cursor`. */
  function MoveDelta(m: MotionState, cursor: Point, dx: real, dy: real, now: int, screen: Screen, num: Numerics): (r: MoveOutcome)
    ensures r.state.lastTime == Some(now)
    ensures Bounded(r.state)
    ensures r.stepX as real + r.state.accumX == m.accumX + dx * MOVE_MULTIPLIER * Acceleration(m.lastTime, now, dx, dy, num)
    ensures r.stepY as real + r.state.accumY == m.accumY + dy * MOVE_MULTIPLIER * Acceleration(m.lastTime, now, dx, dy, num)
    ensures r.actions == [] <==> r.stepX == 0 && r.stepY == 0
    ensures r.actions == [] ==> r.cursor == cursor
    ensures r.actions != [] ==> r.actions == [MoveTo(r.cursor.x, r.cursor.y)]
    ensures r.actions != [] ==> r.cursor.x == Clamp(screen.left, screen.left + screen.width - 1, cursor.x + r.stepX)
    ensures r.actions != [] ==> r.cursor.y == Clamp(screen.top, screen.top + screen.height - 1, cursor.y + r.stepY)
    ensures r.actions != [] && screen.width >= 1 && screen.height >= 1 ==> OnScreen(screen, r.cursor)
  {
    var mult := Acceleration(m.lastTime, now, dx, dy, num);
    var ax := MotionAxis(m.accumX, Accelerated(dx, mult));
    var ay := MotionAxis(m.accumY, Accelerated(dy, mult));
    var state := MotionState(ax.accum, ay.accum, Some(now));
    if ax.applied != 0 || ay.applied != 0 then
      var p := Point(Clamp(screen.left, screen.left + screen.width - 1, cursor.x + ax.applied),
                     Clamp(screen.top, screen.top + screen.height - 1, cursor.y + ay.applied));
      MoveOutcome(state, ax.applied, ay.applied, p, [MoveTo(p.x, p.y)])
    else
      MoveOutcome(state, 0, 0, cursor, [])
  }

  /** Whole pixels applied and the fraction left after feeding `deltas` (already accelerated) one after another. */
  function AxisRun(accum: real, deltas: seq<real>): (r: AxisStep)
    decreases |deltas|
  {
    if deltas == [] then AxisStep(0, accum)
    else
      var first := MotionAxis(accum, deltas[0]);
      var rest := AxisRun(first.accum, deltas[1..]);
      AxisStep(first.applied + rest.applied, rest.accum)
  }

  function Sum(xs: seq<real>): real
  {
    if xs == [] then 0.0 else xs[0] + Sum(xs[1..])
  }

  /**
   * No permanent drift: over any run of samples, the pixels applied differ
   * from what was fed in by the final carried fraction alone, which stays
   * below one pixel.
   */
  lemma {:induction false} AxisRunLosesNothing(accum: real, deltas: seq<real>)
    requires deltas != []
    ensures AxisRun(accum, deltas).applied as real + AxisRun(accum, deltas).accum == accum + Sum(deltas)
    ensures -1.0 < AxisRun(accum, deltas).accum < 1.0
    decreases |deltas|
  {
    if |deltas| > 1 {
      AxisRunLosesNothing(MotionAxis(accum, deltas[0]).accum, deltas[1..]);
    }
  }

  /**
   * The carried fraction is bounded by one pixel, not by the minimal-step
   * threshold: a forced step from 0.3 leaves -0.7 behind, and the next
   * sample, even with no input, moves the cursor back by one pixel.
   */
  lemma ForcedStepOvershoots()
    ensures MotionAxis(0.3, 0.0) == AxisStep(1, -0.7)
    ensures MotionAxis(-0.7, 0.0) == AxisStep(-1, 0.3)
  {
    RoundIsZero(0.3);
    assert RoundHalfEven(-0.7) == -1;
  }
}
