/**
 * The process-wide scroll accumulators of app.py: fractional wheel units
 * are kept per axis until they add up to whole wheel steps.
 */
module ScrollAccumulator {
  import opened PyNum
  import opened Injector

  const SCROLL_MULTIPLIER: real := 2.0
  const MIN_SCROLL_FRAC_TO_STEP: real := 0.05

  /** One fold of an input into an axis accumulator: the wheel steps to issue (0 means no call) and the new accumulator. */
  datatype WheelStep = WheelStep(steps: int, accum: real)

  /**
   * The vertical block of both scroll handlers, the two-finger path and the
   * horizontal block of the HTTP handler: whole steps are truncated out, and
   * otherwise a significant fraction forces one step in its direction.
   */
  function WheelWithMinStep(accum: real, added: real): (r: WheelStep)
    ensures r.steps as real + r.accum == accum + added
    ensures -1.0 < r.accum < 1.0
    ensures r.steps == 0 <==> -MIN_SCROLL_FRAC_TO_STEP < accum + added < MIN_SCROLL_FRAC_TO_STEP
    ensures r.steps > 0 ==> accum + added > 0.0
    ensures r.steps < 0 ==> accum + added < 0.0
    ensures Trunc(accum + added) != 0 ==> r.steps == Trunc(accum + added)
    ensures Trunc(accum + added) == 0 ==> -1 <= r.steps <= 1
  {
    var total := accum + added;
    var whole := Trunc(total);
    if whole != 0 then WheelStep(whole, total - whole as real)
    else if Abs(total) >= MIN_SCROLL_FRAC_TO_STEP then
      var step := UnitStep(total);
      WheelStep(step, total - step as real)
    else WheelStep(0, total)
  }

  /** The horizontal block of the socket handler: whole steps only, no forced minimal step. */
  function WheelWholeStepsOnly(accum: real, added: real): (r: WheelStep)
    ensures r.steps as real + r.accum == accum + added
    ensures -1.0 < r.accum < 1.0
    ensures r.steps == 0 <==> -1.0 < accum + added < 1.0
    ensures r.accum * (accum + added) >= 0.0
  {
    var total := accum + added;
    var whole := Trunc(total);
    WheelStep(whole, total - whole as real)
  }

  /** The wheel call a step count asks for, if any. */
  function WheelCall(steps: int, horizontal: bool): (r: seq<Action>)
    ensures VerticalSteps(r) == (if horizontal then 0 else steps)
    ensures HorizontalSteps(r) == (if horizontal then steps else 0)
    ensures NoMotion(r) && |r| <= 1 && (r == [] <==> steps == 0)
  {
    if steps == 0 then [] else if horizontal then [HScroll(steps)] else [Scroll(steps)]
  }

  datatype ScrollState = ScrollState(accumX: real, accumY: real)
  datatype ScrollOutcome = ScrollOutcome(state: ScrollState, actions: seq<Action>)

  /** Both accumulators hold less than one wheel step. */
  predicate Bounded(s: ScrollState)
  {
    -1.0 < s.accumX < 1.0 && -1.0 < s.accumY < 1.0
  }

  /** The vertical block shared by both handlers: skipped entirely when the input is zero. */
  function VerticalBlock(accumY: real, scrollY: real): (r: WheelStep)
    ensures r.steps as real + r.accum == accumY + scrollY * SCROLL_MULTIPLIER
    ensures -1.0 < accumY < 1.0 ==> -1.0 < r.accum < 1.0
    ensures scrollY == 0.0 ==> r.steps == 0 && r.accum == accumY
    ensures scrollY != 0.0 && Trunc(accumY + scrollY * SCROLL_MULTIPLIER) != 0 ==>
      r.steps == Trunc(accumY + scrollY * SCROLL_MULTIPLIER)
  {
    if scrollY != 0.0 then WheelWithMinStep(accumY, scrollY * SCROLL_MULTIPLIER)
    else WheelStep(0, accumY)
  }

  /** The `/scroll` HTTP handler: vertical axis first, then horizontal, both with the minimal step. */
  function ScrollHttp(s: ScrollState, scrollX: real, scrollY: real): (r: ScrollOutcome)
    ensures VerticalSteps(r.actions) as real + r.state.accumY == s.accumY + scrollY * SCROLL_MULTIPLIER
    ensures HorizontalSteps(r.actions) as real + r.state.accumX == s.accumX + scrollX * SCROLL_MULTIPLIER
    ensures |r.actions| <= 2 && NoMotion(r.actions)
    ensures Bounded(s) ==> Bounded(r.state)
    ensures scrollY == 0.0 ==> r.state.accumY == s.accumY
    ensures scrollX == 0.0 ==> r.state.accumX == s.accumX
  {
    var v := VerticalBlock(s.accumY, scrollY);
    var h := if scrollX != 0.0 then WheelWithMinStep(s.accumX, scrollX * SCROLL_MULTIPLIER)
             else WheelStep(0, s.accumX);
    var acts := WheelCall(v.steps, false) + WheelCall(h.steps, true);
    AppendSteps(WheelCall(v.steps, false), WheelCall(h.steps, true));
    ScrollOutcome(ScrollState(h.accum, v.accum), acts)
  }

  /** The `scroll` socket handler: like the HTTP one, but the horizontal axis has no minimal step. */
  function ScrollSocket(s: ScrollState, scrollX: real, scrollY: real): (r: ScrollOutcome)
    ensures VerticalSteps(r.actions) as real + r.state.accumY == s.accumY + scrollY * SCROLL_MULTIPLIER
    ensures HorizontalSteps(r.actions) as real + r.state.accumX == s.accumX + scrollX * SCROLL_MULTIPLIER
    ensures |r.actions| <= 2 && NoMotion(r.actions)
    ensures Bounded(s) ==> Bounded(r.state)
    ensures scrollY == 0.0 ==> r.state.accumY == s.accumY
    ensures scrollX == 0.0 ==> r.state.accumX == s.accumX
  {
    var v := VerticalBlock(s.accumY, scrollY);
    var h := if scrollX != 0.0 then WheelWholeStepsOnly(s.accumX, scrollX * SCROLL_MULTIPLIER)
             else WheelStep(0, s.accumX);
    var acts := WheelCall(v.steps, false) + WheelCall(h.steps, true);
    AppendSteps(WheelCall(v.steps, false), WheelCall(h.steps, true));
    ScrollOutcome(ScrollState(h.accum, v.accum), acts)
  }

  lemma {:induction false} AppendSteps(xs: seq<Action>, ys: seq<Action>)
    ensures VerticalSteps(xs + ys) == VerticalSteps(xs) + VerticalSteps(ys)
    ensures HorizontalSteps(xs + ys) == HorizontalSteps(xs) + HorizontalSteps(ys)
    ensures NoMotion(xs) && NoMotion(ys) ==> NoMotion(xs + ys)
  {
    if xs == [] {
      assert xs + ys == ys;
    } else {
      assert (xs + ys)[1..] == xs[1..] + ys;
      AppendSteps(xs[1..], ys);
    }
  }

  /** Whole steps issued and the final accumulator after folding `inputs` in one after another. */
  function WheelRun(accum: real, inputs: seq<real>): (r: WheelStep)
    decreases |inputs|
  {
    if inputs == [] then WheelStep(0, accum)
    else
      var first := WheelWithMinStep(accum, inputs[0]);
      var rest := WheelRun(first.accum, inputs[1..]);
      WheelStep(first.steps + rest.steps, rest.accum)
  }

  /** The sum of a sequence of inputs. */
  function Total(xs: seq<real>): real
  {
    if xs == [] then 0.0 else xs[0] + Total(xs[1..])
  }

  /**
   * No drift: over any run of inputs, the wheel steps issued plus what is left
   * in the accumulator equal the start value plus everything fed in, and what
   * is left is less than one step.
   */
  lemma {:induction false} WheelRunLosesNothing(accum: real, inputs: seq<real>)
    requires inputs != []
    ensures WheelRun(accum, inputs).steps as real + WheelRun(accum, inputs).accum == accum + Total(inputs)
    ensures -1.0 < WheelRun(accum, inputs).accum < 1.0
    decreases |inputs|
  {
    if |inputs| > 1 {
      WheelRunLosesNothing(WheelWithMinStep(accum, inputs[0]).accum, inputs[1..]);
    }
  }

  /** The socket horizontal axis drops a small input that the HTTP handler turns into one step. */
  lemma SocketHorizontalHasNoMinimalStep()
    ensures ScrollHttp(ScrollState(0.0, 0.0), 0.25, 0.0).actions == [HScroll(1)]
    ensures ScrollSocket(ScrollState(0.0, 0.0), 0.25, 0.0).actions == []
  {
  }
}
