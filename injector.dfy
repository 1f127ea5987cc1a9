/**
 * The input injector (pyautogui and its ctypes fallbacks), seen as a log of
 * the actions the interpreter asks for.
 */
module Injector {

  datatype Button = Left | Right | Middle

  datatype Action =
    | Click(button: Button)
    | DoubleClick
    | MouseDown
    | MouseUp
    | Scroll(clicks: int)
    | HScroll(clicks: int)
    | MoveTo(x: int, y: int)
    | Chord(mods: seq<string>, key: string)
    | PressKey(key: string)
    | TypeText(text: string)

  /** `n` copies of `a`. */
  function Repeat(a: Action, n: nat): (r: seq<Action>)
    ensures |r| == n && forall i :: 0 <= i < n ==> r[i] == a
  {
    if n == 0 then [] else Repeat(a, n - 1) + [a]
  }

  /** How many times `a` occurs in `acts`. */
  function Occurrences(acts: seq<Action>, a: Action): nat
  {
    if acts == [] then 0
    else (if acts[0] == a then 1 else 0) + Occurrences(acts[1..], a)
  }

  lemma {:induction false} OccurrencesAppend(xs: seq<Action>, ys: seq<Action>, a: Action)
    ensures Occurrences(xs + ys, a) == Occurrences(xs, a) + Occurrences(ys, a)
  {
    if xs == [] {
      assert xs + ys == ys;
    } else {
      assert (xs + ys)[1..] == xs[1..] + ys;
      OccurrencesAppend(xs[1..], ys, a);
    }
  }

  /** Net vertical wheel steps requested by `acts`. */
  function VerticalSteps(acts: seq<Action>): int
  {
    if acts == [] then 0
    else (if acts[0].Scroll? then acts[0].clicks else 0) + VerticalSteps(acts[1..])
  }

  /** Net horizontal wheel steps requested by `acts`. */
  function HorizontalSteps(acts: seq<Action>): int
  {
    if acts == [] then 0
    else (if acts[0].HScroll? then acts[0].clicks else 0) + HorizontalSteps(acts[1..])
  }

  /** True when no action in `acts` moves the cursor. */
  predicate NoMotion(acts: seq<Action>)
  {
    forall i :: 0 <= i < |acts| ==> !acts[i].MoveTo?
  }
}
