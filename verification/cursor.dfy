/**
  Cursor arithmetic of one string voice.

  A voice reads its delay loop through a real-valued cursor `sample`. The loop
  is `periodI` cells long, where `periodI` is the ceiling of the real period.
  `fret` folds the cursor back into the new period by repeated subtraction,
  and every iteration of `sub_generate` moves the cursor one cell forward,
  wrapping it at `periodI`.
 */
module Cursor {

  /** JavaScript's `Math.ceil`: the least integer that is not below `x`. */
  function Ceil(x: real): (r: int)
    ensures x <= r as real < x + 1.0
  {
    if x.Floor as real == x then x.Floor else x.Floor + 1
  }

  /** `w` loop lengths laid end to end, `w * x` as repeated addition;
      written this way so the cursor proofs avoid nonlinear real arithmetic. */
  function Lengths(w: nat, x: real): real
  {
    if w == 0 then 0.0 else Lengths(w - 1, x) + x
  }

  /** How many times `fret`'s loop subtracts `period` from `sample`:
      it subtracts while the cursor is strictly greater than the period. */
  function Reductions(sample: real, period: real): nat
    requires period >= 1.0
    decreases Ceil(sample)
  {
    if sample > period then Reductions(sample - period, period) + 1 else 0
  }

  /** The cursor after `fret`'s loop `while (sample > period) sample -= period`.
      The result lies at most one period above zero and differs from `sample`
      by a whole number of periods, so the phase within the cycle is kept. */
  function ReduceCursor(sample: real, period: real): (r: real)
    requires period >= 1.0
    ensures r <= period
    ensures sample <= period ==> r == sample
    ensures sample > period ==> 0.0 < r
    ensures r == sample - Lengths(Reductions(sample, period), period)
    decreases Ceil(sample)
  {
    if sample > period then ReduceCursor(sample - period, period) else sample
  }

  /** One iteration of `sub_generate`'s loop: one cell forward, and back by
      `periodI` once the cursor reaches the end of the loop. */
  function CursorStep(p: real, periodI: int): (r: real)
    ensures 2 <= periodI && 0.0 <= p <= periodI as real ==> 0.0 <= r < periodI as real
  {
    if p + 1.0 >= periodI as real then p + 1.0 - periodI as real else p + 1.0
  }

  /** Whether one step wraps; each wrap is one pass of the loop filters. */
  predicate WrapsAt(p: real, periodI: int)
  {
    p + 1.0 >= periodI as real
  }

  /** Number of wraps (filter passes) in `n` steps from cursor `p`. */
  function Wraps(p: real, periodI: int, n: nat): nat
    decreases n
  {
    if n == 0 then 0
    else (if WrapsAt(p, periodI) then 1 else 0) + Wraps(CursorStep(p, periodI), periodI, n - 1)
  }

  /** The cursor after `n` iterations of `sub_generate`'s loop. From a cursor
      in `[0, periodI]` it stays there, and it lies strictly below `periodI`
      once at least one step was taken. */
  function Advance(p: real, periodI: int, n: nat): (r: real)
    ensures 2 <= periodI && 0.0 <= p <= periodI as real ==> 0.0 <= r <= periodI as real
    ensures 2 <= periodI && 0.0 <= p <= periodI as real && n > 0 ==> r < periodI as real
    decreases n
  {
    if n == 0 then p else Advance(CursorStep(p, periodI), periodI, n - 1)
  }

  /** The cursor moves `n` cells modulo the loop length: it ends `n` cells on,
      less one loop length per wrap. */
  lemma {:induction false} AdvanceModulo(p: real, periodI: int, n: nat)
    ensures Advance(p, periodI, n) == p + n as real - Lengths(Wraps(p, periodI, n), periodI as real)
    decreases n
  {
    if n > 0 {
      var q := CursorStep(p, periodI);
      AdvanceModulo(q, periodI, n - 1);
      var w := Wraps(q, periodI, n - 1);
      if WrapsAt(p, periodI) {
        assert Wraps(p, periodI, n) == w + 1;
      } else {
        assert Wraps(p, periodI, n) == w;
      }
    }
  }

  /** Advancing in two runs is advancing once by their sum: rendering a
      request in pieces moves the cursor exactly as rendering it whole. */
  lemma {:induction false} AdvanceAdd(p: real, periodI: int, a: nat, b: nat)
    ensures Advance(Advance(p, periodI, a), periodI, b) == Advance(p, periodI, a + b)
    decreases a
  {
    if a > 0 {
      AdvanceAdd(CursorStep(p, periodI), periodI, a - 1, b);
    }
  }

  /** Number of iterations of `for (i = start; i < end; i++)` with real bounds:
      the least `n` for which `start + n` is no longer below `end`. */
  function Steps(start: real, end: real): (n: nat)
    ensures end <= start + n as real
    ensures n > 0 ==> start + (n - 1) as real < end
  {
    if end > start then Ceil(end - start) else 0
  }

  /** A whole-sample segment takes exactly as many steps as it is long. */
  lemma StepsWhole(start: real, len: nat)
    ensures Steps(start, start + len as real) == len
  {
  }
}
