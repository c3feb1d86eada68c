/** Repeated application of a step function: the shape of "n interrupts in
 *  a row with no API call in between", shared by both variants. */
module Iteration {

  /** `f` applied `n` times to `x`. */
  function Iterate<T>(f: T -> T, x: T, n: nat): T
    decreases n
  {
    if n == 0 then x else f(Iterate(f, x, n - 1))
  }

  /** Running a + b steps is running a steps, then b more. */
  lemma {:induction false} IterateSplit<T>(f: T -> T, x: T, a: nat, b: nat)
    ensures Iterate(f, x, a + b) == Iterate(f, Iterate(f, x, a), b)
    decreases b
  {
    if b > 0 {
      IterateSplit(f, x, a, b - 1);
    }
  }

  /** The first step can be taken before the others. */
  lemma IterateFirst<T>(f: T -> T, x: T, n: nat)
    ensures Iterate(f, x, n + 1) == Iterate(f, f(x), n)
  {
    IterateSplit(f, x, 1, n);
  }
}
