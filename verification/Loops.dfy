/** Turns of a loop that keep an invariant exactly as long as a condition holds of what is left of it. */
module Loops {

  function Iterate<T>(x: T, n: nat, step: T -> T): T
    decreases n
  {
    if n == 0 then x else Iterate(step(x), n - 1, step)
  }

  /** One turn keeps an invariant as long as there are turns left. */
  ghost predicate TurnKeeps<T>(x: T, step: T -> T, left: T -> nat, inv: T -> bool) {
    left(x) > 0 && inv(x) ==> left(step(x)) == left(x) - 1 && inv(step(x))
  }

  lemma {:induction false} Keeps<T(!new)>(x: T, n: nat, step: T -> T, left: T -> nat, inv: T -> bool)
    requires n == left(x) && inv(x) && forall y :: TurnKeeps(y, step, left, inv)
    ensures inv(Iterate(x, n, step))
    decreases n
  {
    assert TurnKeeps(x, step, left, inv);
    if n > 0 {
      Keeps(step(x), n - 1, step, left, inv);
    }
  }

  /** One turn, given how many turns are left, the invariant, the condition on the turns to come, and a
      failure that no later turn repairs. */
  ghost predicate TurnOk<T>(x: T, step: T -> T, left: T -> nat, inv: T -> bool, loop: T -> bool, bad: T -> bool) {
    && (left(x) == 0 ==> loop(x))
    && (bad(x) ==> bad(step(x)) && !inv(x))
    && (left(x) > 0 && inv(x) ==> left(step(x)) == left(x) - 1 && ((inv(step(x)) && (loop(x) <==> loop(step(x)))) || (bad(step(x)) && !loop(x))))
  }

  lemma {:induction false} BadStays<T(!new)>(x: T, n: nat, step: T -> T, left: T -> nat, inv: T -> bool, loop: T -> bool, bad: T -> bool)
    requires bad(x) && forall y :: TurnOk(y, step, left, inv, loop, bad)
    ensures !inv(Iterate(x, n, step))
    decreases n
  {
    assert TurnOk(x, step, left, inv, loop, bad);
    if n > 0 {
      BadStays(step(x), n - 1, step, left, inv, loop, bad);
    }
  }

  /** The loop ends with its invariant exactly when the condition held at its start. */
  lemma {:induction false} KeepsExactlyWhen<T(!new)>(x: T, n: nat, step: T -> T, left: T -> nat, inv: T -> bool, loop: T -> bool, bad: T -> bool)
    requires n == left(x) && inv(x) && forall y :: TurnOk(y, step, left, inv, loop, bad)
    ensures inv(Iterate(x, n, step)) <==> loop(x)
    decreases n
  {
    assert TurnOk(x, step, left, inv, loop, bad);
    if n > 0 {
      if inv(step(x)) && (loop(x) <==> loop(step(x))) {
        KeepsExactlyWhen(step(x), n - 1, step, left, inv, loop, bad);
      } else {
        BadStays(step(x), n - 1, step, left, inv, loop, bad);
      }
    }
  }
}
