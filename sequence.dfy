/** The shape every recursion of the core shares.

    Each estimator is an object whose `next()` returns the next term of a sequence and
    updates a few numeric fields, a counter `n` and, through the random source, the
    generator's position.  Each class of the model is proved to implement a pure step
    function `next: S -> (S, R)` on an abstract state `S` (its fields plus the
    generator's position); this module says what k successive calls of such a step
    produce.  It is the specification `iterate` and the kernels are proved against. */
module Sequence {

  /** The state after k calls of `next` starting in `s`, and the values those calls
      returned, in call order. */
  function Run<S, R>(next: S -> (S, R), s: S, k: nat): (r: (S, seq<R>))
    ensures |r.1| == k
  {
    if k == 0 then (s, [])
    else
      var p := Run(next, s, k - 1);
      var q := next(p.0);
      (q.0, p.1 + [q.1])
  }

  /** The value the k-th call returns, or `none` when no call is made (k <= 0). */
  function Nth<S, R>(next: S -> (S, R), s: S, k: int, none: R): R
  {
    if k <= 0 then none else Run(next, s, k).1[k - 1]
  }

  /** The state after `k` calls, where no call is made when k <= 0. */
  function Final<S, R>(next: S -> (S, R), s: S, k: int): S
  {
    if k <= 0 then s else Run(next, s, k).0
  }

  /** The draws `k` calls make on a sequence whose first call draws nothing and whose
      every later call draws once; no call is made when k <= 0. */
  function SeededDraws(k: int): nat
  {
    if k <= 1 then 0 else k - 1
  }

  /** The first call's value is the first output of the step. */
  lemma NthOne<S, R>(next: S -> (S, R), s: S, none: R)
    ensures Nth(next, s, 1, none) == next(s).1
  {
    assert Run(next, s, 1).1 == [next(s).1];
  }

  /** The value of call k + 1 is what the step returns in the state k calls leave. */
  lemma NthNext<S, R>(next: S -> (S, R), s: S, k: nat, none: R)
    ensures Nth(next, s, k + 1, none) == next(Run(next, s, k).0).1
  {
  }

  /** One more call: if `before` is the state after k calls and the step takes it to
      `after` with the value `r`, then `after` is the state after k + 1 calls and `r` is
      the value of call k + 1. */
  lemma Advance<S, R>(next: S -> (S, R), s: S, k: nat, none: R, before: S, after: S, r: R)
    requires before == Run(next, s, k).0 && (after, r) == next(before)
    ensures after == Run(next, s, k + 1).0 && r == Nth(next, s, k + 1, none)
  {
  }

  /** A loop that stops after n = max(k, 0) calls has made the calls of a request for
      k. */
  lemma Finish<S, R>(next: S -> (S, R), s: S, n: nat, k: int, none: R)
    requires n == if k < 0 then 0 else k
    ensures Run(next, s, n).0 == Final(next, s, k) && Nth(next, s, n, none) == Nth(next, s, k, none)
  {
  }

  /** The hypothesis of `NthOfState` at one state. */
  lemma ReadingAt<S, R>(next: S -> (S, R), value: S -> R, x: S)
    requires forall y :: next(y).1 == value(next(y).0)
    ensures next(x).1 == value(next(x).0)
  {
  }

  /** When every call returns a reading of the state it leaves, the value of call k is
      that reading of the state after k calls. */
  lemma NthOfState<S, R>(next: S -> (S, R), value: S -> R, s: S, k: int, none: R)
    requires forall x :: next(x).1 == value(next(x).0)
    ensures Nth(next, s, k, none) == if k <= 0 then none else value(Final(next, s, k))
  {
    if k > 0 {
      var before := Run(next, s, k - 1).0;
      ReadingAt(next, value, before);
      assert Run(next, s, k).0 == next(before).0;
      assert Run(next, s, k).1[k - 1] == next(before).1;
    }
  }

  /** Running j calls and then k more is running j + k calls. */
  lemma {:induction false} RunAppend<S, R>(next: S -> (S, R), s: S, j: nat, k: nat)
    ensures Run(next, s, j + k).0 == Run(next, Run(next, s, j).0, k).0
    ensures Run(next, s, j + k).1 == Run(next, s, j).1 + Run(next, Run(next, s, j).0, k).1
    decreases k
  {
    if k > 0 {
      RunAppend(next, s, j, k - 1);
    }
  }
}
