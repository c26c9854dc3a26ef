/** `detail::cvar::approx_sequence` of src/detail/cvar_sequences.hpp: the tail-mean
    recursion with a step schedule β in place of the weight 1/(n + 1), driven by an inner
    `var::approx_sequence`.  Its `cvar::Lambda` is `CvarRecursion.Lambda`. */
module CvarSequences {
  import opened Steps
  import opened Confidence
  import VarRecursion
  import CvarRecursion
  import VarSequences
  import Random

  /** The fields of an `approx_sequence`: C, the counter, and the inner ξ sequence's fields
      together with the generator's position. */
  datatype State = State(c: real, n: nat, xi: VarRecursion.State)

  /** `approx_sequence::next` as a step on `State`: the first call returns C₀ and leaves the
      inner sequence alone; every later call advances the inner sequence once, takes one
      more draw x and sets C ← C − β(n)·(C − Λ(ξ, x, α)). */
  function Step(alpha: Level, gamma: Schedule, beta: Schedule, stream: nat -> real, s: State)
    : (r: (State, real))
    ensures r.0.n == s.n + 1 && r.1 == r.0.c
    ensures s.n == 0 ==> r.0 == State(s.c, 1, s.xi)
    ensures s.n != 0 ==> r.0.xi.n == s.xi.n + 1
    ensures s.n != 0 ==> r.0.xi.used == s.xi.used + (if s.xi.n == 0 then 1 else 2)
  {
    if s.n == 0 then (State(s.c, 1, s.xi), s.c)
    else
      var p := VarRecursion.Step(alpha, gamma, stream, s.xi);
      var lambda := CvarRecursion.Lambda(p.1, stream(p.0.used), alpha);
      var c := CvarRecursion.Toward(s.c, lambda, beta(s.n));
      (State(c, s.n + 1, p.0.(used := p.0.used + 1)), c)
  }

  /** `Step` with its parameters fixed. */
  function Next(alpha: Level, gamma: Schedule, beta: Schedule, stream: nat -> real)
    : State -> (State, real)
  {
    s => Step(alpha, gamma, beta, stream, s)
  }

  /** The value Λ absorbed by a call made in state `s` (with s.n != 0): the inner sequence's
      next term, against the draw taken right after it. */
  function Absorbed(alpha: Level, gamma: Schedule, stream: nat -> real, xi: VarRecursion.State): real
  {
    var p := VarRecursion.Step(alpha, gamma, stream, xi);
    CvarRecursion.Lambda(p.1, stream(p.0.used), alpha)
  }

  /** A call after the first moves C toward the absorbed Λ by β(n), and for β(n) in [0, 1]
      the new C lies between the old C and Λ. */
  lemma StepBetween(alpha: Level, gamma: Schedule, beta: Schedule, stream: nat -> real, s: State)
    requires s.n != 0 && 0.0 <= beta(s.n) <= 1.0
    ensures var c := Step(alpha, gamma, beta, stream, s).0.c;
      var lambda := Absorbed(alpha, gamma, stream, s.xi);
      && c == s.c - beta(s.n) * (s.c - lambda)
      && (s.c <= lambda ==> s.c <= c <= lambda)
      && (lambda <= s.c ==> lambda <= c <= s.c)
  {
    CvarRecursion.TowardBetween(s.c, Absorbed(alpha, gamma, stream, s.xi), beta(s.n));
  }

  /** The inner sequence lags by one call: the second call, made on a fresh inner
      sequence, computes Λ with ξ = 0, the inner seed, and the draw at the generator's
      current position. */
  lemma FirstLambdaUsesSeed(alpha: Level, gamma: Schedule, beta: Schedule, stream: nat -> real,
                            c: real, used: nat)
    ensures Step(alpha, gamma, beta, stream, State(c, 1, VarRecursion.State(0.0, 0, used))).0.c
      == CvarRecursion.Toward(c, CvarRecursion.Lambda(0.0, stream(used), alpha), beta(1))
  {
  }

  /** The sequence n ↦ Cₙ, with C₀ = 0, of src/detail/cvar_sequences.hpp:17-46. */
  class ApproxSequence {
    const alpha: Level
    const beta: Schedule
    var c: real
    const xi: VarSequences.ApproxSequence
    var n: nat

    ghost predicate Valid()
    {
      xi.alpha == alpha
    }

    /** C₀ = 0, with a fresh inner ξ sequence on the same α and on γ. */
    constructor (alpha: Level, gamma: Schedule, beta: Schedule)
      ensures Valid() && this.alpha == alpha && this.beta == beta && c == 0.0 && n == 0
      ensures fresh(xi) && xi.gamma == gamma && xi.xi == 0.0 && xi.n == 0
    {
      this.alpha := alpha;
      this.beta := beta;
      c := 0.0;
      xi := new VarSequences.ApproxSequence(alpha, gamma);
      n := 0;
    }

    ghost function Model(src: Random.Source): State
      reads this, xi, src
    {
      State(c, n, xi.Model(src))
    }

    /** `next(d, g)`: the next term. */
    method Next(src: Random.Source) returns (r: real)
      requires Valid()
      modifies this, xi, src
      ensures n == old(n) + 1
      ensures (Model(src), r) == Step(alpha, xi.gamma, beta, src.stream, old(Model(src)))
    {
      if n == 0 {
        n := n + 1;
        return c;
      }
      ghost var before := Model(src);
      var x := xi.Next(src);
      var d := src.Draw();
      var lambda := CvarRecursion.Lambda(x, d, alpha);
      c := CvarRecursion.Toward(c, lambda, beta(n));
      n := n + 1;
      r := c;
      assert Step(alpha, xi.gamma, beta, src.stream, before).0 == Model(src);
    }
  }
}
