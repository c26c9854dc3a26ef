/** The recursive quantile (VaR) estimator of src/detail/var_sequence.hpp.

    ξ ← ξ − γ(n)·H(ξ, x, α) with H(ξ, x, α) = 1 if x < ξ and 1 − 1/(1 − α) otherwise, a
    Robbins–Monro search for the root of E[H(ξ, X, α)] = 0, whose solution is the
    α-quantile.  The first call returns the seed ξ₀ = 0 without drawing. */
module VarRecursion {
  import opened Confidence
  import opened Steps
  import Random
  import Sequence

  /** H(ξ, x, α): 1 when the draw falls below ξ, −α/(1 − α) otherwise.  The same function
      is `var::H` (src/detail/var_sequences.hpp:10-15) and `H1`
      (src/detail/stochastic_gradient.hpp:10-14). */
  function H(state: real, x: real, alpha: Level): (r: real)
    ensures x < state ==> r == 1.0
    ensures state <= x ==> r == -(alpha as real) / (1.0 - alpha)
  {
    if x < state then 1.0 else 1.0 - 1.0 / (1.0 - alpha)
  }

  /** For α in (0, 1), H is positive exactly when the draw falls below ξ, and negative
      otherwise. */
  lemma HSign(state: real, x: real, alpha: Level)
    requires 0.0 < alpha < 1.0
    ensures H(state, x, alpha) > 0.0 <==> x < state
    ensures H(state, x, alpha) < 0.0 <==> state <= x
  {
    if state <= x {
      PositiveRatio(alpha);
    }
  }

  /** α/(1 − α) > 0 for α in (0, 1). */
  lemma PositiveRatio(alpha: real)
    requires 0.0 < alpha < 1.0
    ensures alpha / (1.0 - alpha) > 0.0 && -alpha / (1.0 - alpha) < 0.0
  {
    var k := alpha / (1.0 - alpha);
    assert k * (1.0 - alpha) == alpha;
  }

  /** One step of the recursion with step size g: ξ − g·H(ξ, x, α). */
  function Update(xi: real, x: real, alpha: Level, g: real): real
  {
    xi - g * H(xi, x, alpha)
  }

  /** For α in (0, 1) and g > 0 a step moves ξ down by exactly g when the draw falls below
      ξ and up by exactly g·α/(1 − α) otherwise; so it decreases ξ if and only if x < ξ. */
  lemma UpdateDirection(xi: real, x: real, alpha: Level, g: real)
    requires 0.0 < alpha < 1.0 && g > 0.0
    ensures x < xi ==> Update(xi, x, alpha, g) == xi - g
    ensures xi <= x ==> Update(xi, x, alpha, g) == xi + g * alpha / (1.0 - alpha)
    ensures Update(xi, x, alpha, g) < xi <==> x < xi
    ensures Update(xi, x, alpha, g) > xi <==> xi <= x
  {
    HSign(xi, x, alpha);
    if xi <= x {
      var k := alpha / (1.0 - alpha);
      PositiveRatio(alpha);
      assert g * (-alpha / (1.0 - alpha)) == -(g * k);
      assert g * alpha / (1.0 - alpha) == g * k;
      assert g * k > 0.0;
    }
  }

  /** The fields of a `VarSequence` and the generator's position. */
  datatype State = State(state: real, n: nat, used: nat)

  /** `var_sequence::next` as a step on `State`: the first call returns the seed, counts
      itself and draws nothing; every later call takes exactly one draw and applies one
      step of the recursion with γ(n). */
  function Step(alpha: Level, gamma: Schedule, stream: nat -> real, s: State): (r: (State, real))
    ensures r.0.n == s.n + 1 && r.1 == r.0.state
    ensures s.n == 0 ==> r.0.state == s.state && r.0.used == s.used
    ensures s.n != 0 ==> r.0.used == s.used + 1
    ensures s.n != 0 ==> r.0.state == Update(s.state, stream(s.used), alpha, gamma(s.n))
  {
    if s.n == 0 then (State(s.state, 1, s.used), s.state)
    else
      var state := s.state - gamma(s.n) * H(s.state, stream(s.used), alpha);
      (State(state, s.n + 1, s.used + 1), state)
  }

  /** `Step` with its parameters fixed: the `next` of a sequence built on α and γ. */
  function Next(alpha: Level, gamma: Schedule, stream: nat -> real): State -> (State, real)
  {
    s => Step(alpha, gamma, stream, s)
  }

  /** What a call returns, read off the state it leaves: ξ. */
  function Output(s: State): real
  {
    s.state
  }

  /** Every call returns the estimate it leaves in the state. */
  lemma NextOutputs(alpha: Level, gamma: Schedule, stream: nat -> real)
    ensures forall x :: Next(alpha, gamma, stream)(x).1 == Output(Next(alpha, gamma, stream)(x).0)
  {
  }

  /** The sequence n ↦ ξₙ of src/detail/var_sequence.hpp:15-39. */
  class VarSequence {
    const alpha: Level
    const gamma: Schedule
    var state: real
    var n: nat

    /** ξ₀ = 0, and no call made yet. */
    constructor (alpha: Level, gamma: Schedule)
      ensures this.alpha == alpha && this.gamma == gamma
      ensures state == 0.0 && n == 0
    {
      this.alpha := alpha;
      this.gamma := gamma;
      state := 0.0;
      n := 0;
    }

    ghost function Model(src: Random.Source): State
      reads this, src
    {
      State(state, n, src.used)
    }

    /** `next(d, g)`: the next term of the sequence. */
    method Next(src: Random.Source) returns (r: real)
      modifies this, src
      ensures n == old(n) + 1
      ensures (Model(src), r) == Step(alpha, gamma, src.stream, old(Model(src)))
    {
      if n == 0 {
        n := n + 1;
        return state;
      }
      ghost var before := Model(src);
      var x := src.Draw();
      state := state - gamma(n) * H(state, x, alpha);
      n := n + 1;
      r := state;
      assert Step(alpha, gamma, src.stream, before).0 == Model(src);
    }
  }

  /** Over k + 1 calls from a fresh state, the recursion consumes exactly k draws, and
      the generator is where the k-th draw left it. */
  lemma {:induction false} DrawsConsumed(alpha: Level, gamma: Schedule, stream: nat -> real, used: nat, k: nat)
    ensures Sequence.Run(Next(alpha, gamma, stream), State(0.0, 0, used), k + 1).0.used == used + k
    ensures Sequence.Run(Next(alpha, gamma, stream), State(0.0, 0, used), k + 1).0.n == k + 1
  {
    if k > 0 {
      DrawsConsumed(alpha, gamma, stream, used, k - 1);
    }
  }
}
