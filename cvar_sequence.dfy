/** The recursive tail-mean (CVaR) estimator of src/detail/cvar_sequence.hpp.

    Each step advances an inner quantile sequence to get ξ, takes one further draw x,
    and moves the estimate toward Λ(ξ, x, α) = ξ + max(x − ξ, 0)/(1 − α) with the weight
    1/(n + 1).  Starting from the seed 0, the estimate after k calls is therefore the
    plain mean of the seed and the k − 1 values of Λ absorbed so far. */
module CvarRecursion {
  import opened Numeric
  import opened Steps
  import opened Confidence
  import VarRecursion
  import Random
  import Sequence

  /** Λ(ξ, x, α) = ξ + max(x − ξ, 0)/(1 − α).  For α < 1 it is never below ξ, and equals ξ
      exactly when the draw does not exceed ξ.  The same function is `cvar::Lambda`
      (src/detail/cvar_sequences.hpp:11-14) and `v` (src/detail/stochastic_gradient.hpp:17-19). */
  function Lambda(state: real, x: real, alpha: Level): (r: real)
    ensures alpha < 1.0 ==> r >= state
    ensures alpha < 1.0 ==> (r == state <==> x <= state)
  {
    state + 1.0 / (1.0 - alpha) * Max(x - state, 0.0)
  }

  /** c − w·(c − target): the update `c -= w * (c - target)` shared by every tail-mean
      recursion.  A weight in [0, 1] leaves the result between c and the target. */
  function Toward(c: real, target: real, w: real): (r: real)
    ensures w == 1.0 ==> r == target
    ensures w == 0.0 ==> r == c
  {
    c - w * (c - target)
  }

  /** A weight in [0, 1] leaves the update between the old value and the target. */
  lemma TowardBetween(c: real, target: real, w: real)
    requires 0.0 <= w <= 1.0
    ensures c <= target ==> c <= Toward(c, target, w) <= target
    ensures target <= c ==> target <= Toward(c, target, w) <= c
  {
    var d := target - c;
    assert Toward(c, target, w) == c + w * d;
    if d >= 0.0 {
      assert w * d >= 0.0;
      assert d - w * d == (1.0 - w) * d >= 0.0;
    } else {
      assert w * (-d) >= 0.0;
      assert (-d) - w * (-d) == (1.0 - w) * (-d) >= 0.0;
    }
  }

  /** The estimate after absorbing λ₁ … λₖ from the seed 0, the i-th with weight 1/(i + 1). */
  function TailMean(ls: seq<real>): real
  {
    if ls == [] then 0.0
    else Toward(TailMean(ls[..|ls| - 1]), ls[|ls| - 1], 1.0 / ((|ls| + 1) as real))
  }

  /** The running-mean identity: the weights 1/(i + 1) make the estimate the mean of the
      seed 0 and λ₁ … λₖ, that is (λ₁ + … + λₖ)/(k + 1). */
  lemma {:induction false} TailMeanIsMean(ls: seq<real>)
    ensures Times(TailMean(ls), |ls| + 1) == Sum(ls)
  {
    if ls != [] {
      var ps, l := ls[..|ls| - 1], ls[|ls| - 1];
      TailMeanIsMean(ps);
      MeanStep(TailMean(ps), l, |ls|);
      TimesCount(TailMean(ps), |ls|, |ps| + 1);
      Chain(Times(TailMean(ls), |ls| + 1), Times(TailMean(ps), |ls|), Sum(ps), Sum(ls), l);
    }
  }

  /** One step of the running mean: if p is the mean of m values, moving it toward l by
      1/(m + 1) gives the mean of those values and l. */
  lemma MeanStep(p: real, l: real, m: nat)
    ensures Times(Toward(p, l, 1.0 / ((m + 1) as real)), m + 1) == Times(p, m) + l
  {
    var k := (m + 1) as real;
    var w := 1.0 / k;
    assert w * k == 1.0;
    assert (p - w * (p - l)) * k == p * k - w * k * (p - l);
  }

  /** Absorbing one more value l into the estimate of k − 1 values uses the weight
      1/(k + 1). */
  lemma TailMeanSnoc(ls: seq<real>, l: real, k: nat)
    requires k == |ls| + 1
    ensures TailMean(ls + [l]) == Toward(TailMean(ls), l, 1.0 / ((k + 1) as real))
  {
    assert (ls + [l])[..|ls|] == ls;
  }

  /** The fields of a `CvarSequence`, with the inner quantile sequence's fields; the
      generator's position is `xi.used`, shared by the two. */
  datatype State = State(state: real, n: nat, xi: VarRecursion.State)

  /** `cvar_sequence::next` as a step on `State`.  The first call returns the seed without
      touching the inner sequence or the generator.  Every later call advances the inner
      sequence exactly once and then takes one draw for Λ: two draws, except on the second
      call, where the inner sequence returns its own seed ξ₀ = 0 without drawing. */
  function Step(alpha: Level, gamma: Schedule, stream: nat -> real, s: State): (r: (State, real))
    ensures r.0.n == s.n + 1 && r.1 == r.0.state
    ensures s.n == 0 ==> r.0 == State(s.state, 1, s.xi)
    ensures s.n != 0 ==> r.0.xi.n == s.xi.n + 1
    ensures s.n != 0 ==> r.0.xi.used == s.xi.used + (if s.xi.n == 0 then 1 else 2)
  {
    if s.n == 0 then (State(s.state, 1, s.xi), s.state)
    else
      var p := VarRecursion.Step(alpha, gamma, stream, s.xi);
      var lambda := Lambda(p.1, stream(p.0.used), alpha);
      var state := Toward(s.state, lambda, 1.0 / ((s.n + 1) as real));
      (State(state, s.n + 1, p.0.(used := p.0.used + 1)), state)
  }

  /** `Step` with its parameters fixed. */
  function Next(alpha: Level, gamma: Schedule, stream: nat -> real): State -> (State, real)
  {
    s => Step(alpha, gamma, stream, s)
  }

  /** The value a call returns, read off the state it leaves. */
  function Output(s: State): real
  {
    s.state
  }

  /** Every call returns the estimate it stores. */
  lemma NextOutputs(alpha: Level, gamma: Schedule, stream: nat -> real)
    ensures forall x :: Next(alpha, gamma, stream)(x).1 == Output(Next(alpha, gamma, stream)(x).0)
  {
  }

  /** The sequence n ↦ Cₙ of src/detail/cvar_sequence.hpp:13-42. */
  class CvarSequence {
    const alpha: Level
    var state: real
    const varState: VarRecursion.VarSequence
    var n: nat
    /** The values Λ absorbed so far, in order. */
    ghost var lambdas: seq<real>

    ghost predicate Valid()
      reads this
    {
      && varState.alpha == alpha
      && |lambdas| == (if n == 0 then 0 else n - 1)
      && state == TailMean(lambdas)
    }

    /** C₀ = 0, with a fresh inner quantile sequence on the same α and γ. */
    constructor (alpha: Level, gamma: Schedule)
      ensures Valid() && this.alpha == alpha && state == 0.0 && n == 0
      ensures fresh(varState) && varState.alpha == alpha && varState.gamma == gamma
      ensures varState.state == 0.0 && varState.n == 0
    {
      this.alpha := alpha;
      state := 0.0;
      varState := new VarRecursion.VarSequence(alpha, gamma);
      n := 0;
      lambdas := [];
    }

    ghost function Model(src: Random.Source): State
      reads this, varState, src
    {
      State(state, n, varState.Model(src))
    }

    /** `next(d, g)`: the next term; after it, the estimate is the tail mean of every Λ
        absorbed so far, the one drawn by this call last. */
    method Next(src: Random.Source) returns (r: real)
      requires Valid()
      modifies this, varState, src
      ensures Valid() && n == old(n) + 1
      ensures (Model(src), r) == Step(alpha, varState.gamma, src.stream, old(Model(src)))
      ensures old(n) == 0 ==> lambdas == old(lambdas)
      ensures old(n) != 0 ==>
        lambdas == old(lambdas) + [Lambda(varState.state, src.stream(src.used - 1), alpha)]
    {
      if n == 0 {
        n := n + 1;
        return state;
      }
      ghost var before := Model(src);
      var xi := varState.Next(src);
      var x := src.Draw();
      var lambda := Lambda(xi, x, alpha);
      TailMeanSnoc(lambdas, lambda, n);
      state := Toward(state, lambda, 1.0 / ((n + 1) as real));
      lambdas := lambdas + [lambda];
      n := n + 1;
      r := state;
      assert Step(alpha, varState.gamma, src.stream, before).0 == Model(src);
    }
  }

  /** From a fresh state, k + 1 calls advance the inner quantile sequence k times and
      consume 2k − 1 draws when k >= 1: one for each of the k inner calls but the seed call,
      and one for each of the k values of Λ. */
  lemma {:induction false} DrawsConsumed(alpha: Level, gamma: Schedule, stream: nat -> real, used: nat, k: nat)
    ensures var s := Sequence.Run(Next(alpha, gamma, stream), State(0.0, 0, VarRecursion.State(0.0, 0, used)), k + 1).0;
      && s.n == k + 1
      && s.xi.n == k
      && s.xi.used == used + (if k == 0 then 0 else 2 * k - 1)
  {
    if k > 0 {
      DrawsConsumed(alpha, gamma, stream, used, k - 1);
    }
  }
}
