/** The naive stochastic-gradient estimator of src/detail/stochastic_gradient.hpp: the
    pair (ξₙ, Cₙ) driven by one transformed draw x = φ(d(g)) per call, with βₙ = γₙ.
    Its `H1` is `VarRecursion.H` and its `v` is `CvarRecursion.Lambda`. */
module StochasticGradient {
  import opened Steps
  import opened Confidence
  import opened Tuple
  import VarRecursion
  import CvarRecursion
  import Random
  import Sequence

  /** The fields fixed at construction: the level, the payoff φ and the schedule γ. */
  datatype Params = Params(alpha: Level, phi: real -> real, gamma: Schedule)

  /** The fields that change, and the generator's position. */
  datatype State = State(xi: real, c: real, n: nat, used: nat)

  /** The state of a freshly built sequence: ξ₀ = C₀ = 0, with the generator at `used`. */
  function Seed(used: nat): State
  {
    State(0.0, 0.0, 0, used)
  }

  /** What `next()` returns, read off the state it leaves: (ξ, C). */
  function Output(s: State): Pair
  {
    [s.xi, s.c]
  }

  /** `approx_sequence::next` as a step on `State`.  The first call returns (ξ₀, C₀) and
      draws nothing; every later call takes one draw x = φ(d(g)), moves C toward
      v(ξ, x, α) and ξ by one quantile step, both with γ(n) and the ξ before the call. */
  function Step(p: Params, stream: nat -> real, s: State): (r: (State, Pair))
    ensures r.0.n == s.n + 1 && r.1 == [r.0.xi, r.0.c]
    ensures s.n == 0 ==> r.0 == State(s.xi, s.c, 1, s.used)
    ensures s.n != 0 ==> r.0.used == s.used + 1
  {
    if s.n == 0 then (State(s.xi, s.c, 1, s.used), [s.xi, s.c])
    else
      var x := p.phi(stream(s.used));
      var c := CvarRecursion.Toward(s.c, CvarRecursion.Lambda(s.xi, x, p.alpha), p.gamma(s.n));
      var xi := VarRecursion.Update(s.xi, x, p.alpha, p.gamma(s.n));
      (State(xi, c, s.n + 1, s.used + 1), [xi, c])
  }

  /** `Step` with its parameters fixed. */
  function Next(p: Params, stream: nat -> real): State -> (State, Pair)
  {
    s => Step(p, stream, s)
  }

  /** The draws as the recursions see them, after the payoff φ. */
  function Transformed(phi: real -> real, stream: nat -> real): nat -> real
  {
    (i: nat) => phi(stream(i))
  }

  /** A later call shares its single draw between both halves, and each half uses the ξ
      from before the call: C moves toward v(ξ, x, α), between the old C and v when
      γ(n) is in [0, 1]; ξ moves down by γ(n) when x < ξ and up by γ(n)·α/(1 − α)
      otherwise. */
  lemma StepShared(p: Params, stream: nat -> real, s: State)
    requires s.n != 0
    ensures var r := Step(p, stream, s).0;
      var x := p.phi(stream(s.used));
      var v := CvarRecursion.Lambda(s.xi, x, p.alpha);
      && r.c == s.c - p.gamma(s.n) * (s.c - v)
      && (0.0 <= p.gamma(s.n) <= 1.0 && s.c <= v ==> s.c <= r.c <= v)
      && (0.0 <= p.gamma(s.n) <= 1.0 && v <= s.c ==> v <= r.c <= s.c)
      && (0.0 < p.alpha < 1.0 && p.gamma(s.n) > 0.0 && x < s.xi ==> r.xi == s.xi - p.gamma(s.n))
      && (0.0 < p.alpha < 1.0 && p.gamma(s.n) > 0.0 && s.xi <= x ==>
            r.xi == s.xi + p.gamma(s.n) * p.alpha / (1.0 - p.alpha))
  {
    var x := p.phi(stream(s.used));
    var v := CvarRecursion.Lambda(s.xi, x, p.alpha);
    assert Step(p, stream, s).0 == State(VarRecursion.Update(s.xi, x, p.alpha, p.gamma(s.n)),
      CvarRecursion.Toward(s.c, v, p.gamma(s.n)), s.n + 1, s.used + 1);
    if 0.0 <= p.gamma(s.n) <= 1.0 {
      CvarRecursion.TowardBetween(s.c, v, p.gamma(s.n));
    }
    if 0.0 < p.alpha < 1.0 && p.gamma(s.n) > 0.0 {
      VarRecursion.UpdateDirection(s.xi, x, p.alpha, p.gamma(s.n));
    }
  }

  /** The ξ half of the pair is the quantile recursion of src/detail/var_sequence.hpp run
      on the transformed draws: after any number of calls from the seeds, the two agree on
      ξ, on the counter and on the generator's position. */
  lemma {:induction false} XiIsQuantileRecursion(p: Params, stream: nat -> real, used: nat, k: nat)
    ensures var s := Sequence.Run(Next(p, stream), Seed(used), k).0;
      var t := Sequence.Run(VarRecursion.Next(p.alpha, p.gamma, Transformed(p.phi, stream)),
                            VarRecursion.State(0.0, 0, used), k).0;
      s.xi == t.state && s.n == t.n && s.used == t.used
  {
    if k > 0 {
      XiIsQuantileRecursion(p, stream, used, k - 1);
    }
  }

  /** k + 1 calls from the seeds consume exactly k draws: the first call draws nothing
      and every later call draws once. */
  lemma {:induction false} DrawsConsumed(p: Params, stream: nat -> real, used: nat, k: nat)
    ensures Sequence.Run(Next(p, stream), Seed(used), k + 1).0.used == used + k
    ensures Sequence.Run(Next(p, stream), Seed(used), k + 1).0.n == k + 1
  {
    if k > 0 {
      DrawsConsumed(p, stream, used, k - 1);
    }
  }

  /** The sequence n ↦ (ξₙ, Cₙ) of src/detail/stochastic_gradient.hpp:22-65.  Like the
      source's `Distribution &` and `Generator &` members, `src` is shared, not owned. */
  class ApproxSequence {
    const alpha: Level
    const phi: real -> real
    const gamma: Schedule
    var xi: real
    var c: real
    var n: nat
    const src: Random.Source

    /** ξ₀ = C₀ = 0, no call made yet. */
    constructor (alpha: Level, phi: real -> real, gamma: Schedule, src: Random.Source)
      ensures this.alpha == alpha && this.phi == phi && this.gamma == gamma && this.src == src
      ensures xi == 0.0 && c == 0.0 && n == 0
    {
      this.alpha := alpha;
      this.phi := phi;
      this.gamma := gamma;
      this.src := src;
      xi := 0.0;
      c := 0.0;
      n := 0;
    }

    /** The copy a by-value parameter makes: same fields, same shared random source. */
    constructor Copy(other: ApproxSequence)
      ensures alpha == other.alpha && phi == other.phi && gamma == other.gamma && src == other.src
      ensures xi == other.xi && c == other.c && n == other.n
    {
      alpha := other.alpha;
      phi := other.phi;
      gamma := other.gamma;
      src := other.src;
      xi := other.xi;
      c := other.c;
      n := other.n;
    }

    function Parameters(): Params
    {
      Params(alpha, phi, gamma)
    }

    ghost function Model(): State
      reads this, src
    {
      State(xi, c, n, src.used)
    }

    /** `next()`: the next pair. */
    method Next() returns (r: Pair)
      modifies this, src
      ensures n == old(n) + 1
      ensures (Model(), r) == Step(Parameters(), src.stream, old(Model()))
    {
      if n == 0 {
        var xi0, c0 := xi, c;
        n := n + 1;
        return [xi0, c0];
      }
      ghost var before := Model();
      var d := src.Draw();
      var x := phi(d);
      c := c - gamma(n) * (c - CvarRecursion.Lambda(xi, x, alpha));
      xi := xi - gamma(n) * VarRecursion.H(xi, x, alpha);
      n := n + 1;
      r := [xi, c];
      assert Step(Parameters(), src.stream, before).0 == Model();
    }
  }
}
