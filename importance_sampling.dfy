/** The two-phase importance-sampling estimator of src/detail/importance_sampling.hpp.

    Phase 1 estimates the quantile ξ together with the shifts θ and μ of the sampling
    density, at a confidence level that climbs from 1/2 to α; phase 2 freezes θ and μ and
    estimates ξ and the tail mean C with the shifted draws.  The gradient terms are the
    piecewise functions L1 – L4, built from the family's `IS_params`. */
module ImportanceSampling {
  import opened Numeric
  import opened Confidence
  import opened Steps
  import opened Tuple
  import opened SamplingParameters
  import VarRecursion
  import CvarRecursion
  import Random
  import Sequence

  /** One gradient step v − g·grad. */
  function Descent(v: real, g: real, grad: real): real
  {
    v - g * grad
  }

  /** e^{−k·ρ·|θ|^b}: the control on θ, with k = 1 in L1 and k = 2 in L3. */
  function Control(m: Libm, d: Family, theta: real, k: real): real
  {
    Exp(m, -k * Rho(d) * Pow(m, Abs(theta), B(d)))
  }

  /** L3(ξ, θ, x): the θ-gradient of phase 1; zero unless the draw shifted back by θ
      reaches the tail. */
  function L3(m: Libm, d: Family, xi: real, theta: real, x: real, phi: real -> real): (r: real)
    ensures phi(x - theta) < xi ==> r == 0.0
  {
    if phi(x - theta) < xi then 0.0
    else Control(m, d, theta, 2.0) * W(m, d, x, theta)
  }

  /** In the tail, L3 has the sign of W, its control factor being positive. */
  lemma L3SignOfW(m: Libm, d: Family, xi: real, theta: real, x: real, phi: real -> real)
    requires ExpPositive(m) && xi <= phi(x - theta)
    ensures L3(m, d, xi, theta, x, phi) > 0.0 <==> W(m, d, x, theta) > 0.0
    ensures L3(m, d, xi, theta, x, phi) < 0.0 <==> W(m, d, x, theta) < 0.0
  {
    var k := Control(m, d, theta, 2.0);
    var w := W(m, d, x, theta);
    assert k > 0.0;
    if w > 0.0 {
      assert k * w > 0.0;
    } else if w < 0.0 {
      assert k * (-w) > 0.0;
    }
  }

  /** e^{−2a(|μ|² + 1)}: the control that the bound C·e^{a|x|} on φ² puts on μ. */
  function PayoffControl(m: Libm, a: real, mu: real): real
  {
    var norm := Abs(mu);
    Exp(m, -2.0 * a * (norm * norm + 1.0))
  }

  /** L4(ξ, μ, x): the μ-gradient of phase 1, L3 at μ weighted by the exponential control
      e^{−2a(|μ|² + 1)} on φ² and by (φ(x − μ) − ξ)².  It vanishes with L3, and when the
      shifted draw lands exactly on ξ. */
  function L4(m: Libm, d: Family, xi: real, mu: real, x: real, a: real, phi: real -> real): (r: real)
    ensures L3(m, d, xi, mu, x, phi) == 0.0 ==> r == 0.0
    ensures phi(x - mu) == xi ==> r == 0.0
  {
    var diff := phi(x - mu) - xi;
    PayoffControl(m, a, mu) * L3(m, d, xi, mu, x, phi) * diff * diff
  }

  /** L4 never has the opposite sign of L3. */
  lemma L4SignOfL3(m: Libm, d: Family, xi: real, mu: real, x: real, a: real, phi: real -> real)
    requires ExpPositive(m)
    ensures L3(m, d, xi, mu, x, phi) >= 0.0 ==> L4(m, d, xi, mu, x, a, phi) >= 0.0
    ensures L3(m, d, xi, mu, x, phi) <= 0.0 ==> L4(m, d, xi, mu, x, a, phi) <= 0.0
  {
    var diff := phi(x - mu) - xi;
    var e := PayoffControl(m, a, mu);
    var l := L3(m, d, xi, mu, x, phi);
    var sq := diff * diff;
    assert e > 0.0 && sq >= 0.0;
    var el := e * l;
    assert L4(m, d, xi, mu, x, a, phi) == el * diff * diff;
    assert el * diff * diff == el * sq;
    if l >= 0.0 {
      assert el >= 0.0;
      assert el * sq >= 0.0;
    } else {
      assert -el == e * (-l) >= 0.0;
      assert (-el) * sq >= 0.0;
    }
  }

  /** L1(ξ, θ, x): the ξ-gradient of phase 2.  Below the tail it is the bare control
      e^{−ρ|θ|^b}. */
  function L1(m: Libm, d: Family, xi: real, theta: real, x: real, alpha: Level, phi: real -> real)
    : (r: real)
    ensures phi(x + theta) < xi ==> r == Control(m, d, theta, 1.0)
  {
    var factor := Control(m, d, theta, 1.0);
    if phi(x + theta) < xi then factor
    else factor * (1.0 - 1.0 / (1.0 - alpha) * Incr(m, d, x, theta))
  }

  /** For α < 1, L1 never exceeds its control factor, and reaches it, a positive value,
      below the tail. */
  lemma L1Bounded(m: Libm, d: Family, xi: real, theta: real, x: real, alpha: Level, phi: real -> real)
    requires ExpPositive(m) && alpha < 1.0
    ensures L1(m, d, xi, theta, x, alpha, phi) <= Control(m, d, theta, 1.0)
    ensures phi(x + theta) < xi ==> L1(m, d, xi, theta, x, alpha, phi) > 0.0
  {
    var factor := Control(m, d, theta, 1.0);
    assert factor > 0.0;
    if xi <= phi(x + theta) {
      var k := 1.0 / (1.0 - alpha);
      var i := Incr(m, d, x, theta);
      IncrNonNegative(m, d, x, theta);
      ReciprocalPositive(1.0 - alpha);
      assert k * i >= 0.0;
      assert factor * (k * i) >= 0.0;
      assert factor * (1.0 - k * i) == factor - factor * (k * i);
    }
  }

  /** L2(ξ, C, μ, x): the C-gradient of phase 2.  Below the tail it is C − ξ. */
  function L2(m: Libm, d: Family, xi: real, c: real, mu: real, x: real, alpha: Level, phi: real -> real)
    : (r: real)
    ensures phi(x + mu) < xi ==> r == c - xi
  {
    var result := c - xi;
    var val := phi(x + mu);
    if val < xi then result
    else result - 1.0 / (1.0 - alpha) * (val - xi) * Incr(m, d, x, mu)
  }

  /** For α < 1, L2 never exceeds C − ξ: the tail term it subtracts is never negative. */
  lemma L2AtMost(m: Libm, d: Family, xi: real, c: real, mu: real, x: real, alpha: Level, phi: real -> real)
    requires ExpPositive(m) && alpha < 1.0
    ensures L2(m, d, xi, c, mu, x, alpha, phi) <= c - xi
  {
    var val := phi(x + mu);
    if xi <= val {
      var k := 1.0 / (1.0 - alpha);
      var i := Incr(m, d, x, mu);
      IncrNonNegative(m, d, x, mu);
      ReciprocalPositive(1.0 - alpha);
      var t := k * (val - xi) * i;
      assert k * (val - xi) >= 0.0;
      assert t >= 0.0;
      assert L2(m, d, xi, c, mu, x, alpha, phi) == (c - xi) - t;
    }
  }

  /** The adaptive level α_n of phase 1: 1/2 during the first third of the M steps when
      α > 1/2, 0.8 up to two thirds when α > 0.8, and α afterwards.  It never exceeds α. */
  function AlphaLevel(alpha: Level, M: int, n: nat): (r: Level)
    ensures r == 0.5 || r == 0.8 || r == alpha
    ensures r <= alpha
    ensures alpha <= 0.5 ==> r == alpha
    ensures n > 2 * TruncDiv(M, 3) ==> r == alpha
  {
    var threshold := TruncDiv(M, 3);
    if alpha > 0.5 && n <= threshold then 0.5
    else if alpha > 0.8 && n <= 2 * threshold then 0.8
    else alpha
  }

  /** For α in (0, 1), every adaptive level lies in (0, 1) too. */
  lemma AlphaLevelInRange(alpha: Level, M: int, n: nat)
    requires 0.0 < alpha < 1.0
    ensures 0.0 < AlphaLevel(alpha, M, n) < 1.0
  {
  }

  /** The fields of a phase-1 sequence fixed at construction. */
  datatype Phase1Params = Phase1Params(m: Libm, dist: Family, alpha: Level, a: real,
                                       phi: real -> real, gamma: Schedule, M: int)

  /** The fields of a phase-1 sequence that change, and the generator's position. */
  datatype Phase1State = Phase1State(xi: real, theta: real, mu: real, n: nat, used: nat)

  /** A fresh phase-1 sequence: ξ₀ = θ₀ = μ₀ = 0. */
  function Phase1Seed(used: nat): Phase1State
  {
    Phase1State(0.0, 0.0, 0.0, 0, used)
  }

  /** What phase 1's `next()` returns, read off the state it leaves: (ξ, θ, μ). */
  function Phase1Output(s: Phase1State): Triple
  {
    [s.xi, s.theta, s.mu]
  }

  /** `IS_phase1_sequence::next` as a step on `Phase1State`.  The first call returns
      (ξ₀, θ₀, μ₀) without drawing; every later call takes one raw draw x, moves θ by
      γ(n)·L3 and μ by γ(n)·L4, both with the ξ before the call, and then ξ by one quantile
      step at the adaptive level. */
  function Phase1Step(p: Phase1Params, stream: nat -> real, s: Phase1State): (r: (Phase1State, Triple))
    ensures r.0.n == s.n + 1 && r.1 == [r.0.xi, r.0.theta, r.0.mu]
    ensures s.n == 0 ==> r.0 == s.(n := 1)
    ensures s.n != 0 ==> r.0.used == s.used + 1
  {
    if s.n == 0 then (s.(n := 1), [s.xi, s.theta, s.mu])
    else
      var level := AlphaLevel(p.alpha, p.M, s.n);
      var x := stream(s.used);
      var g := p.gamma(s.n);
      var theta := Descent(s.theta, g, L3(p.m, p.dist, s.xi, s.theta, x, p.phi));
      var mu := Descent(s.mu, g, L4(p.m, p.dist, s.xi, s.mu, x, p.a, p.phi));
      var xi := VarRecursion.Update(s.xi, x, level, g);
      (Phase1State(xi, theta, mu, s.n + 1, s.used + 1), [xi, theta, mu])
  }

  /** `Phase1Step` with its parameters fixed. */
  function Phase1Next(p: Phase1Params, stream: nat -> real): Phase1State -> (Phase1State, Triple)
  {
    s => Phase1Step(p, stream, s)
  }

  /** What a later phase-1 call does with its draw x.  θ stays put unless x − θ reaches the
      tail, μ stays put unless x − μ passes strictly beyond ξ, and ξ takes a quantile step
      on the raw draw at level α_n: down by γ(n) when x < ξ, up by γ(n)·α_n/(1 − α_n)
      otherwise; once n > 2·(M/3), α_n is α itself. */
  lemma Phase1Updates(p: Phase1Params, stream: nat -> real, s: Phase1State)
    requires s.n != 0
    ensures var r := Phase1Step(p, stream, s).0;
      var x := stream(s.used);
      var g := p.gamma(s.n);
      var level := AlphaLevel(p.alpha, p.M, s.n);
      && (p.phi(x - s.theta) < s.xi ==> r.theta == s.theta)
      && (p.phi(x - s.mu) <= s.xi ==> r.mu == s.mu)
      && (0.0 < p.alpha < 1.0 && g > 0.0 && x < s.xi ==> r.xi == s.xi - g)
      && (0.0 < p.alpha < 1.0 && g > 0.0 && s.xi <= x ==> r.xi == s.xi + g * level / (1.0 - level))
      && (s.n > 2 * TruncDiv(p.M, 3) ==> r.xi == VarRecursion.Update(s.xi, x, p.alpha, g))
  {
    var x := stream(s.used);
    var g := p.gamma(s.n);
    var level := AlphaLevel(p.alpha, p.M, s.n);
    if 0.0 < p.alpha < 1.0 && g > 0.0 {
      AlphaLevelInRange(p.alpha, p.M, s.n);
      VarRecursion.UpdateDirection(s.xi, x, level, g);
    }
  }

  /** k + 1 phase-1 calls from the seeds consume exactly k draws. */
  lemma {:induction false} Phase1DrawsConsumed(p: Phase1Params, stream: nat -> real, used: nat, k: nat)
    ensures Sequence.Run(Phase1Next(p, stream), Phase1Seed(used), k + 1).0.used == used + k
    ensures Sequence.Run(Phase1Next(p, stream), Phase1Seed(used), k + 1).0.n == k + 1
  {
    if k > 0 {
      Phase1DrawsConsumed(p, stream, used, k - 1);
    }
  }

  /** The fields of a phase-2 sequence fixed at construction. */
  datatype Phase2Params = Phase2Params(m: Libm, dist: Family, alpha: Level,
                                       phi: real -> real, gamma: Schedule)

  /** The fields of a phase-2 sequence and the generator's position.  θ and μ are fields
      of the object that `next` reads but never writes. */
  datatype Phase2State = Phase2State(xi: real, c: real, theta: real, mu: real, n: nat, used: nat)

  /** A phase-2 sequence built on the phase-1 estimates: C₀ = 0. */
  function Phase2Seed(xi: real, theta: real, mu: real, used: nat): Phase2State
  {
    Phase2State(xi, 0.0, theta, mu, 0, used)
  }

  /** What phase 2's `next()` returns, read off the state it leaves: (ξ, C). */
  function Phase2Output(s: Phase2State): Pair
  {
    [s.xi, s.c]
  }

  /** `IS_phase2_sequence::next` as a step on `Phase2State`.  The first call returns
      (ξ₀, C₀) without drawing; every later call takes one raw draw x and moves C by
      γ(n)·L2 and ξ by γ(n)·L1, both with the ξ before the call.  θ and μ never change. */
  function Phase2Step(p: Phase2Params, stream: nat -> real, s: Phase2State): (r: (Phase2State, Pair))
    ensures r.0.n == s.n + 1 && r.1 == [r.0.xi, r.0.c]
    ensures r.0.theta == s.theta && r.0.mu == s.mu
    ensures s.n == 0 ==> r.0 == s.(n := 1)
    ensures s.n != 0 ==> r.0.used == s.used + 1
  {
    if s.n == 0 then (s.(n := 1), [s.xi, s.c])
    else
      var x := stream(s.used);
      var g := p.gamma(s.n);
      var c := Descent(s.c, g, L2(p.m, p.dist, s.xi, s.c, s.mu, x, p.alpha, p.phi));
      var xi := Descent(s.xi, g, L1(p.m, p.dist, s.xi, s.theta, x, p.alpha, p.phi));
      (s.(xi := xi, c := c, n := s.n + 1, used := s.used + 1), [xi, c])
  }

  /** `Phase2Step` with its parameters fixed. */
  function Phase2Next(p: Phase2Params, stream: nat -> real): Phase2State -> (Phase2State, Pair)
  {
    s => Phase2Step(p, stream, s)
  }

  /** Phase 2 keeps the shifts phase 1 found: after any number of calls θ and μ are still
      the ones it was built with, and the counter has advanced by the number of calls. */
  lemma {:induction false} Phase2Frozen(p: Phase2Params, stream: nat -> real, s: Phase2State, k: nat)
    ensures var t := Sequence.Run(Phase2Next(p, stream), s, k).0;
      t.theta == s.theta && t.mu == s.mu && t.n == s.n + k
  {
    if k > 0 {
      Phase2Frozen(p, stream, s, k - 1);
    }
  }

  /** k + 1 phase-2 calls from the phase-1 estimates consume exactly k draws. */
  lemma {:induction false} Phase2DrawsConsumed(p: Phase2Params, stream: nat -> real,
                                               xi: real, theta: real, mu: real, used: nat, k: nat)
    ensures Sequence.Run(Phase2Next(p, stream), Phase2Seed(xi, theta, mu, used), k + 1).0.used == used + k
    ensures Sequence.Run(Phase2Next(p, stream), Phase2Seed(xi, theta, mu, used), k + 1).0.n == k + 1
  {
    if k > 0 {
      Phase2DrawsConsumed(p, stream, xi, theta, mu, used, k - 1);
    }
  }

  /** When a later phase-2 draw x lands short of the tail after the shift by μ, C moves
      toward ξ by γ(n): L2 is then exactly C − ξ. */
  lemma Phase2BelowTail(p: Phase2Params, stream: nat -> real, s: Phase2State)
    requires s.n != 0 && p.phi(stream(s.used) + s.mu) < s.xi
    ensures Phase2Step(p, stream, s).0.c == CvarRecursion.Toward(s.c, s.xi, p.gamma(s.n))
  {
  }

  /** For α < 1 and γ(n) >= 0, a later phase-2 call never moves C below C − γ(n)·(C − ξ),
      the update it makes when the shifted draw misses the tail. */
  lemma Phase2CLowerBound(p: Phase2Params, stream: nat -> real, s: Phase2State)
    requires s.n != 0 && ExpPositive(p.m) && p.alpha < 1.0 && p.gamma(s.n) >= 0.0
    ensures Phase2Step(p, stream, s).0.c >= s.c - p.gamma(s.n) * (s.c - s.xi)
  {
    var x := stream(s.used);
    var g := p.gamma(s.n);
    L2AtMost(p.m, p.dist, s.xi, s.c, s.mu, x, p.alpha, p.phi);
    var l := L2(p.m, p.dist, s.xi, s.c, s.mu, x, p.alpha, p.phi);
    assert g * l <= g * (s.c - s.xi);
  }

  /** When a later phase-2 draw shifted by θ misses the tail and γ(n) > 0, ξ strictly
      decreases: L1 is then its positive control factor. */
  lemma Phase2XiDecreases(p: Phase2Params, stream: nat -> real, s: Phase2State)
    requires s.n != 0 && ExpPositive(p.m) && p.gamma(s.n) > 0.0
    requires p.phi(stream(s.used) + s.theta) < s.xi
    ensures Phase2Step(p, stream, s).0.xi < s.xi
  {
    var f := Control(p.m, p.dist, s.theta, 1.0);
    assert f > 0.0;
    assert p.gamma(s.n) * f > 0.0;
  }

  /** The sequence n ↦ (ξₙ, θₙ, μₙ) of src/detail/importance_sampling.hpp:45-110. */
  class Phase1Sequence {
    const m: Libm
    const dist: Family
    const alpha: Level
    const a: real
    const phi: real -> real
    const gamma: Schedule
    const M: int
    var xi: real
    var theta: real
    var mu: real
    var n: nat
    const src: Random.Source

    /** ξ₀ = θ₀ = μ₀ = 0, no call made yet; `dist` is the distribution the source draws from. */
    constructor (alpha: Level, a: real, phi: real -> real, gamma: Schedule, M: int,
                 m: Libm, dist: Family, src: Random.Source)
      ensures Parameters() == Phase1Params(m, dist, alpha, a, phi, gamma, M) && this.src == src
      ensures xi == 0.0 && theta == 0.0 && mu == 0.0 && n == 0
    {
      this.m := m;
      this.dist := dist;
      this.alpha := alpha;
      this.a := a;
      this.phi := phi;
      this.gamma := gamma;
      this.M := M;
      this.src := src;
      xi := 0.0;
      theta := 0.0;
      mu := 0.0;
      n := 0;
    }

    /** The copy a by-value parameter makes: same fields, same shared random source. */
    constructor Copy(other: Phase1Sequence)
      ensures Parameters() == other.Parameters() && src == other.src
      ensures xi == other.xi && theta == other.theta && mu == other.mu && n == other.n
    {
      m := other.m;
      dist := other.dist;
      alpha := other.alpha;
      a := other.a;
      phi := other.phi;
      gamma := other.gamma;
      M := other.M;
      src := other.src;
      xi := other.xi;
      theta := other.theta;
      mu := other.mu;
      n := other.n;
    }

    function Parameters(): Phase1Params
    {
      Phase1Params(m, dist, alpha, a, phi, gamma, M)
    }

    ghost function Model(): Phase1State
      reads this, src
    {
      Phase1State(xi, theta, mu, n, src.used)
    }

    /** `next()`: the next triple. */
    method Next() returns (r: Triple)
      modifies this, src
      ensures n == old(n) + 1
      ensures (Model(), r) == Phase1Step(Parameters(), src.stream, old(Model()))
    {
      if n == 0 {
        var xi0, theta0, mu0 := xi, theta, mu;
        n := n + 1;
        return [xi0, theta0, mu0];
      }
      var level := AlphaLevel(alpha, M, n);
      var x := src.Draw();
      var g := gamma(n);
      theta := Descent(theta, g, L3(m, dist, xi, theta, x, phi));
      mu := Descent(mu, g, L4(m, dist, xi, mu, x, a, phi));
      xi := VarRecursion.Update(xi, x, level, g);
      n := n + 1;
      r := [xi, theta, mu];
    }
  }

  /** The sequence n ↦ (ξₙ, Cₙ) of src/detail/importance_sampling.hpp:150-201. */
  class Phase2Sequence {
    const m: Libm
    const dist: Family
    const alpha: Level
    const phi: real -> real
    const gamma: Schedule
    var xi: real
    var c: real
    var theta: real
    var mu: real
    var n: nat
    const src: Random.Source

    /** Built on the estimates ξ, θ, μ of phase 1, with C₀ = 0 and no call made yet. */
    constructor (alpha: Level, xi: real, theta: real, mu: real, phi: real -> real, gamma: Schedule,
                 m: Libm, dist: Family, src: Random.Source)
      ensures Parameters() == Phase2Params(m, dist, alpha, phi, gamma) && this.src == src
      ensures this.xi == xi && c == 0.0 && this.theta == theta && this.mu == mu && n == 0
    {
      this.m := m;
      this.dist := dist;
      this.alpha := alpha;
      this.phi := phi;
      this.gamma := gamma;
      this.src := src;
      this.xi := xi;
      c := 0.0;
      this.theta := theta;
      this.mu := mu;
      n := 0;
    }

    /** The copy a by-value parameter makes: same fields, same shared random source. */
    constructor Copy(other: Phase2Sequence)
      ensures Parameters() == other.Parameters() && src == other.src
      ensures xi == other.xi && c == other.c && theta == other.theta && mu == other.mu
      ensures n == other.n
    {
      m := other.m;
      dist := other.dist;
      alpha := other.alpha;
      phi := other.phi;
      gamma := other.gamma;
      src := other.src;
      xi := other.xi;
      c := other.c;
      theta := other.theta;
      mu := other.mu;
      n := other.n;
    }

    function Parameters(): Phase2Params
    {
      Phase2Params(m, dist, alpha, phi, gamma)
    }

    ghost function Model(): Phase2State
      reads this, src
    {
      Phase2State(xi, c, theta, mu, n, src.used)
    }

    /** `next()`: the next pair. */
    method Next() returns (r: Pair)
      modifies this, src
      ensures n == old(n) + 1
      ensures (Model(), r) == Phase2Step(Parameters(), src.stream, old(Model()))
    {
      if n == 0 {
        var xi0, c0 := xi, c;
        n := n + 1;
        return [xi0, c0];
      }
      var x := src.Draw();
      var g := gamma(n);
      c := Descent(c, g, L2(m, dist, xi, c, mu, x, alpha, phi));
      xi := Descent(xi, g, L1(m, dist, xi, theta, x, alpha, phi));
      n := n + 1;
      r := [xi, c];
    }
  }
}
