/** The two VaR/CVaR kernels of src/estimate.hpp and their factories.

    A kernel holds its settings and, on `compute(d, g)`, builds its sequences over the
    run's random source and returns a term of them through `iterate`.  `approx_kernel`
    drives one `approx_sequence`; `IS_kernel` first runs importance-sampling phase 1 for
    M = iterations / 100 calls and then phase 2, seeded with phase 1's result.  Either
    kernel may wrap its last sequence in the averaging decorator.  The distribution `d`
    of the source appears as `dist` where the importance-sampling formulas need its
    parameters, and `m` stands for the `exp` and `pow` of the C library. */
module Estimate {
  import opened Tuple
  import opened Numeric
  import opened Confidence
  import opened Steps
  import opened Wrappers
  import Random
  import Sequence
  import SamplingParameters
  import StochasticGradient
  import ImportanceSampling
  import Averaging
  import Iterate

  /** `enum class averaging`. */
  datatype AveragingMode = Yes | No

  /** `identity(x) = x`: the default loss φ. */
  function Identity(x: real): (r: real)
    ensures r == x
  {
    x
  }

  /** `approx_kernel<Phi, Gamma>`: α, φ, γ, the averaging choice and the number of
      iterations. */
  datatype ApproxKernel = ApproxKernel(alpha: Level, phi: real -> real, gamma: Schedule,
                                       avg: AveragingMode, iterations: int)
  {
    function Params(): StochasticGradient.Params
    {
      StochasticGradient.Params(alpha, phi, gamma)
    }

    /** The pair `compute` returns when the generator starts at `used`: the
        `iterations`-th term of a fresh `approx_sequence`, or of its average. */
    function Result(stream: nat -> real, used: nat): Pair
    {
      if avg == No then
        Sequence.Nth(StochasticGradient.Next(Params(), stream), StochasticGradient.Seed(used),
                     iterations, PairZero)
      else
        Sequence.Nth(Averaging.Next(Averaging.InnerNext(stream)),
                     Averaging.AvgState(Averaging.Approx(Params(), StochasticGradient.Seed(used)), PairZero, 0),
                     iterations, PairZero)
    }

    /** `compute(d, g)`. */
    method Compute(src: Random.Source) returns (r: Pair)
      modifies src
      ensures r == Result(src.stream, old(src.used))
      ensures src.used == old(src.used) + Sequence.SeededDraws(iterations)
    {
      ghost var seed := StochasticGradient.Seed(src.used);
      ghost var next := StochasticGradient.Next(Params(), src.stream);
      var sequence := new StochasticGradient.ApproxSequence(alpha, phi, gamma, src);
      if avg == No {
        r := Iterate.IterateApprox(sequence, iterations);
      } else {
        var averaged := new Averaging.Averaging(Averaging.OfApprox(sequence));
        r := Iterate.IterateAveraged(averaged, iterations);
        Averaging.FinalOfApprox(src.stream, Params(), seed, PairZero, iterations);
      }
      assert src.used == Sequence.Final(next, seed, iterations).used;
      if iterations >= 1 {
        StochasticGradient.DrawsConsumed(Params(), src.stream, seed.used, iterations - 1);
      }
    }
  }

  /** `IS_kernel<Phi, Gamma>`: α, the payoff parameter a, φ, γ, the averaging choice and
      the number of iterations. */
  datatype ISKernel = ISKernel(alpha: Level, a: real, phi: real -> real, gamma: Schedule,
                               avg: AveragingMode, iterations: int)
  {
    /** M = iterations / 100, with C++'s truncating integer division. */
    function PhaseOneLength(): int
    {
      TruncDiv(iterations, 100)
    }

    function Phase1Params(m: Libm, dist: SamplingParameters.Family): ImportanceSampling.Phase1Params
    {
      ImportanceSampling.Phase1Params(m, dist, alpha, a, phi, gamma, PhaseOneLength())
    }

    function Phase2Params(m: Libm, dist: SamplingParameters.Family): ImportanceSampling.Phase2Params
    {
      ImportanceSampling.Phase2Params(m, dist, alpha, phi, gamma)
    }

    /** The (ξ, θ, μ) phase 1 returns after M calls. */
    function Phase1Result(m: Libm, dist: SamplingParameters.Family, stream: nat -> real, used: nat): Triple
    {
      Sequence.Nth(ImportanceSampling.Phase1Next(Phase1Params(m, dist), stream),
                   ImportanceSampling.Phase1Seed(used), PhaseOneLength(), TripleZero)
    }

    /** The state phase 2 starts in: phase 1's result, C₀ = 0, and the generator where
        phase 1 left it. */
    function Phase2Start(m: Libm, dist: SamplingParameters.Family, stream: nat -> real, used: nat)
      : ImportanceSampling.Phase2State
    {
      var t := Phase1Result(m, dist, stream, used);
      var after := Sequence.Final(ImportanceSampling.Phase1Next(Phase1Params(m, dist), stream),
                                  ImportanceSampling.Phase1Seed(used), PhaseOneLength());
      ImportanceSampling.Phase2Seed(t[0], t[1], t[2], after.used)
    }

    /** The pair `compute` returns: the `iterations`-th term of phase 2, or of its
        average. */
    function Result(m: Libm, dist: SamplingParameters.Family, stream: nat -> real, used: nat): Pair
    {
      Phase2Result(m, dist, stream, Phase2Start(m, dist, stream, used))
    }

    /** The pair phase 2 returns from the state `s`: its `iterations`-th term, or that of
        its average. */
    function Phase2Result(m: Libm, dist: SamplingParameters.Family, stream: nat -> real,
                          s: ImportanceSampling.Phase2State): Pair
    {
      if avg == No then
        Sequence.Nth(ImportanceSampling.Phase2Next(Phase2Params(m, dist), stream), s, iterations, PairZero)
      else
        Sequence.Nth(Averaging.Next(Averaging.InnerNext(stream)),
                     Averaging.AvgState(Averaging.Phase2(Phase2Params(m, dist), s), PairZero, 0),
                     iterations, PairZero)
    }

    /** `compute(d, g)`. */
    method Compute(m: Libm, dist: SamplingParameters.Family, src: Random.Source) returns (r: Pair)
      modifies src
      ensures r == Result(m, dist, src.stream, old(src.used))
      ensures src.used == old(src.used) + Sequence.SeededDraws(PhaseOneLength()) + Sequence.SeededDraws(iterations)
    {
      ghost var used := src.used;
      var t := RunPhase1(m, dist, src);
      var phase2 := new ImportanceSampling.Phase2Sequence(alpha, t[0], t[1], t[2], phi, gamma, m, dist, src);
      assert phase2.Model() == Phase2Start(m, dist, src.stream, used);
      r := RunPhase2(m, dist, phase2);
    }

    /** Phase 1 of `compute`: M = iterations / 100 calls of a fresh phase-1 sequence. */
    method RunPhase1(m: Libm, dist: SamplingParameters.Family, src: Random.Source) returns (t: Triple)
      modifies src
      ensures t == Phase1Result(m, dist, src.stream, old(src.used))
      ensures src.used == Sequence.Final(ImportanceSampling.Phase1Next(Phase1Params(m, dist), src.stream),
                                         ImportanceSampling.Phase1Seed(old(src.used)), PhaseOneLength()).used
      ensures src.used == old(src.used) + Sequence.SeededDraws(PhaseOneLength())
    {
      ghost var used := src.used;
      var M := TruncDiv(iterations, 100);
      var phase1 := new ImportanceSampling.Phase1Sequence(alpha, a, phi, gamma, M, m, dist, src);
      t := Iterate.IteratePhase1(phase1, M);
      if M >= 1 {
        ImportanceSampling.Phase1DrawsConsumed(Phase1Params(m, dist), src.stream, used, M - 1);
      }
    }

    /** Phase 2 of `compute`: `iterate` on the fresh phase-2 sequence, or on its average. */
    method RunPhase2(m: Libm, dist: SamplingParameters.Family, phase2: ImportanceSampling.Phase2Sequence)
      returns (r: Pair)
      requires phase2.Parameters() == Phase2Params(m, dist) && phase2.c == 0.0 && phase2.n == 0
      modifies phase2.src
      ensures r == Phase2Result(m, dist, phase2.src.stream, old(phase2.Model()))
      ensures phase2.src.used == old(phase2.src.used) + Sequence.SeededDraws(iterations)
    {
      ghost var seed := phase2.Model();
      ghost var next := ImportanceSampling.Phase2Next(Phase2Params(m, dist), phase2.src.stream);
      if avg == No {
        r := Iterate.IteratePhase2(phase2, iterations);
      } else {
        var averaged := new Averaging.Averaging(Averaging.OfPhase2(phase2));
        r := Iterate.IterateAveraged(averaged, iterations);
        Averaging.FinalOfPhase2(phase2.src.stream, Phase2Params(m, dist), seed, PairZero, iterations);
      }
      assert phase2.src.used == Sequence.Final(next, seed, iterations).used;
      if iterations >= 1 {
        ImportanceSampling.Phase2DrawsConsumed(Phase2Params(m, dist), phase2.src.stream,
                                               seed.xi, seed.theta, seed.mu, seed.used, iterations - 1);
      }
    }
  }

  /** `stochastic_gradient(alpha, iterations, phi, gamma, avg)`: an argument left out
      (`None`) takes its default, φ = `identity`, γ = `steps::inverse`, no averaging. */
  function StochasticGradientKernel(alpha: Level, iterations: int, phi: Option<real -> real>,
                                    gamma: Option<Schedule>, avg: Option<AveragingMode>): (k: ApproxKernel)
    ensures k.alpha == alpha && k.iterations == iterations
    ensures phi.Some? ==> k.phi == phi.value
    ensures phi.None? ==> forall x :: k.phi(x) == x
    ensures gamma.Some? ==> k.gamma == gamma.value
    ensures gamma.None? ==> forall n: Index :: k.gamma(n) == Inverse(n)
    ensures k.avg == if avg.Some? then avg.value else No
  {
    ApproxKernel(alpha, if phi.Some? then phi.value else Identity,
                 if gamma.Some? then gamma.value else InverseSchedule,
                 if avg.Some? then avg.value else No, iterations)
  }

  /** `importance_sampling(alpha, a, iterations, phi, gamma, avg)`, with the same
      defaults. */
  function ImportanceSamplingKernel(alpha: Level, a: real, iterations: int, phi: Option<real -> real>,
                                    gamma: Option<Schedule>, avg: Option<AveragingMode>): (k: ISKernel)
    ensures k.alpha == alpha && k.a == a && k.iterations == iterations
    ensures phi.Some? ==> k.phi == phi.value
    ensures phi.None? ==> forall x :: k.phi(x) == x
    ensures gamma.Some? ==> k.gamma == gamma.value
    ensures gamma.None? ==> forall n: Index :: k.gamma(n) == Inverse(n)
    ensures k.avg == if avg.Some? then avg.value else No
  {
    ISKernel(alpha, a, if phi.Some? then phi.value else Identity,
             if gamma.Some? then gamma.value else InverseSchedule,
             if avg.Some? then avg.value else No, iterations)
  }

  /** One iteration returns the seed: the first call of `approx_sequence`, averaged or
      not, gives back ξ₀ = C₀ = 0. */
  lemma ApproxFirstTerm(k: ApproxKernel, stream: nat -> real, used: nat)
    requires k.iterations == 1
    ensures k.Result(stream, used) == [0.0, 0.0]
  {
    var s := StochasticGradient.Seed(used);
    if k.avg == No {
      Sequence.NthOne(StochasticGradient.Next(k.Params(), stream), s, PairZero);
    } else {
      Averaging.AveragedFirst(Averaging.InnerNext(stream), Averaging.Approx(k.Params(), s), PairZero, PairZero);
    }
  }

  /** With averaging and N >= 2 iterations, component i of the result times N − 1 is the
      sum of component i of the terms 2 … N of the plain sequence: the mean of those
      terms, the seed left out. */
  lemma ApproxAveragedMean(k: ApproxKernel, stream: nat -> real, used: nat, i: nat)
    requires k.avg == Yes && k.iterations >= 2 && i < 2
    ensures Times(k.Result(stream, used)[i], k.iterations - 1)
         == Sum(Averaging.Column(Sequence.Run(StochasticGradient.Next(k.Params(), stream),
                                              StochasticGradient.Seed(used), k.iterations).1[1..], i))
  {
    Averaging.MeanOfApprox(stream, k.Params(), StochasticGradient.Seed(used), k.iterations, i);
  }

  /** Phase 1 makes exactly M = iterations / 100 calls, M rounded toward zero: with
      fewer than 100 iterations it makes none, and phase 2 starts from ξ = θ = μ = 0 with
      the generator untouched. */
  lemma ISShortRun(k: ISKernel, m: Libm, dist: SamplingParameters.Family, stream: nat -> real, used: nat)
    requires -100 < k.iterations < 100
    ensures k.Phase2Start(m, dist, stream, used) == ImportanceSampling.Phase2Seed(0.0, 0.0, 0.0, used)
  {
    assert k.PhaseOneLength() == 0;
  }

  /** Phase 2 is seeded with phase 1's triple: its first term is (ξ of phase 1, 0), and
      θ and μ of phase 1 are kept through every later call. */
  lemma ISPhase2Seeded(k: ISKernel, m: Libm, dist: SamplingParameters.Family, stream: nat -> real,
                       used: nat, j: nat)
    ensures var t := k.Phase1Result(m, dist, stream, used);
      Sequence.Nth(ImportanceSampling.Phase2Next(k.Phase2Params(m, dist), stream),
                   k.Phase2Start(m, dist, stream, used), 1, PairZero) == [t[0], 0.0]
    ensures var t := k.Phase1Result(m, dist, stream, used);
      var after := Sequence.Run(ImportanceSampling.Phase2Next(k.Phase2Params(m, dist), stream),
                                k.Phase2Start(m, dist, stream, used), j).0;
      after.theta == t[1] && after.mu == t[2]
  {
    var next := ImportanceSampling.Phase2Next(k.Phase2Params(m, dist), stream);
    var s := k.Phase2Start(m, dist, stream, used);
    Sequence.NthOne(next, s, PairZero);
    ImportanceSampling.Phase2Frozen(k.Phase2Params(m, dist), stream, s, j);
  }

  /** One iteration returns (0, 0): phase 1 makes no call, and phase 2's first call, with
      or without averaging, returns its seed. */
  lemma ISFirstTerm(k: ISKernel, m: Libm, dist: SamplingParameters.Family, stream: nat -> real, used: nat)
    requires k.iterations == 1
    ensures k.Result(m, dist, stream, used) == [0.0, 0.0]
  {
    ISShortRun(k, m, dist, stream, used);
    var s := ImportanceSampling.Phase2Seed(0.0, 0.0, 0.0, used);
    if k.avg == No {
      Sequence.NthOne(ImportanceSampling.Phase2Next(k.Phase2Params(m, dist), stream), s, PairZero);
    } else {
      Averaging.AveragedFirst(Averaging.InnerNext(stream), Averaging.Phase2(k.Phase2Params(m, dist), s),
                              PairZero, PairZero);
    }
  }

  /** Averaging applies to phase 2 only: with averaging and N >= 2 iterations, the
      result is the mean of terms 2 … N of phase 2, which starts in the same state as
      without averaging. */
  lemma ISAveragedMean(k: ISKernel, m: Libm, dist: SamplingParameters.Family, stream: nat -> real,
                       used: nat, i: nat)
    requires k.avg == Yes && k.iterations >= 2 && i < 2
    ensures Times(k.Result(m, dist, stream, used)[i], k.iterations - 1)
         == Sum(Averaging.Column(Sequence.Run(ImportanceSampling.Phase2Next(k.Phase2Params(m, dist), stream),
                                              k.Phase2Start(m, dist, stream, used),
                                              k.iterations).1[1..], i))
  {
    Averaging.MeanOfPhase2(stream, k.Phase2Params(m, dist), k.Phase2Start(m, dist, stream, used), k.iterations, i);
  }
}
