/** The two tail-mean (CVaR) kernels of src/cvar.hpp.

    `sequential_kernel` runs the recursive estimator `cvar_sequence` for `iterations`
    calls.  `monte_carlo_kernel` needs an estimate of the quantile and averages the first
    `iterations` draws at or above it, throwing the others away. */
module CvarKernels {
  import opened Numeric
  import opened Confidence
  import opened Steps
  import opened Wrappers
  import Random
  import Sequence
  import VarRecursion
  import CvarRecursion

  /** `sequential_kernel`: α, γ, β and the number of iterations.  `cvar_sequence` is
      built on α and γ; β is stored and never read. */
  datatype SequentialKernel = SequentialKernel(alpha: Level, gamma: Schedule, beta: Schedule, iterations: int)
  {
    /** The tail-mean sequence's step over the draws `stream`. */
    function Next(stream: nat -> real): CvarRecursion.State -> (CvarRecursion.State, real)
    {
      CvarRecursion.Next(alpha, gamma, stream)
    }

    /** The value `compute` returns when the generator starts at `used`: the
        `iterations`-th term of a fresh `cvar_sequence`. */
    function Result(stream: nat -> real, used: nat): real
    {
      Sequence.Nth(Next(stream), CvarRecursion.State(0.0, 0, VarRecursion.State(0.0, 0, used)),
                   iterations, 0.0)
    }

    /** `compute(d, g)`: the `iterations`-th term, which is the mean of the seed 0 and
        the `iterations` − 1 values Λ absorbed on the way. */
    method Compute(src: Random.Source) returns (r: real, ghost lambdas: seq<real>)
      requires iterations >= 1
      modifies src
      ensures r == Result(src.stream, old(src.used))
      ensures src.used == old(src.used) + (if iterations == 1 then 0 else 2 * iterations - 3)
      ensures |lambdas| == iterations - 1 && Times(r, |lambdas| + 1) == Sum(lambdas)
    {
      ghost var s := CvarRecursion.State(0.0, 0, VarRecursion.State(0.0, 0, src.used));
      var sequence := new CvarRecursion.CvarSequence(alpha, gamma);
      r := Calls(sequence, src, Next(src.stream), s);
      lambdas := sequence.lambdas;
      CvarRecursion.TailMeanIsMean(lambdas);
      CvarRecursion.DrawsConsumed(alpha, gamma, src.stream, s.xi.used, iterations - 1);
    }

    /** The loop of `compute`: `iterations` calls of `next` on the sequence, the last
        value kept. */
    method Calls(sequence: CvarRecursion.CvarSequence, src: Random.Source,
                 ghost next: CvarRecursion.State -> (CvarRecursion.State, real), ghost s: CvarRecursion.State)
      returns (r: real)
      requires iterations >= 1
      requires sequence.Valid() && sequence.alpha == alpha && sequence.varState.gamma == gamma
      requires next == Next(src.stream) && sequence.Model(src) == s && s.n == 0
      modifies sequence, sequence.varState, src
      ensures r == Sequence.Nth(next, s, iterations, 0.0)
      ensures sequence.Model(src) == Sequence.Final(next, s, iterations)
      ensures sequence.Valid() && |sequence.lambdas| == iterations - 1 && r == CvarRecursion.TailMean(sequence.lambdas)
    {
      r := 0.0;
      var n := 0;
      while n < iterations
        invariant 0 <= n <= iterations
        invariant sequence.Valid() && sequence.alpha == alpha && sequence.varState.gamma == gamma
        invariant sequence.n == n
        invariant sequence.Model(src) == Sequence.Run(next, s, n).0
        invariant n >= 1 ==> r == sequence.state
      {
        ghost var before := sequence.Model(src);
        r := sequence.Next(src);
        Sequence.Advance(next, s, n, 0.0, before, sequence.Model(src), r);
        n := n + 1;
      }
      CvarRecursion.NextOutputs(alpha, gamma, src.stream);
      Sequence.NthOfState(next, CvarRecursion.Output, s, iterations, 0.0);
    }
  }

  /** `sequential(alpha, iterations, gamma, beta)`: γ and β left out (`None`) both
      default to `gamma_sequences::inverse`. */
  function Sequential(alpha: Level, iterations: int, gamma: Option<Schedule>, beta: Option<Schedule>)
    : (k: SequentialKernel)
    ensures k.alpha == alpha && k.iterations == iterations
    ensures gamma.Some? ==> k.gamma == gamma.value
    ensures gamma.None? ==> forall n: Index :: k.gamma(n) == Inverse(n)
    ensures beta.Some? ==> k.beta == beta.value
    ensures beta.None? ==> forall n: Index :: k.beta(n) == Inverse(n)
  {
    SequentialKernel(alpha, if gamma.Some? then gamma.value else InverseSchedule,
                     if beta.Some? then beta.value else InverseSchedule, iterations)
  }

  /** One iteration returns the seed C₀ = 0. */
  lemma SequentialFirstTerm(k: SequentialKernel, stream: nat -> real, used: nat)
    requires k.iterations == 1
    ensures k.Result(stream, used) == 0.0
  {
    Sequence.NthOne(k.Next(stream), CvarRecursion.State(0.0, 0, VarRecursion.State(0.0, 0, used)), 0.0);
  }

  /** The draws at or above the threshold t among the `len` draws from position `from`,
      in the order they were drawn. */
  function Accepted(stream: nat -> real, from: nat, len: nat, t: real): (acc: seq<real>)
    ensures |acc| <= len
  {
    if len == 0 then []
    else
      var prev := Accepted(stream, from, len - 1, t);
      if stream(from + len - 1) < t then prev else prev + [stream(from + len - 1)]
  }

  /** One draw more: it is appended exactly when it reaches the threshold. */
  lemma AcceptedNext(stream: nat -> real, from: nat, len: nat, t: real)
    ensures stream(from + len) < t ==> Accepted(stream, from, len + 1, t) == Accepted(stream, from, len, t)
    ensures stream(from + len) >= t ==>
      Accepted(stream, from, len + 1, t) == Accepted(stream, from, len, t) + [stream(from + len)]
  {
  }

  /** Every accepted draw is at or above the threshold. */
  lemma {:induction false} AcceptedAtLeast(stream: nat -> real, from: nat, len: nat, t: real)
    ensures forall i :: 0 <= i < |Accepted(stream, from, len, t)| ==> Accepted(stream, from, len, t)[i] >= t
  {
    if len > 0 {
      AcceptedAtLeast(stream, from, len - 1, t);
    }
  }

  /** The mean of k >= 1 accepted draws is at least the threshold: their sum s divided
      by k is at least t. */
  lemma MeanOfAccepted(stream: nat -> real, from: nat, len: nat, t: real, s: real, k: nat)
    requires |Accepted(stream, from, len, t)| == k >= 1 && s == Sum(Accepted(stream, from, len, t))
    ensures s / (k as real) >= t
  {
    var acc := Accepted(stream, from, len, t);
    AcceptedAtLeast(stream, from, len, t);
    SumLowerBound(acc, t);
    QuotientAtLeast(s, k as real, t);
  }

  /** `monte_carlo_kernel`: α (stored, never read), the quantile estimate and the number
      of draws to average. */
  datatype MonteCarloKernel = MonteCarloKernel(alpha: Level, estimatedVar: real, iterations: int)
  {
    /** `compute(d, g)`: draws until `iterations` draws at or above `estimatedVar` have
        been accepted, and returns their sum divided by `iterations`.  The source loops
        for as long as it takes; the model is given a `horizon` within which enough draws
        are accepted.  With `iterations` = 0 the source divides 0 by 0. */
    method Compute(src: Random.Source, ghost horizon: nat) returns (r: real)
      requires iterations != 0
      requires |Accepted(src.stream, src.used, horizon, estimatedVar)| >= iterations
      modifies src
      ensures src.used >= old(src.used)
      ensures iterations < 0 ==> r == 0.0 && src.used == old(src.used)
      ensures iterations > 0 ==>
        var acc := Accepted(src.stream, old(src.used), src.used - old(src.used), estimatedVar);
        && |acc| == iterations
        && r * (iterations as real) == Sum(acc)
        && r >= estimatedVar
        && src.stream(src.used - 1) >= estimatedVar
    {
      ghost var from := src.used;
      var sum := Accumulate(src, horizon);
      r := sum / (iterations as real);
      if iterations > 0 {
        QuotientTimes(sum, iterations as real);
        MeanOfAccepted(src.stream, from, src.used - from, estimatedVar, sum, iterations);
      } else {
        ZeroQuotient(iterations as real);
      }
    }

    /** The loop of `compute`: the sum of the first `iterations` accepted draws. */
    method Accumulate(src: Random.Source, ghost horizon: nat) returns (sum: real)
      requires |Accepted(src.stream, src.used, horizon, estimatedVar)| >= iterations
      modifies src
      ensures old(src.used) <= src.used
      ensures iterations < 0 ==> sum == 0.0 && src.used == old(src.used)
      ensures iterations >= 0 ==>
        var acc := Accepted(src.stream, old(src.used), src.used - old(src.used), estimatedVar);
        |acc| == iterations && sum == Sum(acc)
      ensures iterations > 0 ==> src.stream(src.used - 1) >= estimatedVar
    {
      ghost var from := src.used;
      ghost var len := 0;
      ghost var acc: seq<real> := [];
      sum := 0.0;
      var n := 0;
      while n < iterations
        invariant src.used == from + len && len <= horizon
        invariant n <= if iterations < 0 then 0 else iterations
        invariant iterations < 0 ==> len == 0
        invariant acc == Accepted(src.stream, from, len, estimatedVar)
        invariant n == |acc| && sum == Sum(acc)
        invariant n < iterations || len == 0 || src.stream(from + len - 1) >= estimatedVar
        decreases horizon - len
      {
        assert len < horizon;
        var x := src.Draw();
        AcceptedNext(src.stream, from, len, estimatedVar);
        assert x == src.stream(from + len);
        len := len + 1;
        if x < estimatedVar {
          continue;
        }
        SumSnoc(acc, x);
        acc := acc + [x];
        n := n + 1;
        sum := sum + x;
      }
    }
  }

  /** `monte_carlo(alpha, estimated_var, iterations)`. */
  function MonteCarlo(alpha: Level, estimatedVar: real, iterations: int): (k: MonteCarloKernel)
    ensures k.alpha == alpha && k.estimatedVar == estimatedVar && k.iterations == iterations
  {
    MonteCarloKernel(alpha, estimatedVar, iterations)
  }
}
