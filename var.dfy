/** The quantile kernel `var_seq_kernel` of src/var.hpp.

    `compute(d, g)` builds a fresh `var_sequence` and calls its `next` `iterations`
    times, returning the last value.  The variable that receives the values is declared
    without an initialiser, so with `iterations <= 0` the kernel returns an indeterminate
    value: the model asks for at least one iteration.  The schedule `gamma_sequences::inverse`
    declared at the top of the file is `Steps.Inverse`. */
module VarKernel {
  import opened Confidence
  import opened Steps
  import opened Wrappers
  import Random
  import Sequence
  import VarRecursion

  /** `var_seq_kernel`: α, the number of iterations and γ. */
  datatype VarSeqKernel = VarSeqKernel(alpha: Level, iterations: int, gamma: Schedule)
  {
    /** The quantile sequence's step over the draws `stream`. */
    function Next(stream: nat -> real): VarRecursion.State -> (VarRecursion.State, real)
    {
      VarRecursion.Next(alpha, gamma, stream)
    }

    /** The value `compute` returns when the generator starts at `used`: the
        `iterations`-th term of a fresh sequence. */
    function Result(stream: nat -> real, used: nat): real
    {
      Sequence.Nth(Next(stream), VarRecursion.State(0.0, 0, used), iterations, 0.0)
    }

    /** `compute(d, g)`: `iterations` calls, the last value returned, and one draw taken
        by every call but the first. */
    method Compute(src: Random.Source) returns (r: real)
      requires iterations >= 1
      modifies src
      ensures r == Result(src.stream, old(src.used))
      ensures src.used == old(src.used) + iterations - 1
    {
      ghost var s := VarRecursion.State(0.0, 0, src.used);
      ghost var next := VarRecursion.Next(alpha, gamma, src.stream);
      var sequence := new VarRecursion.VarSequence(alpha, gamma);
      r := Calls(sequence, src, next, s);
      VarRecursion.DrawsConsumed(alpha, gamma, src.stream, s.used, iterations - 1);
    }

    /** The loop of `compute`: `iterations` calls of `next` on the sequence, the last
        value kept. */
    method Calls(sequence: VarRecursion.VarSequence, src: Random.Source,
                 ghost next: VarRecursion.State -> (VarRecursion.State, real), ghost s: VarRecursion.State)
      returns (r: real)
      requires iterations >= 1
      requires sequence.alpha == alpha && sequence.gamma == gamma
      requires next == VarRecursion.Next(alpha, gamma, src.stream) && sequence.Model(src) == s
      modifies sequence, src
      ensures r == Sequence.Nth(next, s, iterations, 0.0)
      ensures sequence.Model(src) == Sequence.Final(next, s, iterations)
    {
      r := 0.0;
      var n := 0;
      while n < iterations
        invariant 0 <= n <= iterations
        invariant sequence.Model(src) == Sequence.Run(next, s, n).0
        invariant n >= 1 ==> r == sequence.state
      {
        ghost var before := sequence.Model(src);
        r := sequence.Next(src);
        Sequence.Advance(next, s, n, 0.0, before, sequence.Model(src), r);
        n := n + 1;
      }
      VarRecursion.NextOutputs(alpha, gamma, src.stream);
      Sequence.NthOfState(next, VarRecursion.Output, s, iterations, 0.0);
    }
  }

  /** The constructor's defaults: γ left out (`None`) is `gamma_sequences::inverse`. */
  function MakeVarSeqKernel(alpha: Level, iterations: int, gamma: Option<Schedule>): (k: VarSeqKernel)
    ensures k.alpha == alpha && k.iterations == iterations
    ensures gamma.Some? ==> k.gamma == gamma.value
    ensures gamma.None? ==> forall n: Index :: k.gamma(n) == Inverse(n)
  {
    VarSeqKernel(alpha, iterations, if gamma.Some? then gamma.value else InverseSchedule)
  }

  /** One iteration returns the seed ξ₀ = 0. */
  lemma FirstTerm(k: VarSeqKernel, stream: nat -> real, used: nat)
    requires k.iterations == 1
    ensures k.Result(stream, used) == 0.0
  {
    Sequence.NthOne(k.Next(stream), VarRecursion.State(0.0, 0, used), 0.0);
  }

  /** Each further iteration applies one step of the quantile recursion to the previous
      result, with γ(N − 1) and the (N − 1)-th draw of the run: for N >= 2,
      result(N) = result(N − 1) − γ(N − 1)·H(result(N − 1), x, α). */
  lemma ResultRecursion(k: VarSeqKernel, stream: nat -> real, used: nat)
    requires k.iterations >= 2
    ensures k.Result(stream, used)
         == VarRecursion.Update(k.(iterations := k.iterations - 1).Result(stream, used),
                                stream(used + k.iterations - 2), k.alpha, k.gamma(k.iterations - 1))
  {
    var next := k.Next(stream);
    var s := VarRecursion.State(0.0, 0, used);
    var j := k.iterations - 1;
    Sequence.NthNext(next, s, j, 0.0);
    VarRecursion.DrawsConsumed(k.alpha, k.gamma, stream, used, j - 1);
    VarRecursion.NextOutputs(k.alpha, k.gamma, stream);
    Sequence.NthOfState(next, VarRecursion.Output, s, j, 0.0);
  }
}
