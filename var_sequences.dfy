/** `detail::var::approx_sequence` of src/detail/var_sequences.hpp: the same quantile
    recursion as `VarRecursion.VarSequence`, kept as its own class because the tail-mean recursion of
    src/detail/cvar_sequences.hpp drives this one.  Its `var::H` is `VarRecursion.H`. */
module VarSequences {
  import opened Steps
  import opened Confidence
  import VarRecursion
  import Random

  /** The sequence n ↦ ξₙ, with ξ₀ = 0. */
  class ApproxSequence {
    const alpha: Level
    const gamma: Schedule
    var xi: real
    var n: nat

    constructor (alpha: Level, gamma: Schedule)
      ensures this.alpha == alpha && this.gamma == gamma
      ensures xi == 0.0 && n == 0
    {
      this.alpha := alpha;
      this.gamma := gamma;
      xi := 0.0;
      n := 0;
    }

    ghost function Model(src: Random.Source): VarRecursion.State
      reads this, src
    {
      VarRecursion.State(xi, n, src.used)
    }

    /** `next(d, g)`: the first call returns ξ₀ without drawing; each later call takes one
        draw x and sets ξ ← ξ − γ(n)·H(ξ, x, α). */
    method Next(src: Random.Source) returns (r: real)
      modifies this, src
      ensures n == old(n) + 1
      ensures (Model(src), r) == VarRecursion.Step(alpha, gamma, src.stream, old(Model(src)))
    {
      if n == 0 {
        n := n + 1;
        return xi;
      }
      ghost var before := Model(src);
      var x := src.Draw();
      xi := xi - gamma(n) * VarRecursion.H(xi, x, alpha);
      n := n + 1;
      r := xi;
      assert VarRecursion.Step(alpha, gamma, src.stream, before).0 == Model(src);
    }
  }
}
