/** `detail::iterate` of src/detail/iterate.hpp: the `iterations`-th term of a sequence.

    The template takes its sequence by value, so it advances a copy: the caller's object
    keeps its fields, while the random source, which the copy shares, moves on by the
    draws the calls make.  The result starts value-initialised (`PairZero`, `TripleZero`) and is overwritten by each call; with `iterations <= 0`
    no call is made and the zeros come back.

    Dafny has no class templates over an interface, so the template is written once for
    each sequence type the core instantiates it with. */
module Iterate {
  import opened Tuple
  import Sequence
  import StochasticGradient
  import ImportanceSampling
  import Averaging

  /** `iterate(sequence, iterations)` for `approx_sequence`. */
  method IterateApprox(sequence: StochasticGradient.ApproxSequence, iterations: int)
    returns (r: Pair)
    modifies sequence.src
    ensures r == Sequence.Nth(StochasticGradient.Next(sequence.Parameters(), sequence.src.stream),
                              old(sequence.Model()), iterations, PairZero)
    ensures sequence.src.used ==
      if iterations <= 0 then old(sequence.src.used)
      else Sequence.Run(StochasticGradient.Next(sequence.Parameters(), sequence.src.stream),
                        old(sequence.Model()), iterations).0.used
  {
    ghost var s := sequence.Model();
    ghost var next := StochasticGradient.Next(sequence.Parameters(), sequence.src.stream);
    var copy := new StochasticGradient.ApproxSequence.Copy(sequence);
    r := PairZero;
    var n := 0;
    while n < iterations
      invariant 0 <= n <= if iterations < 0 then 0 else iterations
      invariant copy.Model() == Sequence.Run(next, s, n).0
      invariant r == if n == 0 then PairZero else [copy.xi, copy.c]
    {
      ghost var before := copy.Model();
      r := copy.Next();
      Sequence.Advance(next, s, n, PairZero, before, copy.Model(), r);
      n := n + 1;
    }
    Sequence.Finish(next, s, n, iterations, PairZero);
    Sequence.NthOfState(next, StochasticGradient.Output, s, iterations, PairZero);
  }

  /** `iterate(sequence, iterations)` for `IS_phase1_sequence`. */
  method IteratePhase1(sequence: ImportanceSampling.Phase1Sequence, iterations: int)
    returns (r: Triple)
    modifies sequence.src
    ensures r == Sequence.Nth(ImportanceSampling.Phase1Next(sequence.Parameters(), sequence.src.stream),
                              old(sequence.Model()), iterations, TripleZero)
    ensures sequence.src.used ==
      if iterations <= 0 then old(sequence.src.used)
      else Sequence.Run(ImportanceSampling.Phase1Next(sequence.Parameters(), sequence.src.stream),
                        old(sequence.Model()), iterations).0.used
  {
    ghost var s := sequence.Model();
    ghost var next := ImportanceSampling.Phase1Next(sequence.Parameters(), sequence.src.stream);
    var copy := new ImportanceSampling.Phase1Sequence.Copy(sequence);
    r := TripleZero;
    var n := 0;
    while n < iterations
      invariant 0 <= n <= if iterations < 0 then 0 else iterations
      invariant copy.Model() == Sequence.Run(next, s, n).0
      invariant r == if n == 0 then TripleZero else [copy.xi, copy.theta, copy.mu]
    {
      ghost var before := copy.Model();
      r := copy.Next();
      Sequence.Advance(next, s, n, TripleZero, before, copy.Model(), r);
      n := n + 1;
    }
    Sequence.Finish(next, s, n, iterations, TripleZero);
    Sequence.NthOfState(next, ImportanceSampling.Phase1Output, s, iterations, TripleZero);
  }

  /** `iterate(sequence, iterations)` for `IS_phase2_sequence`. */
  method IteratePhase2(sequence: ImportanceSampling.Phase2Sequence, iterations: int)
    returns (r: Pair)
    modifies sequence.src
    ensures r == Sequence.Nth(ImportanceSampling.Phase2Next(sequence.Parameters(), sequence.src.stream),
                              old(sequence.Model()), iterations, PairZero)
    ensures sequence.src.used ==
      if iterations <= 0 then old(sequence.src.used)
      else Sequence.Run(ImportanceSampling.Phase2Next(sequence.Parameters(), sequence.src.stream),
                        old(sequence.Model()), iterations).0.used
  {
    var copy := new ImportanceSampling.Phase2Sequence.Copy(sequence);
    r := LoopPhase2(copy, iterations);
  }

  /** The loop of `iterate` on the copy of a phase-2 sequence: the copy is left in the
      state `iterations` calls reach. */
  method LoopPhase2(copy: ImportanceSampling.Phase2Sequence, iterations: int) returns (r: Pair)
    modifies copy, copy.src
    ensures r == Sequence.Nth(ImportanceSampling.Phase2Next(copy.Parameters(), copy.src.stream),
                              old(copy.Model()), iterations, PairZero)
    ensures copy.Model() == Sequence.Final(ImportanceSampling.Phase2Next(copy.Parameters(), copy.src.stream),
                                           old(copy.Model()), iterations)
  {
    ghost var s := copy.Model();
    ghost var next := ImportanceSampling.Phase2Next(copy.Parameters(), copy.src.stream);
    r := PairZero;
    var n := 0;
    while n < iterations
      invariant 0 <= n <= if iterations < 0 then 0 else iterations
      invariant copy.Model() == Sequence.Run(next, s, n).0
      invariant r == if n == 0 then PairZero else [copy.xi, copy.c]
    {
      ghost var before := copy.Model();
      r := copy.Next();
      Sequence.Advance(next, s, n, PairZero, before, copy.Model(), r);
      n := n + 1;
    }
    Sequence.Finish(next, s, n, iterations, PairZero);
    Sequence.NthOfState(next, ImportanceSampling.Phase2Output, s, iterations, PairZero);
  }

  /** `iterate(sequence, iterations)` for `averaging<...>`: copying the decorator copies
      the sequence it owns, so neither the decorator nor its sequence is advanced. */
  method IterateAveraged(sequence: Averaging.Averaging, iterations: int) returns (r: Pair)
    modifies sequence.state.Source()
    ensures r == Sequence.Nth(Averaging.Next(Averaging.InnerNext(sequence.state.Source().stream)),
                              old(sequence.Model()), iterations, PairZero)
    ensures sequence.state.Source().used ==
      Sequence.Final(Averaging.Next(Averaging.InnerNext(sequence.state.Source().stream)),
                     old(sequence.Model()), iterations).inner.Used()
    ensures unchanged(sequence.state.Object())
  {
    ghost var s := sequence.Model();
    ghost var next := Averaging.Next(Averaging.InnerNext(sequence.state.Source().stream));
    var copy := new Averaging.Averaging.Copy(sequence);
    r := LoopAveraged(copy, iterations, next, s);
    assert copy.state.Model().Used() == copy.state.Source().used;
  }

  /** The loop of `iterate` on the copy of an averaging decorator. */
  method LoopAveraged(copy: Averaging.Averaging, iterations: int,
                      ghost next: Averaging.AvgState<Averaging.Inner> -> (Averaging.AvgState<Averaging.Inner>, Pair),
                      ghost s: Averaging.AvgState<Averaging.Inner>)
    returns (r: Pair)
    requires next == Averaging.Next(Averaging.InnerNext(copy.state.Source().stream))
    requires copy.Model() == s
    modifies copy, copy.state.Object(), copy.state.Source()
    ensures r == Sequence.Nth(next, s, iterations, PairZero)
    ensures copy.Model() == Sequence.Final(next, s, iterations)
  {
    r := PairZero;
    var n := 0;
    while n < iterations
      invariant 0 <= n <= if iterations < 0 then 0 else iterations
      invariant copy.Model() == Sequence.Run(next, s, n).0
      invariant r == if n == 0 then PairZero else copy.avg
    {
      ghost var before := copy.Model();
      r := copy.Next();
      Sequence.Advance(next, s, n, PairZero, before, copy.Model(), r);
      n := n + 1;
    }
    Sequence.Finish(next, s, n, iterations, PairZero);
    Sequence.NthOfState(next, Averaging.Output, s, iterations, PairZero);
  }
}
