/** The Ruppert–Polyak averaging decorator of src/detail/averaging.hpp.

    `averaging` owns a sequence and returns, at each call, the running mean of what that
    sequence has produced: the first call returns the sequence's first term, and each
    later call n folds in the new term y with avg ← avg − (avg − y)/n, component by
    component.  Because the divisor on the second call is 1, the seed y₀ drops out: after
    k >= 2 calls the result is the mean of y₁ … y_{k−1}.

    In the core the decorator is applied to the two sequences with pair values,
    `approx_sequence` of src/detail/stochastic_gradient.hpp and `IS_phase2_sequence` of
    src/detail/importance_sampling.hpp; `Wrapped` is the choice between them. */
module Averaging {
  import opened Tuple
  import opened Numeric
  import StochasticGradient
  import ImportanceSampling
  import Random
  import Sequence

  /** The decorator's fields: the wrapped sequence's state, the running mean and the
      number of calls made. */
  datatype AvgState<S> = AvgState(inner: S, avg: Pair, n: nat)

  /** avg − (avg − y)/n: the mean of n values moved to take in one more, component by
      component. */
  function Fold(avg: Pair, y: Pair, n: nat): (r: Pair)
    requires n >= 1
  {
    [avg[0] - (avg[0] - y[0]) / (n as real), avg[1] - (avg[1] - y[1]) / (n as real)]
  }

  /** The expression `avg_state - (avg_state - y) / n` of the source, built from the
      tuple operators, computes `Fold`. */
  lemma FoldByTuples(avg: Pair, y: Pair, n: nat)
    requires n >= 1
    ensures Sub(avg, Div(Sub(avg, y), n as real)) == Fold(avg, y, n)
  {
    var d := Div(Sub(avg, y), n as real);
    assert d[0] == (avg[0] - y[0]) / (n as real) && d[1] == (avg[1] - y[1]) / (n as real);
  }

  /** One call of `averaging::next` over a sequence whose `next` is the step `next`: the
      wrapped sequence advances exactly once and its value is folded into the mean. */
  function Step<S>(next: S -> (S, Pair), t: AvgState<S>): (r: (AvgState<S>, Pair))
    ensures r.0.inner == next(t.inner).0 && r.0.n == t.n + 1 && r.1 == r.0.avg
    ensures t.n == 0 ==> r.1 == next(t.inner).1
  {
    var q := next(t.inner);
    if t.n == 0 then (AvgState(q.0, q.1, 1), q.1)
    else
      var avg := Fold(t.avg, q.1, t.n);
      (AvgState(q.0, avg, t.n + 1), avg)
  }

  /** `Step` when the wrapped sequence's call returns q. */
  lemma StepFrom<S>(next: S -> (S, Pair), t: AvgState<S>, q: (S, Pair))
    requires next(t.inner) == q
    ensures t.n == 0 ==> Step(next, t) == (AvgState(q.0, q.1, 1), q.1)
    ensures t.n != 0 ==> Step(next, t) == (AvgState(q.0, Fold(t.avg, q.1, t.n), t.n + 1), Fold(t.avg, q.1, t.n))
  {
  }

  /** What the decorator's `next()` returns, read off the state it leaves: the mean. */
  function Output<S>(t: AvgState<S>): Pair
  {
    t.avg
  }

  /** `Step` over the step `next`. */
  function Next<S>(next: S -> (S, Pair)): AvgState<S> -> (AvgState<S>, Pair)
  {
    t => Step(next, t)
  }

  /** The running mean of the values y₀ … y_{k−1} as the decorator folds them in: y₀
      first, then y_j with the divisor j. */
  function RunningMean(ys: seq<Pair>): Pair
    requires |ys| >= 1
  {
    if |ys| == 1 then ys[0]
    else
      Fold(RunningMean(ys[..|ys| - 1]), ys[|ys| - 1], |ys| - 1)
  }

  /** Component i of every value in ys. */
  function Column(ys: seq<Pair>, i: nat): (c: seq<real>)
    requires i < 2
    ensures |c| == |ys| && forall j :: 0 <= j < |ys| ==> c[j] == ys[j][i]
  {
    seq(|ys|, j requires 0 <= j < |ys| => ys[j][i])
  }

  /** One fold, in component i: (m − (m − y)/k)ᵢ = mᵢ − (mᵢ − yᵢ)/k. */
  lemma FoldAt(m: Pair, y: Pair, k: nat, i: nat)
    requires k >= 1 && i < 2
    ensures Fold(m, y, k)[i] == m[i] - (m[i] - y[i]) / (k as real)
  {
  }

  /** One fold, in numbers: (m − (m − y)/n)·n is m·(n − 1) + y, component by component. */
  lemma FoldTimes(m: Pair, y: Pair, n: nat, i: nat)
    requires n >= 1 && i < 2
    ensures Times(Fold(m, y, n)[i], n) == Times(m[i], n - 1) + y[i]
  {
    var k := n as real;
    var r := Fold(m, y, n)[i];
    assert r == m[i] - (m[i] - y[i]) / k;
    assert ((m[i] - y[i]) / k) * k == m[i] - y[i];
    assert r * k == m[i] * k - (m[i] - y[i]);
  }

  /** The running mean of k >= 2 values is the running mean of the first k − 1 with the
      last folded in. */
  lemma LastFold(ys: seq<Pair>)
    requires |ys| >= 2
    ensures RunningMean(ys) == Fold(RunningMean(ys[..|ys| - 1]), ys[|ys| - 1], |ys| - 1)
  {
  }

  /** One more value, in numbers: (k − 1)·mean(ys) is (k − 2)·mean of all but the last
      value, plus the last value, where k = |ys|. */
  lemma MeanFold(ys: seq<Pair>, i: nat)
    requires |ys| >= 2 && i < 2
    ensures Times(RunningMean(ys)[i], |ys| - 1)
         == Times(RunningMean(ys[..|ys| - 1])[i], |ys| - 1 - 1) + ys[|ys| - 1][i]
  {
    LastFold(ys);
    FoldTimes(RunningMean(ys[..|ys| - 1]), ys[|ys| - 1], |ys| - 1, i);
  }

  /** Component i of every value in ys + [y]: the column of ys, then y's component. */
  lemma ColumnSnoc(ys: seq<Pair>, y: Pair, i: nat)
    requires i < 2
    ensures Column(ys + [y], i) == Column(ys, i) + [y[i]]
  {
  }

  /** One more value, in the column: the column sum of the tail gains the last value. */
  lemma ColumnTail(ys: seq<Pair>, i: nat)
    requires |ys| >= 2 && i < 2
    ensures Sum(Column(ys[1..], i)) == Sum(Column(ys[..|ys| - 1][1..], i)) + ys[|ys| - 1][i]
  {
    var ps, y := ys[..|ys| - 1], ys[|ys| - 1];
    assert ys[1..] == ps[1..] + [y];
    ColumnSnoc(ps[1..], y, i);
    SumSnoc(Column(ps[1..], i), y[i]);
  }

  /** The running mean discards the seed: in each component, k − 1 times the mean of
      y₀ … y_{k−1} is y₁ + … + y_{k−1}. */
  lemma {:induction false} RunningMeanIsMean(ys: seq<Pair>, i: nat)
    requires |ys| >= 1 && i < 2
    ensures Times(RunningMean(ys)[i], |ys| - 1) == Sum(Column(ys[1..], i))
  {
    if |ys| > 1 {
      var ps := ys[..|ys| - 1];
      RunningMeanIsMean(ps, i);
      MeanFold(ys, i);
      ColumnTail(ys, i);
      TimesCount(RunningMean(ps)[i], |ys| - 1 - 1, |ps| - 1);
      Chain(Times(RunningMean(ys)[i], |ys| - 1), Times(RunningMean(ps)[i], |ys| - 1 - 1),
            Sum(Column(ps[1..], i)), Sum(Column(ys[1..], i)), ys[|ys| - 1][i]);
    } else {
      assert Column(ys[1..], i) == [];
    }
  }

  /** The running mean of a constant sequence is that constant. */
  lemma {:induction false} RunningMeanConstant(ys: seq<Pair>, y: Pair)
    requires |ys| >= 1 && forall j :: 0 <= j < |ys| ==> ys[j] == y
    ensures RunningMean(ys) == y
  {
    if |ys| > 1 {
      var ps := ys[..|ys| - 1];
      RunningMeanConstant(ps, y);
      FoldAt(y, y, |ps|, 0);
      FoldAt(y, y, |ps|, 1);
      var r := RunningMean(ys);
      assert r[0] == y[0] && r[1] == y[1];
    }
  }

  /** k calls of the decorator on a fresh wrapper (no call made, any initial mean) make k
      calls of the wrapped sequence, and the k-th returns the running mean of its k
      values. */
  lemma {:induction false} RunAveraged<S>(next: S -> (S, Pair), s: S, avg: Pair, k: nat)
    requires k >= 1
    ensures var t := Sequence.Run(Next(next), AvgState(s, avg, 0), k);
      var u := Sequence.Run(next, s, k);
      && t.0 == AvgState(u.0, RunningMean(u.1), k)
      && t.1[k - 1] == RunningMean(u.1)
  {
    var u := Sequence.Run(next, s, k);
    if k > 1 {
      RunAveraged(next, s, avg, k - 1);
      var u' := Sequence.Run(next, s, k - 1);
      assert u.1[..k - 1] == u'.1;
    }
  }

  /** The decorator's k-th value, k >= 1, is the running mean of the wrapped sequence's
      first k values. */
  lemma NthAveraged<S>(next: S -> (S, Pair), s: S, avg: Pair, k: nat, none: Pair)
    requires k >= 1
    ensures Sequence.Nth(Next(next), AvgState(s, avg, 0), k, none)
         == RunningMean(Sequence.Run(next, s, k).1)
  {
    RunAveraged(next, s, avg, k);
  }

  /** The first value is the wrapped sequence's first value, unchanged. */
  lemma AveragedFirst<S>(next: S -> (S, Pair), s: S, avg: Pair, none: Pair)
    ensures Sequence.Nth(Next(next), AvgState(s, avg, 0), 1, none) == next(s).1
  {
    NthAveraged(next, s, avg, 1, none);
    Sequence.NthOne(next, s, none);
  }

  /** The second value is exactly the wrapped sequence's second value y₁: the divisor 1
      discards y₀. */
  lemma AveragedSecond<S>(next: S -> (S, Pair), s: S, avg: Pair, none: Pair)
    ensures Sequence.Nth(Next(next), AvgState(s, avg, 0), 2, none) == Sequence.Run(next, s, 2).1[1]
  {
    NthAveraged(next, s, avg, 2, none);
    var ys := Sequence.Run(next, s, 2).1;
    var m := RunningMean(ys);
    assert ys[..1] == [ys[0]];
    FoldAt(ys[0], ys[1], 1, 0);
    FoldAt(ys[0], ys[1], 1, 1);
    assert m[0] == ys[1][0] && m[1] == ys[1][1];
  }

  /** From the second call on, k − 1 times component i of the k-th value is
      y₁ + … + y_{k−1}: the value is the mean of the wrapped sequence's values after its
      seed. */
  lemma AveragedMean<S>(next: S -> (S, Pair), s: S, avg: Pair, k: nat, i: nat, none: Pair)
    requires k >= 2 && i < 2
    ensures Times(Sequence.Nth(Next(next), AvgState(s, avg, 0), k, none)[i], k - 1)
         == Sum(Column(Sequence.Run(next, s, k).1[1..], i))
  {
    NthAveraged(next, s, avg, k, none);
    RunningMeanIsMean(Sequence.Run(next, s, k).1, i);
  }

  /** A wrapped sequence whose first k values all equal y yields y at call k. */
  lemma AveragedConstant<S>(next: S -> (S, Pair), s: S, avg: Pair, k: nat, y: Pair, none: Pair)
    requires k >= 1
    requires forall j :: 0 <= j < k ==> Sequence.Run(next, s, k).1[j] == y
    ensures Sequence.Nth(Next(next), AvgState(s, avg, 0), k, none) == y
  {
    NthAveraged(next, s, avg, k, none);
    RunningMeanConstant(Sequence.Run(next, s, k).1, y);
  }

  /** The state of a wrapped sequence: its fixed parameters and its changing fields. */
  datatype Inner =
    | Approx(p: StochasticGradient.Params, s: StochasticGradient.State)
    | Phase2(q: ImportanceSampling.Phase2Params, t: ImportanceSampling.Phase2State)
  {
    /** The generator's position the wrapped sequence's state records. */
    function Used(): nat
    {
      match this
      case Approx(_, s) => s.used
      case Phase2(_, t) => t.used
    }
  }

  /** `next()` of the wrapped sequence. */
  function InnerStep(stream: nat -> real, x: Inner): (Inner, Pair)
  {
    match x
    case Approx(p, s) =>
      var r := StochasticGradient.Step(p, stream, s);
      (Approx(p, r.0), r.1)
    case Phase2(q, t) =>
      var r := ImportanceSampling.Phase2Step(q, stream, t);
      (Phase2(q, r.0), r.1)
  }

  /** `InnerStep` over a fixed stream of draws. */
  function InnerNext(stream: nat -> real): Inner -> (Inner, Pair)
  {
    x => InnerStep(stream, x)
  }

  /** Wrapping an `approx_sequence` changes none of its terms: k calls of the wrapped
      step make the same calls as k calls of `StochasticGradient.Step`. */
  lemma {:induction false} RunOfApprox(stream: nat -> real, p: StochasticGradient.Params,
                                       s: StochasticGradient.State, k: nat)
    ensures Sequence.Run(InnerNext(stream), Approx(p, s), k).0
         == Approx(p, Sequence.Run(StochasticGradient.Next(p, stream), s, k).0)
    ensures Sequence.Run(InnerNext(stream), Approx(p, s), k).1
         == Sequence.Run(StochasticGradient.Next(p, stream), s, k).1
  {
    if k > 0 {
      RunOfApprox(stream, p, s, k - 1);
    }
  }

  /** Wrapping an `IS_phase2_sequence` changes none of its terms either. */
  lemma {:induction false} RunOfPhase2(stream: nat -> real, q: ImportanceSampling.Phase2Params,
                                       t: ImportanceSampling.Phase2State, k: nat)
    ensures Sequence.Run(InnerNext(stream), Phase2(q, t), k).0
         == Phase2(q, Sequence.Run(ImportanceSampling.Phase2Next(q, stream), t, k).0)
    ensures Sequence.Run(InnerNext(stream), Phase2(q, t), k).1
         == Sequence.Run(ImportanceSampling.Phase2Next(q, stream), t, k).1
  {
    if k > 0 {
      RunOfPhase2(stream, q, t, k - 1);
    }
  }

  /** `iterations` calls of the decorator leave the wrapped `approx_sequence`, and so the
      generator, exactly where `iterations` calls of the bare sequence leave them. */
  lemma FinalOfApprox(stream: nat -> real, p: StochasticGradient.Params, s: StochasticGradient.State,
                      avg: Pair, k: int)
    ensures Sequence.Final(Next(InnerNext(stream)), AvgState(Approx(p, s), avg, 0), k).inner
         == Approx(p, Sequence.Final(StochasticGradient.Next(p, stream), s, k))
  {
    if k > 0 {
      RunAveraged(InnerNext(stream), Approx(p, s), avg, k);
      RunOfApprox(stream, p, s, k);
    }
  }

  /** The same for a wrapped `IS_phase2_sequence`. */
  lemma FinalOfPhase2(stream: nat -> real, q: ImportanceSampling.Phase2Params, t: ImportanceSampling.Phase2State,
                      avg: Pair, k: int)
    ensures Sequence.Final(Next(InnerNext(stream)), AvgState(Phase2(q, t), avg, 0), k).inner
         == Phase2(q, Sequence.Final(ImportanceSampling.Phase2Next(q, stream), t, k))
  {
    if k > 0 {
      RunAveraged(InnerNext(stream), Phase2(q, t), avg, k);
      RunOfPhase2(stream, q, t, k);
    }
  }

  /** Averaging an `approx_sequence`: after k >= 2 calls, component i of the mean times
      k − 1 is the sum of component i of its terms 2 … k. */
  lemma MeanOfApprox(stream: nat -> real, p: StochasticGradient.Params, s: StochasticGradient.State,
                     k: nat, i: nat)
    requires k >= 2 && i < 2
    ensures Times(Sequence.Nth(Next(InnerNext(stream)), AvgState(Approx(p, s), PairZero, 0), k, PairZero)[i], k - 1)
         == Sum(Column(Sequence.Run(StochasticGradient.Next(p, stream), s, k).1[1..], i))
  {
    AveragedMean(InnerNext(stream), Approx(p, s), PairZero, k, i, PairZero);
    RunOfApprox(stream, p, s, k);
  }

  /** Averaging an `IS_phase2_sequence`: the same mean of its terms 2 … k. */
  lemma MeanOfPhase2(stream: nat -> real, q: ImportanceSampling.Phase2Params, t: ImportanceSampling.Phase2State,
                     k: nat, i: nat)
    requires k >= 2 && i < 2
    ensures Times(Sequence.Nth(Next(InnerNext(stream)), AvgState(Phase2(q, t), PairZero, 0), k, PairZero)[i], k - 1)
         == Sum(Column(Sequence.Run(ImportanceSampling.Phase2Next(q, stream), t, k).1[1..], i))
  {
    AveragedMean(InnerNext(stream), Phase2(q, t), PairZero, k, i, PairZero);
    RunOfPhase2(stream, q, t, k);
  }

  /** A sequence object the decorator can own. */
  datatype Wrapped = OfApprox(a: StochasticGradient.ApproxSequence) | OfPhase2(b: ImportanceSampling.Phase2Sequence)
  {
    function Object(): object
    {
      match this
      case OfApprox(a) => a
      case OfPhase2(b) => b
    }

    /** The random source the wrapped sequence draws from. */
    function Source(): Random.Source
    {
      match this
      case OfApprox(a) => a.src
      case OfPhase2(b) => b.src
    }

    ghost function Model(): Inner
      reads Object(), Source()
    {
      match this
      case OfApprox(a) => Approx(a.Parameters(), a.Model())
      case OfPhase2(b) => Phase2(b.Parameters(), b.Model())
    }

    /** `state.next()`. */
    method Next() returns (r: Pair)
      modifies Object(), Source()
      ensures (Model(), r) == InnerStep(Source().stream, old(Model()))
    {
      match this
      case OfApprox(a) => r := a.Next();
      case OfPhase2(b) => r := b.Next();
    }

    /** A copy of the wrapped object, as copying the decorator copies its member. */
    method Copy() returns (w: Wrapped)
      ensures fresh(w.Object()) && w.Source() == Source() && w.Model() == Model()
    {
      if OfApprox? {
        var c := new StochasticGradient.ApproxSequence.Copy(a);
        w := OfApprox(c);
      } else {
        var c := new ImportanceSampling.Phase2Sequence.Copy(b);
        w := OfPhase2(c);
      }
    }
  }

  /** `averaging<Sequence>` of src/detail/averaging.hpp:9-34. */
  class Averaging {
    const state: Wrapped
    var avg: Pair
    var n: nat

    /** Takes ownership of `state`; the mean is value-initialised and no call is made yet. */
    constructor (state: Wrapped)
      ensures this.state == state && avg == [0.0, 0.0] && n == 0
    {
      this.state := state;
      avg := [0.0, 0.0];
      n := 0;
    }

    /** The copy a by-value parameter makes: the owned sequence is copied too, while the
        random source stays shared. */
    constructor Copy(other: Averaging)
      ensures fresh(state.Object()) && state.Source() == other.state.Source()
      ensures Model() == other.Model()
    {
      var w := other.state.Copy();
      state := w;
      avg := other.avg;
      n := other.n;
    }

    ghost function Model(): AvgState<Inner>
      reads this, state.Object(), state.Source()
    {
      AvgState(state.Model(), avg, n)
    }

    /** `next()`: advances the owned sequence once and returns the updated mean. */
    method Next() returns (r: Pair)
      modifies this, state.Object(), state.Source()
      ensures n == old(n) + 1
      ensures (Model(), r) == Step(InnerNext(state.Source().stream), old(Model()))
    {
      ghost var before := Model();
      ghost var next := InnerNext(state.Source().stream);
      var y := state.Next();
      ghost var q := (state.Model(), y);
      assert next(before.inner) == q;
      if n == 0 {
        avg := y;
      } else {
        FoldByTuples(avg, y, n);
        avg := Sub(avg, Div(Sub(avg, y), n as real));
      }
      n := n + 1;
      r := avg;
      StepFrom(next, before, q);
    }
  }
}
