/** Element-wise arithmetic on tuples of doubles (src/detail/tuple.hpp).

    A `std::tuple<double, ..., double>` of arity N is a `Vec` of length N.  Each operator
    copies its left operand and hands the copy to a helper (`TupleAdd<Tuple, N>::add` and
    its siblings) that updates it in place, component N − 1 first and then, through the
    helper for N − 1, the components below it.  The `...Into` functions are those helpers
    on values: `k` is the helper's N, and each level rewrites one component of the copy. */
module Tuple {

  type Vec = seq<real>

  /** `std::tuple<double, double>`. */
  type Pair = v: Vec | |v| == 2 witness [0.0, 0.0]

  /** `std::tuple<double, double, double>`. */
  type Triple = v: Vec | |v| == 3 witness [0.0, 0.0, 0.0]

  /** A value-initialised `std::tuple<double, double>`: every component 0. */
  const PairZero: Pair := [0.0, 0.0]

  /** A value-initialised `std::tuple<double, double, double>`. */
  const TripleZero: Triple := [0.0, 0.0, 0.0]

  /** `TupleAdd<Tuple, k>::add(l, r)`: components 0 … k − 1 of l gain those of r, the
      others are left alone. */
  function AddInto(l: Vec, r: Vec, k: nat): (s: Vec)
    requires |l| == |r| && k <= |l|
    ensures |s| == |l|
    ensures forall i :: 0 <= i < k ==> s[i] == l[i] + r[i]
    ensures forall i :: k <= i < |l| ==> s[i] == l[i]
    decreases k
  {
    if k == 0 then l else AddInto(l[k - 1 := l[k - 1] + r[k - 1]], r, k - 1)
  }

  /** `TupleSub<Tuple, k>::sub(l, r)`. */
  function SubInto(l: Vec, r: Vec, k: nat): (s: Vec)
    requires |l| == |r| && k <= |l|
    ensures |s| == |l|
    ensures forall i :: 0 <= i < k ==> s[i] == l[i] - r[i]
    ensures forall i :: k <= i < |l| ==> s[i] == l[i]
    decreases k
  {
    if k == 0 then l else SubInto(l[k - 1 := l[k - 1] - r[k - 1]], r, k - 1)
  }

  /** `TupleMul<Tuple, Arg, k>::mul(l, a)`. */
  function MulInto(l: Vec, a: real, k: nat): (s: Vec)
    requires k <= |l|
    ensures |s| == |l|
    ensures forall i :: 0 <= i < k ==> s[i] == l[i] * a
    ensures forall i :: k <= i < |l| ==> s[i] == l[i]
    decreases k
  {
    if k == 0 then l else MulInto(l[k - 1 := l[k - 1] * a], a, k - 1)
  }

  /** `TupleDiv<Tuple, Arg, k>::div(l, a)`. */
  function DivInto(l: Vec, a: real, k: nat): (s: Vec)
    requires k <= |l| && a != 0.0
    ensures |s| == |l|
    ensures forall i :: 0 <= i < k ==> s[i] == l[i] / a
    ensures forall i :: k <= i < |l| ==> s[i] == l[i]
    decreases k
  {
    if k == 0 then l else DivInto(l[k - 1 := l[k - 1] / a], a, k - 1)
  }

  /** l + r, component by component. */
  function Add(l: Vec, r: Vec): (s: Vec)
    requires |l| == |r|
    ensures |s| == |l|
    ensures forall i :: 0 <= i < |s| ==> s[i] == l[i] + r[i]
  {
    AddInto(l, r, |l|)
  }

  /** l − r, component by component. */
  function Sub(l: Vec, r: Vec): (s: Vec)
    requires |l| == |r|
    ensures |s| == |l|
    ensures forall i :: 0 <= i < |s| ==> s[i] == l[i] - r[i]
  {
    SubInto(l, r, |l|)
  }

  /** l * a: every component scaled by a. */
  function Mul(l: Vec, a: real): (s: Vec)
    ensures |s| == |l|
    ensures forall i :: 0 <= i < |s| ==> s[i] == l[i] * a
  {
    MulInto(l, a, |l|)
  }

  /** a * l, which the source computes as l * a: the same tuple. */
  function MulLeft(a: real, l: Vec): (s: Vec)
    ensures |s| == |l|
    ensures forall i :: 0 <= i < |s| ==> s[i] == a * l[i]
  {
    Mul(l, a)
  }

  /** l / a: every component divided by a. */
  function Div(l: Vec, a: real): (s: Vec)
    requires a != 0.0
    ensures |s| == |l|
    ensures forall i :: 0 <= i < |s| ==> s[i] == l[i] / a
  {
    DivInto(l, a, |l|)
  }

  /** Subtracting what was added gives back the left operand: (l + r) − r = l. */
  lemma SubAfterAdd(l: Vec, r: Vec)
    requires |l| == |r|
    ensures Sub(Add(l, r), r) == l
  {
    var s := Sub(Add(l, r), r);
    assert forall i :: 0 <= i < |s| ==> s[i] == l[i];
  }

  /** Multiplying back what was divided gives back the tuple: (l / a) * a = l. */
  lemma MulAfterDiv(l: Vec, a: real)
    requires a != 0.0
    ensures Mul(Div(l, a), a) == l
  {
    var s := Mul(Div(l, a), a);
    forall i | 0 <= i < |s|
      ensures s[i] == l[i]
    {
      assert s[i] == (l[i] / a) * a;
    }
  }
}
