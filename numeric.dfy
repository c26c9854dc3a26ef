/** The C++ numeric primitives the estimators rely on, as Dafny terms.

    `double` is modelled by `real`.  The transcendental functions of <cmath>
    (`std::exp`, `std::pow`) are not definable here, so they travel as a record of
    function values, `Libm`, and every property that depends on them names the law
    it needs (`ExpPositive`, `ExpZero`, `PowOne`) in its `requires`.  `std::abs`,
    `std::max` and the truncating `/` of C++ `int` are written out. */
module Numeric {

  /** `std::exp` and `std::pow`, left uninterpreted. */
  datatype Libm = Libm(exp: real -> real, pow: (real, real) -> real)

  /** `std::exp(x)`. */
  function Exp(m: Libm, x: real): real
  {
    m.exp(x)
  }

  /** `std::pow(x, y)`. */
  function Pow(m: Libm, x: real, y: real): real
  {
    m.pow(x, y)
  }

  /** e^x > 0 for every x. */
  ghost predicate ExpPositive(m: Libm) {
    forall x :: Exp(m, x) > 0.0
  }

  /** e^0 = 1. */
  ghost predicate ExpZero(m: Libm) {
    Exp(m, 0.0) == 1.0
  }

  /** x^1 = x. */
  ghost predicate PowOne(m: Libm) {
    forall x :: Pow(m, x, 1.0) == x
  }

  /** The reciprocal of a positive number is positive. */
  lemma ReciprocalPositive(y: real)
    requires y > 0.0
    ensures 1.0 / y > 0.0
  {
    assert (1.0 / y) * y == 1.0;
  }

  /** `std::abs` on a double. */
  function Abs(x: real): (r: real)
    ensures r >= 0.0 && (r == x || r == -x)
  {
    if x < 0.0 then -x else x
  }

  /** `std::max` on two doubles. */
  function Max(x: real, y: real): (r: real)
    ensures r >= x && r >= y && (r == x || r == y)
  {
    if x < y then y else x
  }

  /** C++ `a / b` on `int` with b > 0: the quotient is truncated toward zero, whereas
      Dafny's `/` rounds toward negative infinity. */
  function TruncDiv(a: int, b: int): (q: int)
    requires b > 0
    ensures a >= 0 ==> q >= 0 && q * b <= a < q * b + b
    ensures a < 0 ==> q <= 0 && q * b - b < a <= q * b
  {
    if a >= 0 then a / b else -((-a) / b)
  }

  // Proof steps for the mean identities of the tail-mean, averaging and Monte Carlo
  // proofs.  `Times` and the lemmas from `TimesCount` to `QuotientAtLeast` have no
  // counterpart in the library: each states one rewrite in a form the callers can use
  // without nonlinear real arithmetic in their own context.

  /** x·k for a count k, kept as a function so that proofs about means rewrite it by
      congruence rather than by nonlinear arithmetic. */
  function Times(x: real, k: int): real
  {
    x * (k as real)
  }

  /** Equal counts give equal products. */
  lemma TimesCount(x: real, a: int, b: int)
    requires a == b
    ensures Times(x, a) == Times(x, b)
  {
  }

  /** x = t + y, t = s and s' = s + y give x = s'. */
  lemma Chain(x: real, t: real, s: real, s': real, y: real)
    requires x == t + y && t == s && s' == s + y
    ensures x == s'
  {
  }

  /** Dividing by k and multiplying back by k gives the total again. */
  lemma QuotientTimes(s: real, k: real)
    requires k != 0.0
    ensures (s / k) * k == s
  {
  }

  /** Nothing divided by k is nothing. */
  lemma ZeroQuotient(k: real)
    requires k != 0.0
    ensures 0.0 / k == 0.0
  {
  }

  /** A total of at least k·t over k > 0 parts has a quotient of at least t. */
  lemma QuotientAtLeast(s: real, k: real, t: real)
    requires k > 0.0 && s >= k * t
    ensures s / k >= t
  {
    var q := s / k;
    assert q * k == s;
    assert (q - t) * k >= 0.0;
  }

  /** Sum of a sequence of reals, accumulated from the left. */
  function Sum(xs: seq<real>): real
  {
    if xs == [] then 0.0 else Sum(xs[..|xs| - 1]) + xs[|xs| - 1]
  }

  /** Sum distributes over concatenation with a single element on the right; the
      definition peels the last element, so this is its unfolding at `xs + [x]`. */
  lemma SumSnoc(xs: seq<real>, x: real)
    ensures Sum(xs + [x]) == Sum(xs) + x
  {
    assert (xs + [x])[..|xs|] == xs;
  }

  /** A sum of values that are all at least `t` is at least |xs|·t. */
  lemma {:induction false} SumLowerBound(xs: seq<real>, t: real)
    requires forall i :: 0 <= i < |xs| ==> xs[i] >= t
    ensures Sum(xs) >= (|xs| as real) * t
  {
    if xs != [] {
      SumLowerBound(xs[..|xs| - 1], t);
    }
  }
}
