/** Step-size schedules γ(n) (src/steps.hpp).

    src/gamma_sequences.hpp and the `gamma_sequences` namespace at the top of src/var.hpp
    declare the same two schedules with the same bodies; they are modelled once, here.
    A schedule is only ever evaluated at the index of a step, n >= 1, so it is a total
    function on `Index`. */
module Steps {
  import opened Numeric

  /** Index of a step of a recursion: the counter `n` at the time γ(n) is read. */
  type Index = n: int | n >= 1 witness 1

  /** A step-size schedule n ↦ γ(n). */
  type Schedule = Index -> real

  /** `inverse(n) = 1 / n`: the reciprocal of n. */
  function Inverse(n: int): (r: real)
    requires n != 0
    ensures r * (n as real) == 1.0
    ensures n >= 1 ==> 0.0 < r <= 1.0
    ensures n == 1 ==> r == 1.0
  {
    1.0 / (n as real)
  }

  /** γ(n) = 1/n as a schedule: the default of every kernel. */
  const InverseSchedule: Schedule := (n: Index) => Inverse(n)

  /** The schedule 1/n is strictly decreasing on the step indices. */
  lemma InverseDecreasing(m: int, n: int)
    requires 1 <= m < n
    ensures Inverse(n) < Inverse(m)
  {
    var a, b := Inverse(m), Inverse(n);
    assert a * (m as real) == 1.0 && b * (n as real) == 1.0;
    assert b * (m as real) < b * (n as real);
  }

  /** `inverse_pow(a)`: the schedule n ↦ pow(1/n, a).  It takes the exponent only; there
      is no offset. */
  function InversePow(m: Libm, a: real): (step: Schedule)
    ensures forall n: Index :: step(n) == Pow(m, Inverse(n), a)
  {
    (n: Index) => Pow(m, Inverse(n), a)
  }

  /** With exponent 1 the power schedule is the schedule 1/n itself, as far as
      `pow(x, 1) = x` holds. */
  lemma InversePowOfOne(m: Libm, n: Index)
    requires PowOne(m)
    ensures InversePow(m, 1.0)(n) == InverseSchedule(n) == Inverse(n)
  {
  }
}
