/** `IS_params` of src/detail/importance_sampling_parameters.hpp: for each supported
    family of the draws, the constants b and ρ of the exponential control on θ, the
    density ratio incr(x, θ) = p(x + θ)/p(x), and the gradient weight W(x, θ).

    The source specialises a class template on the distribution type and rejects any
    other type at compile time; here the supported families are the two constructors of
    `Distribution`, so no other family can be named. */
module SamplingParameters {
  import opened Numeric

  /** `std::normal_distribution` with its mean and standard deviation, and
      `std::exponential_distribution` with its rate. */
  datatype Distribution = Normal(mean: real, stddev: real) | Exponential(lambda: real)

  /** The distributions the standard library can build: a positive standard deviation,
      a positive rate. */
  type Family = d: Distribution | (d.Normal? ==> d.stddev > 0.0) && (d.Exponential? ==> d.lambda > 0.0)
    witness Exponential(1.0)

  /** `b()`: the exponent in the control e^{−ρ|θ|^b}. */
  function B(d: Family): (r: real)
    ensures d.Normal? ==> r == 2.0
    ensures d.Exponential? ==> r == 1.0
  {
    match d
    case Normal(_, _) => 2.0
    case Exponential(_) => 1.0
  }

  /** `rho()`: 1/(2σ²) for the normal family, λ for the exponential one. */
  function Rho(d: Family): (r: real)
    ensures d.Exponential? ==> r == d.lambda
  {
    match d
    case Normal(_, stddev) => 0.5 / stddev / stddev
    case Exponential(lambda) => lambda
  }

  /** ρ is positive for every family: 0.5/σ/σ = 1/(2σ²) when σ > 0, and λ > 0. */
  lemma RhoPositive(d: Family)
    ensures Rho(d) > 0.0
    ensures d.Normal? ==> Rho(d) * (2.0 * d.stddev * d.stddev) == 1.0
  {
    if d.Normal? {
      var s := d.stddev;
      var h := 0.5 / s;
      assert h * s == 0.5;
      assert h > 0.0;
      var r := h / s;
      assert r * s == h;
      assert r > 0.0;
      assert r * (2.0 * s * s) == 2.0 * (r * s) * s == 2.0 * h * s;
    }
  }

  /** e^{−rate·t}. */
  function Decay(m: Libm, rate: real, t: real): (r: real)
    ensures ExpPositive(m) ==> r > 0.0
    ensures ExpZero(m) && t == 0.0 ==> r == 1.0
  {
    Exp(m, -rate * t)
  }

  /** `incr(x, θ)`: the ratio p(x + θ)/p(x) of the family's densities. */
  function Incr(m: Libm, d: Family, x: real, theta: real): (r: real)
    ensures d.Exponential? && x + theta < 0.0 ==> r == 0.0
    ensures d.Exponential? && x + theta >= 0.0 ==> r == Decay(m, d.lambda, theta)
  {
    if d.Normal? then
      var y := x - d.mean;
      var z := y + theta;
      Exp(m, 0.5 / d.stddev / d.stddev * (y * y - z * z))
    else if x + theta < 0.0 then 0.0
    else Decay(m, d.lambda, theta)
  }

  /** `W(x, θ)`: the weight in the gradient of the importance-sampling criteria. */
  function W(m: Libm, d: Family, x: real, theta: real): (r: real)
    ensures d.Exponential? && x < theta ==> r == 0.0
    ensures d.Exponential? && theta <= x && 2.0 * theta <= x ==> r == -2.0 * d.lambda
  {
    if d.Normal? then
      var q := theta / d.stddev;
      Exp(m, q * q) * (2.0 * theta - x + d.mean)
    else if x - theta < 0.0 then 0.0
    else if x - 2.0 * theta < 0.0 then 2.0 * d.lambda * Decay(m, 2.0 * d.lambda, x - 2.0 * theta)
    else -2.0 * d.lambda
  }

  /** A shift by θ = 0 leaves the normal density unchanged: incr(x, 0) = e^0 = 1. */
  lemma NormalIncrAtZero(m: Libm, d: Family, x: real)
    requires ExpZero(m) && d.Normal?
    ensures Incr(m, d, x, 0.0) == 1.0
  {
    var y := x - d.mean;
    assert y * y - y * y == 0.0;
    assert 0.5 / d.stddev / d.stddev * (y * y - y * y) == 0.0;
  }

  /** The density ratio is never negative, and is positive for the normal family. */
  lemma IncrNonNegative(m: Libm, d: Family, x: real, theta: real)
    requires ExpPositive(m)
    ensures Incr(m, d, x, theta) >= 0.0
    ensures d.Normal? ==> Incr(m, d, x, theta) > 0.0
  {
  }

  /** For the exponential family the ratio is 0 off the support, where x + θ < 0. */
  lemma ExponentialIncrOffSupport(m: Libm, d: Family, x: real, theta: real)
    requires d.Exponential? && x + theta < 0.0
    ensures Incr(m, d, x, theta) == 0.0
  {
  }

  /** On the support the exponential ratio is e^{−λθ}, whatever x is: two draws on the
      support give the same ratio. */
  lemma ExponentialIncrOnSupport(m: Libm, d: Family, x: real, x': real, theta: real)
    requires d.Exponential? && x + theta >= 0.0
    ensures Incr(m, d, x, theta) == Decay(m, d.lambda, theta)
    ensures x' + theta >= 0.0 ==> Incr(m, d, x', theta) == Incr(m, d, x, theta)
  {
  }

  /** For the normal family W has the sign of 2θ − x + μ, the exponential factor being
      positive. */
  lemma NormalWSign(m: Libm, d: Family, x: real, theta: real)
    requires ExpPositive(m) && d.Normal?
    ensures W(m, d, x, theta) > 0.0 <==> 2.0 * theta - x + d.mean > 0.0
    ensures W(m, d, x, theta) < 0.0 <==> 2.0 * theta - x + d.mean < 0.0
    ensures W(m, d, x, theta) == 0.0 <==> 2.0 * theta - x + d.mean == 0.0
  {
    var q := theta / d.stddev;
    var e := Exp(m, q * q);
    var s := 2.0 * theta - x + d.mean;
    assert e > 0.0;
    if s > 0.0 {
      assert e * s > 0.0;
    } else if s < 0.0 {
      assert e * (-s) > 0.0;
    }
  }

  /** For the exponential family the three cases of W are exhaustive and told apart by
      its sign: 0 below θ, positive on [θ, 2θ), and −2λ from 2θ on. */
  lemma ExponentialWCases(m: Libm, d: Family, x: real, theta: real)
    requires ExpPositive(m) && d.Exponential?
    ensures W(m, d, x, theta) == 0.0 <==> x < theta
    ensures W(m, d, x, theta) > 0.0 <==> theta <= x < 2.0 * theta
    ensures W(m, d, x, theta) < 0.0 <==> theta <= x && 2.0 * theta <= x
    ensures theta <= x && 2.0 * theta <= x ==> W(m, d, x, theta) == -2.0 * d.lambda
  {
    if theta <= x < 2.0 * theta {
      var e := Decay(m, 2.0 * d.lambda, x - 2.0 * theta);
      assert e > 0.0;
      assert 2.0 * d.lambda * e > 0.0;
    }
  }
}
