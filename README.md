# monte_carlo: stochastic-approximation estimators of VaR and CVaR, in Dafny

This project models the estimators in `monte_carlo`, a C++ library. They estimate the
value at risk (VaR, the α-quantile ξ of a loss) and the conditional value at risk (CVaR,
the mean C of the loss beyond ξ) of a random variable by stochastic approximation. It
also models the small command-line front end that feeds them their parameters.

What is modelled:

- **The recursions.** There are two quantile recursions: `var_sequence` and
  `var::approx_sequence`. Each does ξ ← ξ − γ(n)·H(ξ, x, α).
  - `cvar_sequence` runs a tail mean with weight 1/(n + 1), over
    Λ(ξ, x, α) = ξ + max(x − ξ, 0)/(1 − α).
  - `cvar::approx_sequence` runs the same tail mean with weight β(n).
  - `approx_sequence` is the joint (ξ, C) step of the stochastic gradient.
  - Each sequence is a `class` whose fields its `Next` method updates in place. Each
    `Next` is proved against a pure `Step` function on a state datatype. That state
    includes the position in the random stream, so every draw is accounted for.
- **Importance sampling.** Phase 1 updates (ξ, θ, μ) with an adaptive confidence level.
  Phase 2 updates (ξ, C) with θ and μ frozen. This part also covers the gradients L1 to
  L4 and the sampling parameters of the normal and exponential families: b, ρ, incr and W.
- **Ruppert–Polyak averaging.** `averaging` wraps a sequence and returns the running
  mean of its outputs.
- **`iterate` and the kernels.**
  - `var_seq_kernel`, `sequential_kernel`, `monte_carlo_kernel`, `approx_kernel` and
    `IS_kernel`.
  - The factories, with their defaults.
  - Element-wise tuple arithmetic and the step schedules 1/n and (1/n)^a.
- **The command line.** This covers `parse_command_line`, and the `command_line_parser`
  cursor with its handles.

How the model is set up:

- **Numbers.** `double` is modelled as `real`.
- **Draws.** The generator and the distribution together, as in `d(g)`, are a
  `Random.Source`. It hands out the values of a fixed stream `nat -> real` one by one.
  The estimator's claims are therefore about "the values drawn", not about their law.
- **`std::exp` and `std::pow`.** They are function values passed in a `Libm` record. The
  few laws a proof needs are stated as predicates and required where they are used:
  exp > 0, exp(0) = 1 and pow(x, 1) = x.
- **Defaults and aliases.** γ, β and φ are function parameters. C++ default arguments
  become `Option`s in the factories. Formulas that the source writes several times are
  defined once:
  - `H1` of stochastic_gradient.hpp, `H` of var_sequence.hpp and `var::H` of
    var_sequences.hpp are `VarRecursion.H` and `VarRecursion.Update`.
  - `v`, `Lambda` and `cvar::Lambda` are `CvarRecursion.Lambda`.
  - `steps::inverse`, `gamma_sequences::inverse` and the `inverse` of var.hpp are
    `Steps.Inverse`.

## Model

| member | source | states |
|---|---|---|
| Tuple.AddInto | src/detail/tuple.hpp:15-28 | After `TupleAdd` has handled the first k components, each of those is lᵢ + rᵢ and every other component is still lᵢ; the arity is kept |
| Tuple.Add | src/detail/tuple.hpp:31-40 | `l + r` of two tuples of one arity has that arity and is lᵢ + rᵢ in every component |
| Tuple.SubInto | src/detail/tuple.hpp:42-55 | After `TupleSub` has handled the first k components, each of those is lᵢ − rᵢ and the others are untouched |
| Tuple.Sub | src/detail/tuple.hpp:57-67 | `l - r` is lᵢ − rᵢ in every component, with the arity kept |
| Tuple.SubAfterAdd | src/detail/tuple.hpp:31-67 | Subtracting r after adding r gives back l: `-` undoes `+` |
| Tuple.MulInto | src/detail/tuple.hpp:69-82 | After `TupleMul` has handled the first k components, each of those is lᵢ·a and the others are untouched |
| Tuple.Mul | src/detail/tuple.hpp:85-94 | `l * a` scales every component by a and keeps the arity |
| Tuple.MulLeft | src/detail/tuple.hpp:97-104 | `a * l` scales every component by a and keeps the arity |
| Tuple.DivInto | src/detail/tuple.hpp:106-119 | After `TupleDiv` has handled the first k components, each of those is lᵢ/a and the others are untouched |
| Tuple.Div | src/detail/tuple.hpp:122-131 | `l / a` divides every component by a nonzero a and keeps the arity |
| Tuple.MulAfterDiv | src/detail/tuple.hpp:85-131 | Multiplying by a after dividing by a gives back l: `*` undoes `/` |
| Steps.Inverse | src/steps.hpp:10-13 | inverse(n)·n = 1; for n ≥ 1 the step lies in (0, 1], and inverse(1) = 1 |
| Steps.InverseDecreasing | src/steps.hpp:10-13 | The schedule 1/n strictly decreases over n ≥ 1 |
| Steps.InversePow | src/steps.hpp:15-18 | `inverse_pow(a)` is the schedule n ↦ pow(1/n, a) at every step index; it takes the exponent only, no offset |
| Steps.InversePowOfOne | src/steps.hpp:15-18 | `inverse_pow(1)` is the schedule `inverse` itself, given pow(x, 1) = x |
| Numeric.Abs | src/detail/importance_sampling.hpp:22 | `std::abs` is non-negative and equals its argument or its negation |
| Numeric.Max | src/detail/cvar_sequence.hpp:8-11 | `std::max` is at least each argument and is one of them |
| Numeric.TruncDiv | src/detail/importance_sampling.hpp:95 | C++ `int` division truncates toward zero: for a ≥ 0 the quotient is ⌊a/b⌋ (q·b ≤ a < q·b + b), for a < 0 it is ⌈a/b⌉ (q·b − b < a ≤ q·b) |
| Random.Source.Draw | src/detail/var_sequence.hpp:35 | Each `d(g)` consumes exactly one value of the stream, the next one |
| Sequence.Run | src/detail/iterate.hpp:15-16 | k calls of `next` produce exactly k outputs |
| Sequence.NthOne | src/detail/iterate.hpp:15-17 | `iterate(seq, 1)` returns the output of the first call |
| Sequence.NthNext | src/detail/iterate.hpp:15-17 | The (k+1)-th result is the output of the call made from the state left by k calls |
| Sequence.Advance | src/detail/iterate.hpp:15-16 | One more call of `next` extends a run of k calls to a run of k + 1 calls |
| Sequence.Finish | src/detail/iterate.hpp:14-17 | A negative `iterations` runs the loop zero times, like `iterations = 0` |
| Sequence.NthOfState | src/detail/iterate.hpp:14-17 | For a sequence whose `next` returns the state it leaves, `iterate` returns the initial value when iterations ≤ 0, and otherwise the state after the last call |
| Sequence.RunAppend | src/detail/iterate.hpp:15-16 | j calls then k calls are j + k calls; the outputs are concatenated |
| VarRecursion.H | src/detail/var_sequence.hpp:7-12 | H is 1 when x < state and 1 − 1/(1 − α) = −α/(1 − α) otherwise |
| VarRecursion.HSign | src/detail/var_sequence.hpp:7-12 | For α in (0, 1), H > 0 exactly when x < state, and H < 0 exactly when x ≥ state |
| VarRecursion.UpdateDirection | src/detail/var_sequence.hpp:35 | For α in (0, 1) and γ > 0: ξ falls by exactly γ when the draw is below ξ and rises by exactly γα/(1 − α) otherwise; it falls if and only if x < ξ |
| VarRecursion.Step | src/detail/var_sequence.hpp:29-38 | The first call returns the seed, draws nothing and counts itself. Every later call takes one draw and applies one update with γ(n). n grows by one per call, and the result is the new state |
| VarRecursion.NextOutputs | src/detail/var_sequence.hpp:29-38 | Every call returns the state it leaves behind |
| VarRecursion.VarSequence.constructor | src/detail/var_sequence.hpp:25-27 | A new sequence keeps α and γ, with state 0 and n = 0 |
| VarRecursion.VarSequence.Next | src/detail/var_sequence.hpp:29-38 | The object and the generator move exactly as `VarRecursion.Step` says, and n grows by one |
| VarRecursion.DrawsConsumed | src/detail/var_sequence.hpp:29-38 | k + 1 calls on a fresh sequence consume exactly k draws |
| VarSequences.ApproxSequence.constructor | src/detail/var_sequences.hpp:28-30 | A new `var::approx_sequence` keeps α and γ, with ξ = 0 and n = 0 |
| VarSequences.ApproxSequence.Next | src/detail/var_sequences.hpp:32-42 | `var::approx_sequence::next` moves the object and the generator exactly like the quantile step of `var_sequence`: the seed first, then one draw and one update per call |
| CvarRecursion.Lambda | src/detail/cvar_sequence.hpp:8-11 | For α < 1, Λ(ξ, x, α) ≥ ξ, with equality exactly when x ≤ ξ |
| CvarRecursion.Toward | src/detail/cvar_sequence.hpp:38 | The move of C toward a target reaches the target with weight 1 and keeps C with weight 0 |
| CvarRecursion.TowardBetween | src/detail/cvar_sequence.hpp:38 | With a weight in [0, 1], the new C lies between the old C and the target |
| CvarRecursion.TailMeanIsMean | src/detail/cvar_sequence.hpp:38 | With weights 1/(n + 1), the estimate after absorbing λ₁ … λₖ is their sum divided by k + 1: the seed 0 is counted in the mean |
| CvarRecursion.TailMeanSnoc | src/detail/cvar_sequence.hpp:38 | Absorbing one more λ moves the estimate toward it with weight 1/(k + 1), as `next` does on its k-th call |
| CvarRecursion.Step | src/detail/cvar_sequence.hpp:31-41 | The first call returns the seed without touching the inner sequence or the generator. Every later call advances the inner sequence once and then draws once for Λ. That is two draws per call, except on the second call, where the inner sequence returns its seed without drawing |
| CvarRecursion.NextOutputs | src/detail/cvar_sequence.hpp:31-41 | Every call returns the tail-mean state it leaves behind |
| CvarRecursion.CvarSequence.constructor | src/detail/cvar_sequence.hpp:21-24 | A new sequence has state 0 and n = 0, and its inner quantile sequence is fresh, with the same α |
| CvarRecursion.CvarSequence.Next | src/detail/cvar_sequence.hpp:31-41 | The object, its inner sequence and the generator move exactly as `CvarRecursion.Step` says. From the second call on, the Λ it absorbs is recorded, so the state is always the 1/(n + 1)-weighted mean of these values |
| CvarRecursion.DrawsConsumed | src/detail/cvar_sequence.hpp:31-41 | k + 1 calls on a fresh sequence advance the inner sequence k times and consume 2k − 1 draws (none when k = 0) |
| CvarSequences.Step | src/detail/cvar_sequences.hpp:35-45 | The first call returns C₀ and leaves the inner ξ sequence alone. Later calls advance the inner sequence once and take one more draw, so two draws per call, except that the second call uses the inner seed without drawing for it |
| CvarSequences.StepBetween | src/detail/cvar_sequences.hpp:41-42 | C ← C − β(n)(C − λ), where λ is Λ at the inner sequence's new ξ; for β(n) in [0, 1] the new C lies between the old C and λ |
| CvarSequences.FirstLambdaUsesSeed | src/detail/cvar_sequences.hpp:41-42 | The inner sequence lags by one step: the first Λ is computed at ξ = 0, the inner seed, on the first draw |
| CvarSequences.ApproxSequence.constructor | src/detail/cvar_sequences.hpp:30-33 | A new sequence keeps α and β, with C = 0 and n = 0, over a fresh inner ξ sequence with γ |
| CvarSequences.ApproxSequence.Next | src/detail/cvar_sequences.hpp:35-45 | The object, its inner sequence and the generator move exactly as `CvarSequences.Step` says |
| StochasticGradient.Step | src/detail/stochastic_gradient.hpp:54-65 | The first call returns (0, 0), draws nothing and sets n to 1. Every later call takes exactly one draw, and n grows by one per call. The result is the new (ξ, C) |
| StochasticGradient.StepShared | src/detail/stochastic_gradient.hpp:60-62 | A later call uses one value x = φ(d(g)) for both updates. C moves toward v(ξ, x, α), computed with the pre-update ξ, by weight γ(n), and for γ(n) in [0, 1] it lands between the old C and v. ξ falls by γ(n) when x < ξ and rises by γ(n)α/(1 − α) otherwise |
| StochasticGradient.XiIsQuantileRecursion | src/detail/stochastic_gradient.hpp:54-65 | After any number of calls, the ξ half of `approx_sequence` equals the quantile recursion `var_sequence` run on the transformed draws φ(x), with the same count and the same draws consumed |
| StochasticGradient.DrawsConsumed | src/detail/stochastic_gradient.hpp:54-65 | k + 1 calls on a fresh `approx_sequence` consume exactly k draws, one per call after the first |
| StochasticGradient.ApproxSequence.constructor | src/detail/stochastic_gradient.hpp:42-50 | A new sequence keeps α, φ, γ and the generator, with ξ = C = 0 and n = 0 |
| StochasticGradient.ApproxSequence.Copy | src/detail/iterate.hpp:10 | The copy that `iterate` takes by value has the same parameters, state and generator |
| StochasticGradient.ApproxSequence.Next | src/detail/stochastic_gradient.hpp:54-65 | The object and the shared generator move exactly as `StochasticGradient.Step` says |
| ImportanceSampling.L3 | src/detail/importance_sampling.hpp:12-23 | L3 is 0 whenever φ(x − θ) < ξ |
| ImportanceSampling.L3SignOfW | src/detail/importance_sampling.hpp:20-22 | Otherwise L3 has exactly the sign of W(x, θ), because its exp factor is positive |
| ImportanceSampling.L4 | src/detail/importance_sampling.hpp:28-40 | L4 is 0 whenever L3 is 0, and also when φ(x − μ) = ξ |
| ImportanceSampling.L4SignOfL3 | src/detail/importance_sampling.hpp:28-40 | L4 never has the opposite sign of L3: its factor of L3 is non-negative |
| ImportanceSampling.L1 | src/detail/importance_sampling.hpp:113-126 | L1 is exactly the factor e^{−ρ\|θ\|^b} when φ(x + θ) < ξ |
| ImportanceSampling.L1Bounded | src/detail/importance_sampling.hpp:113-126 | For α < 1, L1 never exceeds e^{−ρ\|θ\|^b}, and it is positive below the tail |
| ImportanceSampling.L2 | src/detail/importance_sampling.hpp:129-144 | L2 is exactly C − ξ when φ(x + μ) < ξ |
| ImportanceSampling.L2AtMost | src/detail/importance_sampling.hpp:129-144 | For α < 1, L2 is never more than C − ξ: the tail term it subtracts is non-negative |
| ImportanceSampling.AlphaLevel | src/detail/importance_sampling.hpp:93-101 | The adaptive level α_n is 0.5, 0.8 or α, never exceeds α, is α whenever α ≤ 0.5, and is α for n > 2·(M/3) with truncating division |
| ImportanceSampling.AlphaLevelInRange | src/detail/importance_sampling.hpp:93-101 | For α in (0, 1), α_n is in (0, 1) too |
| ImportanceSampling.Phase1Step | src/detail/importance_sampling.hpp:87-109 | The first call returns (0, 0, 0), draws nothing and sets n to 1. Every later call takes exactly one draw. The result is the new (ξ, θ, μ) |
| ImportanceSampling.Phase1DrawsConsumed | src/detail/importance_sampling.hpp:87-109 | k + 1 phase-1 calls from the seeds consume exactly k draws |
| ImportanceSampling.Phase1Updates | src/detail/importance_sampling.hpp:93-106 | θ and μ are updated from the pre-update ξ, and each stays put below its threshold. ξ moves by the quantile step at level α_n: down by γ(n) below ξ, up by γ(n)α_n/(1 − α_n) otherwise. Once n > 2·(M/3), that step uses α itself |
| ImportanceSampling.Phase1Sequence.constructor | src/detail/importance_sampling.hpp:70-82 | A new phase-1 sequence keeps its parameters and the generator, with ξ = θ = μ = 0 and n = 0 |
| ImportanceSampling.Phase1Sequence.Copy | src/detail/iterate.hpp:10 | The copy that `iterate` takes by value has the same parameters, state and generator |
| ImportanceSampling.Phase1Sequence.Next | src/detail/importance_sampling.hpp:87-109 | The object and the shared generator move exactly as `ImportanceSampling.Phase1Step` says |
| ImportanceSampling.Phase2Step | src/detail/importance_sampling.hpp:189-200 | The first call returns (ξ, 0) without drawing. Later calls take exactly one draw. θ and μ never change, and n grows by one per call |
| ImportanceSampling.Phase2Frozen | src/detail/importance_sampling.hpp:189-200 | After any number of calls, θ and μ are still the values phase 2 was built with |
| ImportanceSampling.Phase2DrawsConsumed | src/detail/importance_sampling.hpp:189-200 | k + 1 phase-2 calls from the phase-1 estimates consume exactly k draws |
| ImportanceSampling.Phase2BelowTail | src/detail/importance_sampling.hpp:195-198 | Below the tail, when φ(x + μ) < ξ, C moves toward ξ with weight γ(n) |
| ImportanceSampling.Phase2CLowerBound | src/detail/importance_sampling.hpp:195-198 | For α < 1 and γ(n) ≥ 0, the new C is at least C − γ(n)(C − ξ) |
| ImportanceSampling.Phase2XiDecreases | src/detail/importance_sampling.hpp:195-198 | When φ(x + θ) < ξ and γ(n) > 0, ξ strictly decreases |
| ImportanceSampling.Phase2Sequence.constructor | src/detail/importance_sampling.hpp:172-185 | A new phase-2 sequence takes ξ, θ and μ as given, with C = 0 and n = 0 |
| ImportanceSampling.Phase2Sequence.Copy | src/detail/iterate.hpp:10 | The copy that `iterate` takes by value has the same parameters, state and generator |
| ImportanceSampling.Phase2Sequence.Next | src/detail/importance_sampling.hpp:189-200 | The object and the shared generator move exactly as `ImportanceSampling.Phase2Step` says |
| SamplingParameters.B | src/detail/importance_sampling_parameters.hpp:63-65 | b = 2 for the normal family and b = 1 for the exponential family (lines 98-100) |
| SamplingParameters.Rho | src/detail/importance_sampling_parameters.hpp:102-104 | ρ = λ for the exponential family; for the normal family see `RhoPositive` |
| SamplingParameters.RhoPositive | src/detail/importance_sampling_parameters.hpp:67-70 | ρ > 0 for both families; for the normal family ρ·2σ² = 1, that is ρ = 1/(2σ²) |
| SamplingParameters.Decay | src/detail/importance_sampling_parameters.hpp:106-118 | The factor e^{−rate·t} of the exponential family is positive, and is 1 at t = 0 |
| SamplingParameters.Incr | src/detail/importance_sampling_parameters.hpp:72-110 | For the exponential family, incr is 0 off the support (x + θ < 0) and e^{−λθ} on it |
| SamplingParameters.W | src/detail/importance_sampling_parameters.hpp:80-118 | For the exponential family, W is 0 below θ and −2λ once x ≥ 2θ and x ≥ θ; the signs of every case are in `NormalWSign` and `ExponentialWCases` |
| SamplingParameters.NormalIncrAtZero | src/detail/importance_sampling_parameters.hpp:72-78 | For the normal family, incr(x, 0) = 1 |
| SamplingParameters.IncrNonNegative | src/detail/importance_sampling_parameters.hpp:72-110 | incr is never negative, and it is positive for the normal family |
| SamplingParameters.ExponentialIncrOffSupport | src/detail/importance_sampling_parameters.hpp:106-110 | For the exponential family, incr(x, θ) = 0 when x + θ < 0 |
| SamplingParameters.ExponentialIncrOnSupport | src/detail/importance_sampling_parameters.hpp:106-110 | On the support it is e^{−λθ}, the same for every x |
| SamplingParameters.NormalWSign | src/detail/importance_sampling_parameters.hpp:80-85 | For the normal family, W(x, θ) has exactly the sign of 2θ − x + μ: positive, negative or zero |
| SamplingParameters.ExponentialWCases | src/detail/importance_sampling_parameters.hpp:112-118 | For the exponential family, W is 0 exactly when x < θ, positive exactly when θ ≤ x < 2θ, and negative, equal to −2λ, exactly when x ≥ θ and x ≥ 2θ |
| CvarKernels.SequentialKernel.Compute | src/cvar.hpp:29-33 | The result is the `iterations`-th output of `cvar_sequence` on the generator. It is the mean of the seed 0 and the `iterations` − 1 values of Λ the sequence absorbed. The generator is left exactly 2·iterations − 3 draws on (none for one iteration) |
| CvarKernels.SequentialKernel.Calls | src/cvar.hpp:31-32 | The `iterate` loop over `cvar_sequence` returns the `iterations`-th output and leaves the sequence and the generator in the state `iterations` calls reach; that output is the 1/(n + 1)-weighted mean of the Λ values recorded |
| CvarKernels.Sequential | src/cvar.hpp:36-49 | `sequential` passes α and `iterations` through and defaults both γ and β to 1/n |
| CvarKernels.SequentialFirstTerm | src/cvar.hpp:29-33 | With one iteration the result is the seed 0 |
| CvarKernels.Accepted | src/cvar.hpp:69-75 | The accepted draws among the first `len` draws are at most `len` in number |
| CvarKernels.AcceptedNext | src/cvar.hpp:70-74 | A draw below the estimated VaR is skipped and does not count; any other draw is appended |
| CvarKernels.AcceptedAtLeast | src/cvar.hpp:71-72 | Every accepted draw is at least the estimated VaR |
| CvarKernels.MeanOfAccepted | src/cvar.hpp:76 | The mean of one or more accepted draws is at least the estimated VaR |
| CvarKernels.MonteCarloKernel.Compute | src/cvar.hpp:65-77 | When iterations ≥ 1, exactly `iterations` draws have been accepted when the loop ends, the last draw was one of them, and the result times `iterations` is their sum, so the result is at least the estimated VaR. A negative `iterations` draws nothing and returns 0 |
| CvarKernels.MonteCarloKernel.Accumulate | src/cvar.hpp:67-75 | The rejection loop stops right after the `iterations`-th accepted draw, with `sum` equal to the sum of the accepted draws |
| CvarKernels.MonteCarlo | src/cvar.hpp:80-88 | `monte_carlo` passes α, the estimated VaR and `iterations` through unchanged |
| VarKernel.VarSeqKernel.Compute | src/var.hpp:48-56 | The result is the `iterations`-th output of `var_sequence` on the generator, and exactly `iterations` − 1 draws are consumed |
| VarKernel.VarSeqKernel.Calls | src/var.hpp:52-55 | The loop calls `next` exactly `iterations` times and returns the last value; the sequence ends in the state those calls leave |
| VarKernel.MakeVarSeqKernel | src/var.hpp:30-36 | The constructor keeps α and `iterations`, and γ defaults to 1/n |
| VarKernel.FirstTerm | src/var.hpp:52-55 | With one iteration the result is the seed 0 |
| VarKernel.ResultRecursion | src/var.hpp:52-55 | The result for `iterations` ≥ 2 is one quantile update, with γ(iterations − 1), of the result for `iterations` − 1, on draw number `iterations` − 2 |
| Averaging.FoldByTuples | src/detail/averaging.hpp:30 | The tuple expression `avg - (avg - y) / n` is the component-wise running-mean update |
| Averaging.Step | src/detail/averaging.hpp:24-33 | Each call calls the wrapped `next` exactly once and counts itself. The first call returns the wrapped output unchanged |
| Averaging.StepFrom | src/detail/averaging.hpp:24-33 | The first call stores the wrapped output. Each later call folds it into the average with divisor n, and returns the new average |
| Averaging.RunningMeanIsMean | src/detail/averaging.hpp:30 | After k ≥ 1 outputs the running value times k − 1 is the sum of y₁ … y_{k−1}: dividing by n = 1 on the second call drops the seed y₀ |
| Averaging.RunningMeanConstant | src/detail/averaging.hpp:24-33 | The running mean of a constant sequence is that constant |
| Averaging.RunAveraged | src/detail/averaging.hpp:24-33 | k calls of the wrapper make k calls of the wrapped sequence, count k, and end with the running mean of the wrapped outputs |
| Averaging.NthAveraged | src/detail/averaging.hpp:24-33 | The k-th output of the wrapper is the running mean of the first k wrapped outputs |
| Averaging.AveragedFirst | src/detail/averaging.hpp:25-29 | The first output of the wrapper is the first wrapped output |
| Averaging.AveragedSecond | src/detail/averaging.hpp:30 | The second output of the wrapper is exactly the second wrapped output y₁ |
| Averaging.AveragedMean | src/detail/averaging.hpp:30 | For k ≥ 2, each component of the k-th output times k − 1 is the sum of that component over y₁ … y_{k−1} |
| Averaging.AveragedConstant | src/detail/averaging.hpp:24-33 | Averaging a sequence that is constant over its first k outputs yields that constant at call k |
| Averaging.RunOfApprox | src/estimate.hpp:66 | Wrapping `approx_sequence` for averaging changes none of its states or outputs |
| Averaging.RunOfPhase2 | src/estimate.hpp:124 | Wrapping the phase-2 sequence for averaging changes none of its states or outputs |
| Averaging.FinalOfApprox | src/estimate.hpp:66-67 | After `iterations` calls of the averaged wrapper, the wrapped `approx_sequence`, and with it the generator, is in the state `iterations` bare calls reach |
| Averaging.FinalOfPhase2 | src/estimate.hpp:124-125 | The same for the averaged phase-2 sequence |
| Averaging.MeanOfApprox | src/estimate.hpp:65-68 | Averaged `approx_sequence`: the k-th output is the mean of outputs 2 … k of the stochastic-gradient sequence |
| Averaging.MeanOfPhase2 | src/estimate.hpp:124-125 | Averaged phase 2: the k-th output is the mean of outputs 2 … k of the phase-2 sequence |
| Averaging.Wrapped.Next | src/detail/averaging.hpp:26 | The wrapped sequence's `next`, whichever of the two sequences it is, moves it exactly as that sequence's step says |
| Averaging.Wrapped.Copy | src/detail/iterate.hpp:10 | Copying the wrapped sequence gives a fresh object with the same state, over the same generator |
| Averaging.Averaging.constructor | src/detail/averaging.hpp:20-22 | The wrapper holds the sequence, with n = 0 |
| Averaging.Averaging.Copy | src/detail/iterate.hpp:10 | The copy that `iterate` takes by value is a fresh object in the same state, over the same generator |
| Averaging.Averaging.Next | src/detail/averaging.hpp:24-33 | The wrapper, the wrapped sequence and the generator move exactly as `Averaging.Step` says, and n grows by one |
| Estimate.ApproxKernel.Compute | src/estimate.hpp:53-69 | The result is the `iterations`-th output of `approx_sequence` without averaging, and of its averaged wrapper with averaging. Either way the generator is left exactly iterations − 1 draws on (none when iterations ≤ 1) |
| Estimate.ISKernel.Compute | src/estimate.hpp:95-127 | Phase 1 runs M = iterations/100 steps, truncating. Phase 2 is built on its (ξ, θ, μ) and runs `iterations` steps, averaged only when asked. The result is phase 2's last output, and the generator is left exactly (M − 1) + (iterations − 1) draws on, each term counted only when positive |
| Estimate.ISKernel.RunPhase1 | src/estimate.hpp:97-108 | Phase 1 returns the M-th output of a fresh phase-1 sequence, M = iterations/100 truncating, and moves the generator M − 1 draws on (none when M ≤ 1) |
| Estimate.ISKernel.RunPhase2 | src/estimate.hpp:121-126 | Phase 2 returns the `iterations`-th output of the phase-2 sequence or of its average, and moves the generator iterations − 1 draws on (none when iterations ≤ 1) |
| Estimate.Identity | src/estimate.hpp:130-132 | The default loss φ returns its argument |
| Estimate.StochasticGradientKernel | src/estimate.hpp:134-147 | `stochastic_gradient` passes α and `iterations` through and defaults φ to the identity, γ to 1/n and averaging to `no` |
| Estimate.ImportanceSamplingKernel | src/estimate.hpp:149-170 | `importance_sampling` passes α, a and `iterations` through, with the same defaults |
| Estimate.ApproxFirstTerm | src/estimate.hpp:63-68 | With one iteration the kernel returns the seed (0, 0), averaged or not |
| Estimate.ApproxAveragedMean | src/estimate.hpp:65-68 | With averaging, the result times `iterations` − 1 is the sum of outputs 2 … `iterations` of `approx_sequence` |
| Estimate.ISShortRun | src/estimate.hpp:97-108 | With fewer than 100 iterations in magnitude, M = 0: phase 1 runs no step and phase 2 starts from ξ = θ = μ = 0 |
| Estimate.ISPhase2Seeded | src/estimate.hpp:110-119 | Phase 2 starts from phase 1's result: its first output is (ξ from phase 1, 0), and θ and μ stay those of phase 1 throughout |
| Estimate.ISFirstTerm | src/estimate.hpp:121-126 | With one iteration the kernel returns (ξ, 0) with ξ = 0, because phase 1 runs no step |
| Estimate.ISAveragedMean | src/estimate.hpp:121-126 | With averaging, the result times `iterations` − 1 is the sum of phase 2's outputs 2 … `iterations`; phase 1 is never averaged |
| Iterate.IterateApprox | src/detail/iterate.hpp:8-18 | `iterate` on `approx_sequence` returns its `iterations`-th output, (0, 0) when iterations ≤ 0. It advances the shared generator by the draws of those calls and leaves the caller's sequence object alone |
| Iterate.IteratePhase1 | src/detail/iterate.hpp:8-18 | The same for the phase-1 sequence, with (0, 0, 0) when iterations ≤ 0 |
| Iterate.IteratePhase2 | src/detail/iterate.hpp:8-18 | The same for the phase-2 sequence |
| Iterate.LoopPhase2 | src/detail/iterate.hpp:14-17 | The loop on the copy returns the `iterations`-th output and leaves the copy in the state after those calls |
| Iterate.IterateAveraged | src/detail/iterate.hpp:8-18 | `iterate` on the averaged wrapper returns its `iterations`-th output, leaves the generator where those `iterations` calls leave it, and leaves the caller's wrapped sequence unchanged |
| Iterate.LoopAveraged | src/detail/iterate.hpp:14-17 | The loop on the copied wrapper returns the `iterations`-th output and leaves the copy in the state after those calls |
| CommandLine.ParseCommandLine | command_line.cpp:4-67 | The loop over `argv[1..]` ends with the same arguments or the same first error message as the recursive reading `CommandLine.Parse` |
| CommandLine.LoopAccepts | command_line.cpp:9-60 | From any point of the loop where the fields hold accepted or unset values, a successful parse ends with every field accepted |
| CommandLine.Finish | command_line.cpp:62-66 | After the loop the arguments are accepted exactly when α and N were both given, and are then returned unchanged |
| CommandLine.Positional | command_line.cpp:48-58 | A positional argument changes only α or N: the first sets an α in (0, 1), the next an N > 100, and once both are set it changes nothing |
| CommandLine.Loop | command_line.cpp:9-65 | Any successful parse from any point of the loop has both α and N set |
| CommandLine.Parse | command_line.cpp:4-67 | Every accepted command line has α in (0, 1), N > 100, an exponent in (0, 1] and an offset ≥ 0 |
| CommandLine.MissingValue | command_line.cpp:11-47 | `--method`, `--averaging` or `--step` given as the last argument fails with "missing argument for \`…\`" |
| CommandLine.ExtraPositionalIgnored | command_line.cpp:48-58 | Once α and N are set, a further positional argument changes nothing |
| CommandLine.LoopReadsFrom | command_line.cpp:9-60 | The loop depends only on the arguments from the current index on |
| CommandLine.ProgramNameIgnored | command_line.cpp:7 | Parsing starts at argv[1]: argv[0] has no effect on the result |
| CommandLine.DefaultsKept | command_line.hpp:11-18 | With only α and N given, every option keeps its default: stochastic gradient, no averaging, exponent 1, offset 0 |
| CommandLine.NRequired | command_line.cpp:64-65 | With a valid α and no N the parse fails with "missing parameter N" |
| CommandLine.AlphaRequired | command_line.cpp:62-63 | Without any argument the parse fails with "missing parameter alpha" |
| CommandLineParser.EnterStep | command_line_parser.cpp:52-63 | `enter` fails exactly when a handle is open or the parser is finished; otherwise the cursor stays and a handle is open exactly when argv[count] is the argument |
| CommandLineParser.DummyStep | command_line_parser.cpp:45-50 | `dummy` fails under the same conditions; otherwise the cursor stays and a handle is open |
| CommandLineParser.NextArgStep | command_line_parser.cpp:38-43 | `next_arg` advances `count` by one; it reads argv[count + 1] exactly when that exists, and otherwise fails with "missing argument for" the name |
| CommandLineParser.ReleaseStep | command_line_parser.cpp:24-27 | Releasing advances `count` by one and closes the handle |
| CommandLineParser.NextArgsRead | command_line_parser.cpp:38-43 | k calls of `next_arg` with k values present advance `count` by k and read exactly `argv[count+1 .. count+k]` |
| CommandLineParser.NextArgsMissing | command_line_parser.cpp:38-43 | When fewer than k values remain, the calls fail with "missing argument for" the flag's name, with `count` at `argc` |
| CommandLineParser.FlagWithValues | command_line_parser.cpp:24-63 | Entering a flag, reading its k values and releasing the handle advances `count` by exactly k + 1, closes the handle, and yields the k values |
| CommandLineParser.EnterOtherKeeps | command_line_parser.cpp:45-62 | `enter` on a non-matching argument changes neither `count` nor `in_handle`; `dummy` on the same cursor opens a handle |
| CommandLineParser.OneHandleAtATime | command_line_parser.cpp:45-62 | While a handle is open, `enter` and `dummy` fail with "error"; after release, `enter` succeeds exactly when an argument is left |
| CommandLineParser.SkipToEnd | command_line_parser.cpp:8-10 | Taking and releasing a dummy handle for every remaining argument reaches `count = argc`, where `finished` holds and one more `dummy` fails |
| CommandLineParser.Parser.constructor | command_line_parser.cpp:3-6 | A new parser is at `count = 0` with no handle open |
| CommandLineParser.Parser.Finished | command_line_parser.cpp:8-10 | `finished` holds exactly when `count` ≥ `argc` |
| CommandLineParser.Parser.Enter | command_line_parser.cpp:52-63 | `enter` fails, changing nothing, exactly when a handle is open or the parser is finished. It returns null, changing nothing, exactly on a non-matching argument. On a matching argument it always succeeds and opens a fresh handle named after the argument, whose value is `argv[count]` |
| CommandLineParser.Parser.Dummy | command_line_parser.cpp:45-50 | `dummy` fails under the same conditions, and otherwise opens an unnamed handle on `argv[count]` |
| CommandLineParser.Handle.constructor | command_line_parser.cpp:29-36 | A handle keeps its parser, its name and its value |
| CommandLineParser.Handle.Value | command_line_parser.cpp:20-22 | `value` is the argument the handle currently holds |
| CommandLineParser.Handle.NextArg | command_line_parser.cpp:38-43 | `next_arg` advances `count`. When the arguments run out it fails with "missing argument for" the name and keeps the value; otherwise the value becomes `argv[count]` |
| CommandLineParser.Handle.Release | command_line_parser.cpp:24-27 | Destroying a handle advances `count` by one and closes the handle |

## Left out

- Random generation. `std::mt19937`, `std::random_device` and the `<random>` distributions are foreign code. A `Random.Source` hands out the values of an arbitrary stream instead, so nothing is claimed about their law, convergence or variance.
- Floating point. `double` is `real`: rounding, overflow, NaN and infinities are not modelled. `std::exp` and `std::pow` are arbitrary functions constrained only by the laws the proofs require. `std::log` occurs only in the drivers.
- `is_sampling_sequence` (src/detail/var_sequences.hpp:45-80) is unfinished code: its `next` falls off the end without a return for n > 0, so it has no behaviour to model.
- The drivers main.cpp, exponential_distribution.cpp and short_put.cpp are not part of this model. They wire a generator, a payoff φ built on `std::exp`, the command-line parser and printing. That includes main.cpp's own loop over `command_line_parser`.
- Compile-time dispatch. The `static_assert` that rejects unsupported distributions (src/detail/importance_sampling_parameters.hpp:31) and the `decltype` hack that infers the distribution type are not modelled. The two supported families are a datatype constrained to σ > 0 and λ > 0.
- Signature mismatches between files. The model follows the arithmetic each call evidently means:
  - src/cvar.hpp:31-32 builds `cvar_sequence` with three arguments and calls `iterate` with four.
  - src/var.hpp:50-54 builds `var_sequence` without γ and passes γ to `next`.
  - src/detail/cvar_sequence.hpp:21-22 and 37 build the inner `var_sequence` without γ and pass γ to its `next`.

  All of these are against src/detail/var_sequence.hpp:25 and 30. In the model, γ is given to the inner sequence at construction.
- Other calls that do not match. main.cpp passes an offset to `steps::inverse_pow`, which takes only an exponent (src/steps.hpp:15-18). command_line.hpp:4 includes a header that is not in the repository.
- Argument order in `Lambda(var_state.next(d, g, gamma), d(g), alpha)` (src/detail/cvar_sequence.hpp:37) and in `Lambda(xi.next(d, g), d(g), alpha)` (src/detail/cvar_sequences.hpp:41). C++ leaves the order of evaluation unspecified. At both call sites the model advances the inner sequence first, then draws x for Λ. `CvarRecursion.Step`, `CvarSequences.Step`, `CvarSequences.FirstLambdaUsesSeed` and the draw counts of both `DrawsConsumed` lemmas rest on that order.
- Importance sampling, phase 1 (src/detail/importance_sampling.hpp:105). The ξ update applies `H1` to the raw draw x, not to φ(x). This is modelled as written.
- `std::stod` and `std::stoi` are arbitrary partial conversions (`CommandLine.Conversions`). A conversion that throws is `None`, which the source replaces with −1.
- Exception types. `const char*`, `std::string` and `std::logic_error` are one `Failure` carrying the message. The parser's "error" message is that of its `logic_error`.
- CommandLineParser.Handle.Release: the destructor of `dummy_handle` runs at the end of the handle's scope. The model calls it explicitly, and does not model `unique_ptr` ownership.
- VarKernel.VarSeqKernel.Compute: requires `iterations` ≥ 1. For iterations ≤ 0 the source returns a `Float state` that was never assigned (src/var.hpp:52-55).
- CvarKernels.SequentialKernel.Compute: requires `iterations` ≥ 1, for the same reason: `iterate` returns an uninitialised `Float`.
- CvarKernels.MonteCarloKernel.Compute: requires `iterations` ≠ 0, because the result would be 0/0. It also requires that some finite prefix of the stream (the ghost `horizon`) holds at least `iterations` accepted draws, because the source loops forever otherwise. For negative `iterations` the source returns 0/iterations, a signed zero; the model returns 0.
- CvarKernels.MonteCarloKernel.Accumulate: takes the same finite-horizon precondition, in place of the unbounded loop.
- The α of `monte_carlo_kernel` and the β of `sequential_kernel` are stored but never used by their `compute`. β is kept only as a field of the kernel.
- `iterate` copies its sequence. A copy shares the generator by reference, like the `Distribution &` and `Generator &` members, and is otherwise a fresh object. Only the sequence types that `iterate` is applied to in the source have a copy.
