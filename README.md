# Riemann-sum integration demo, modelled in Dafny

The repository is a small teaching demo about numerical integration with
left-rectangle (forward Euler) Riemann sums. It has two parts:

- `demo/math_utils.py` provides three integrators, and each turns a
  uniformly sampled rate signal (a velocity) into its running integral (a
  position):
  - `calculate_riemann_sum` and `calculate_riemann_sum2` are an accumulator
    loop that appends each running total.
  - `calculate_riemann_sum_np` is `np.cumsum(data) * dt`.
- `main` in `demo/main.py` simulates a robot:
  - It builds a piecewise true velocity (ramp up, cruise, ramp down) on the
    time grid `np.arange(0, 10, 0.1)`.
  - It adds sensor noise to get a measured velocity.
  - It integrates both signals with its own loop. The loop writes into
    preallocated zero arrays and starts at index 1.
  - It reports the final position error.

The model has two modules:

- `math_utils.dfy` (module `MathUtils`):
  - `Integral` is the reference definition of the running integral.
  - The two loops are methods proved equal to `Integral`.
  - The numpy variant is `Scale(CumSum(data), dt)`.
  - Lemmas give the closed form `out[i] = dt * Sum(data[..i+1])`, the
    recurrence, the total, linearity and the zero case. They also prove that
    the numpy variant and the loops agree, and check the worked examples.
- `demo_main.dfy` (module `DemoMain`):
  - The masked assignments and the index-1 loop work on arrays.
  - Each is proved against a function on sequences. The velocity profile is
    checked against `TrueVelocity`, and the positions against
    `ShiftedIntegral`.
  - Lemmas relate the index-1 convention to `calculate_riemann_sum`: the two
    differ by exactly the first rectangle.
  - Another lemma shows that the final error is `dt` times the sum of the
    noise samples from index 1 on.

All samples are exact reals (see "Left out"), so a sum does not depend on
the order in which it is added up.

The two conventions differ, and the model keeps both as the code has them:

- The library routines include the first sample's own step, so
  `out[0] = data[0] * dt`.
- The loop in `main` leaves `position[0] = 0` and never reads sample 0.

`DemoMain.OffByOne` states the exact relation between them.

## Model

| member | source | states |
|---|---|---|
| MathUtils.RiemannSum | demo/math_utils.py:4-12 | the accumulator loop returns exactly the reference running integral of the samples: one element per sample, element i is the total of the rectangle areas of samples 0..i |
| MathUtils.RiemannSum2 | demo/math_utils.py:15-48 | the documented copy of the loop returns exactly the same reference running integral |
| MathUtils.RiemannSumVariantsAgree | demo/math_utils.py:4-48 | for every input and step size the two loop versions return the same list, as long as the input |
| MathUtils.IntegralSnoc | demo/math_utils.py:7-10 | one more sample appends one element: the previous running total (0 before the first sample) plus the new rectangle `value * dt` |
| MathUtils.IntegralRecurrence | demo/math_utils.py:8-10 | element 0 is `data[0] * dt`, and each later element is the previous element plus `data[i] * dt` |
| MathUtils.IntegralAt | demo/math_utils.py:55 | the documented formula: element i is `dt` times the sum of samples 0..i |
| MathUtils.IntegralTotal | demo/math_utils.py:55 | the last element is `dt` times the sum of all samples |
| MathUtils.RiemannSumNp | demo/math_utils.py:51-69 | the numpy variant returns one element per sample |
| MathUtils.CumSumAt | demo/math_utils.py:64-67 | `np.cumsum`: element i of the running totals is the sum of samples 0..i |
| MathUtils.NpAgreesWithLoop | demo/math_utils.py:67 | "cumsum, then multiply by dt" equals the accumulator loops' result, element by element, for every input |
| MathUtils.SumScale | demo/math_utils.py:67 | multiplying every sample by `k` multiplies their sum by `k` |
| MathUtils.IntegralLinear | demo/math_utils.py:4-12 | integrating `k * data` gives `k` times the integral of `data` |
| MathUtils.IntegralLinearAt | demo/math_utils.py:4-12 | linearity at one index |
| MathUtils.IntegralOfZeros | demo/math_utils.py:4-12 | all-zero samples integrate to all zeros |
| MathUtils.IntegralExampleRamp | demo/math_utils.py:4-12 | [1, 2, 3] with step 0.1 gives [0.1, 0.3, 0.6] |
| MathUtils.IntegralExampleZeros | demo/math_utils.py:4-12 | [0, 0, 0] with step 0.5 gives [0, 0, 0] |
| MathUtils.IntegralExampleSigns | demo/math_utils.py:4-12 | [-1, 1] with step 1 gives [-1, 0], and no samples give no positions |
| DemoMain.TimeGrid | demo/main.py:9-11 | the time grid from 0 in steps of 0.1: every sample before the end of the simulation, and the count times the step is exactly 10 s |
| DemoMain.TrueVelocity | demo/main.py:14-17 | the piecewise profile lies in [0, 2] m/s over the simulated interval [0, 10] s, and equals the cruise value 2 on the closed interval [2, 8], so the ramps meet the cruise value at both boundaries |
| DemoMain.MasksPartition | demo/main.py:15-17 | every time sample satisfies exactly one of the three phase masks |
| DemoMain.MaskedAssign | demo/main.py:15-17 | a masked assignment overwrites exactly the indices whose time sample satisfies the mask, with the value computed from that sample, and leaves every other index unchanged |
| DemoMain.TrueVelocityProfile | demo/main.py:14-17 | a zero array followed by the three masked assignments holds the piecewise profile at every time sample |
| DemoMain.AddSignals | demo/main.py:23 | the measured velocity has one sample per time step, each the true sample plus the noise sample |
| DemoMain.SumAddSignals | demo/main.py:23 | the sum of the measured samples is the sum of the true samples plus the sum of the noise |
| DemoMain.ShiftedRecurrence | demo/main.py:27-44 | the position arrays start at 0, and each index i >= 1 is the previous position plus `v[i] * dt` |
| DemoMain.ShiftedAt | demo/main.py:27-44 | the closed form of the index-1 loop: position i is `dt` times the sum of samples 1..i |
| DemoMain.ShiftedTotal | demo/main.py:33-47 | the last position is `dt` times the sum of every sample but the first |
| DemoMain.FirstSampleIgnored | demo/main.py:33 | two signals that differ only at index 0 give the same positions |
| DemoMain.OffByOne | demo/main.py:33-44 | at every index the loop of `main` gives the `calculate_riemann_sum` result minus the first rectangle `v[0] * dt` |
| DemoMain.IntegrateFromOne | demo/main.py:27-44 | the loop over preallocated zero arrays leaves, in both position arrays, the index-1 running integral of the measured and of the true velocity |
| DemoMain.FinalErrorIsNoise | demo/main.py:47 | the final estimated position minus the final true position is `dt` times the sum of the noise samples from index 1 on |
| DemoMain.Simulate | demo/main.py:14-47 | for any time grid and noise, the true and estimated positions are the index-1 integrals of the true and measured velocities; the final error is `Dt` times the noise sum from index 1, or no value on an empty grid |
| DemoMain.RunSimulation | demo/main.py:9-47 | on the demo's own time grid the error always exists and equals `Dt` times the noise sum from index 1 on |

## Left out

- Floating point. Samples, steps and sums are exact reals. Rounding in
  `value * dt`, in the additions and in `np.cumsum` is not modelled, so
  neither is the order dependence of floating-point sums. The worked
  examples therefore hold exactly, not within a tolerance.
- MathUtils.RiemannSum and MathUtils.RiemannSum2 take a sequence of reals.
  Python accepts any iterable of numbers (a list or a numpy array), and its
  dynamic typing is not modelled.
- DemoMain.TimeGrid fixes the grid at 100 exact multiples of 0.1. The
  floating-point length rule of `np.arange` and the rounding of its samples
  are not modelled.
- Random noise (demo/main.py:21-22). `np.random.normal(0, 0.2, len(t))` is
  replaced by a noise sequence that is a parameter, so every property holds
  for every noise signal. The noise level 0.2 and the Gaussian distribution
  are not modelled.
- Console output (demo/main.py:6 and 48-50) is I/O, and so is the
  matplotlib plotting done after the error is computed.
- DemoMain.Simulate returns `None` on an empty time grid. In Python,
  `estimated_position[-1]` raises an IndexError there. The demo's own grid
  is never empty (see DemoMain.RunSimulation).
- The initial accumulators of `main` are the integer `0`, and Python turns
  them into floats on the first addition. Over the reals this makes no
  difference.
