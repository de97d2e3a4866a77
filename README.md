# neurodsp index grids, in Dafny

This project models the two index-grid builders of neurodsp's data utilities
(`neurodsp/utils/data.py`) and proves what they return:

- `create_times(n_seconds, fs, start_val=0.)` is the time axis of a signal:
  start_val, start_val + 1/fs, start_val + 2/fs, ..., strictly below n_seconds.
- `create_samples(n_samples, start_val=0)` is the run of integer sample
  indices start_val, start_val + 1, ..., n_samples - 1.

Each is one call to NumPy's `arange(start, stop, step)`. Module `Arange`
(`arange.dfy`) gives `arange`'s meaning for a positive step over exact reals.
The result has ceil((stop - start) / step) elements, clamped at zero, and
element k is start + k * step. The module proves that this is exactly the set
of grid points below `stop`: none is missing and none is past the end. It also
proves that the result equals a progression built one term at a time. Module
`Data` (`data.dfy`) defines `CreateTimes` as `arange` with step 1/fs and
`CreateSamples` as the integer range. It proves their length, element values,
spacing, order, bounds and membership.

Times are Dafny `real`s, which are exact rationals, and `fs > 0` is required.
Results are sequences (`seq<real>`, `seq<int>`) rather than NumPy arrays.
Default arguments are kept as Dafny default parameter values.

The time grid's length is a ceiling, not a rounding. A caller expecting
round(n_seconds * fs) points gets what `arange` gives: over exact reals that is
ceil((n_seconds - start_val) * fs). The two agree when start_val is 0 and
n_seconds * fs is a whole number (`Data.CreateTimesWholeCount`). They can differ
otherwise: 0.21 s at 10 Hz gives three times, although 2.1 rounds to 2
(`Data.CreateTimesLengthIsCeiling`).

## Model

| member | source | states |
|---|---|---|
| `Arange.Ceil` | neurodsp/utils/data.py:26 | the ceiling used for `arange`'s length is the least integer not below its argument: r - 1 < x <= r |
| `Arange.CeilOfInt` | neurodsp/utils/data.py:45 | the ceiling of a whole number is that number, so an integer `arange` with step 1 has stop - start elements |
| `Arange.Length` | neurodsp/utils/data.py:26 | `arange`'s element count n is the exact cut-off of the grid: point n - 1 lies below stop and point n does not |
| `Arange.Arange` | neurodsp/utils/data.py:26 | `arange` has `Length` elements, all in the half-open interval [start, stop) |
| `Arange.ProgressionAt` | neurodsp/utils/data.py:26 | term k of the progression built term by term is start + k * step |
| `Arange.ArangeIsProgression` | neurodsp/utils/data.py:26 | `arange` equals the progression from start by step with its length, built term by term |
| `Arange.ArangeAt` | neurodsp/utils/data.py:26 | element k of `arange` is start + k * step |
| `Arange.ArangeCovers` | neurodsp/utils/data.py:26 | every grid point start + k * step below stop has an index in the result |
| `Data.CreateTimes` | neurodsp/utils/data.py:8-26 | every time t returned satisfies start_val <= t < n_seconds |
| `Data.CreateTimesLength` | neurodsp/utils/data.py:26 | the time grid has ceil((n_seconds - start_val) * fs) points when n_seconds > start_val, and none otherwise |
| `Data.CreateTimesAt` | neurodsp/utils/data.py:26 | time i is start_val + i / fs |
| `Data.CreateTimesSpacing` | neurodsp/utils/data.py:26 | consecutive times differ by exactly 1/fs |
| `Data.CreateTimesIncreasing` | neurodsp/utils/data.py:26 | the time grid is strictly increasing |
| `Data.CreateTimesCovers` | neurodsp/utils/data.py:26 | every time start_val + k / fs below n_seconds is present, at index k |
| `Data.CreateTimesWholeCount` | neurodsp/utils/data.py:8-26 | with the default start and n_seconds * fs a whole number N, the grid has exactly N points and begins at 0 |
| `Data.CreateTimesIsProgression` | neurodsp/utils/data.py:26 | the time grid is the progression from start_val by 1/fs, built term by term |
| `Data.CreateTimesOneSecondAt500Hz` | neurodsp/utils/data.py:26 | one second at 500 Hz gives 500 times, from 0 to 0.998 |
| `Data.CreateTimesLengthIsCeiling` | neurodsp/utils/data.py:26 | 0.21 s at 10 Hz gives 3 times: the length is a ceiling, not a rounding |
| `Data.CreateSamples` | neurodsp/utils/data.py:29-45 | every index returned lies in [start_val, n_samples) |
| `Data.CreateSamplesLength` | neurodsp/utils/data.py:45 | the sample grid has max(0, n_samples - start_val) indices |
| `Data.CreateSamplesAt` | neurodsp/utils/data.py:45 | index i of the sample grid is start_val + i |
| `Data.CreateSamplesIncreasing` | neurodsp/utils/data.py:45 | indices i < j of the grid differ by j - i, so the grid is strictly increasing with step 1 |
| `Data.CreateSamplesMembers` | neurodsp/utils/data.py:29-45 | an integer is in the sample grid if and only if it lies in [start_val, n_samples) |
| `Data.CreateSamplesEmpty` | neurodsp/utils/data.py:45 | the sample grid is empty if and only if n_samples <= start_val |
| `Data.CreateSamplesDefaultStart` | neurodsp/utils/data.py:29 | with the default start, a positive n_samples gives n_samples indices, the first of them 0 |
| `Data.CreateSamplesIsCount` | neurodsp/utils/data.py:45 | the sample grid equals the integers counted up one at a time from start_val to below n_samples |
| `Data.CreateTimesAtOneHertz` | neurodsp/utils/data.py:26 | over whole-number bounds at 1 Hz, the time grid is the sample grid read as reals |

## Left out

- IEEE-754 arithmetic of `np.arange` with a floating-point step. NumPy computes the length from a rounded (stop - start) / step, so a product (n_seconds - start_val) * fs within rounding of a whole number can gain or lose one element. The model uses exact reals, so it has no such case.
- NumPy array types and dtypes. Results are Dafny sequences.
- `create_samples` with non-integer arguments. `np.arange` accepts floats there; the model takes integers, as documented for the function.
- `create_times` with fs <= 0. The model requires fs > 0. For fs = 0, Python evaluates `1/fs` before `np.arange` runs, so a plain float fs raises `ZeroDivisionError`. A negative fs gives a negative step. `np.arange` then returns an empty grid when n_seconds >= start_val, and otherwise a grid descending from start_val to just above n_seconds.
- `neurodsp/sim/cycles.py` is not part of this model. That file holds the cycle shape generators (sine, asymmetric sine, sawtooth, Gaussian, skewed Gaussian, exponential, double exponential, action potential), the `sim_cycle` and `sim_normalized_cycle` dispatchers, normalisation, `create_cycle_time` and `phase_shift_cycle`. The model covers only the index grids of `neurodsp/utils/data.py`. The shape generators are transcendental floating-point numerics in any case.
- `neurodsp/tests/sim/test_cycles.py` is test code for the cycle module above. It relies on helpers and settings constants that are not part of this model.
