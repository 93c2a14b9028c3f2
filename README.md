# Renewal-process spike trains (elephant `spike_train_generation`)

This project models how elephant generates homogeneous Poisson and gamma spike
trains, and proves properties of that model. The core is the renewal-process
sampler `_homogeneous_process`. It works in four steps:

1. It sizes a buffer from the expected number of spikes in the window.
2. It draws that many inter-spike intervals in one bulk draw.
3. It turns them into candidate spike times: the window start `t_start` plus
   the running sum of the intervals.
4. It either cuts the candidates at the first one at or past `t_stop`, or,
   when the whole buffer lies before `t_stop`, tops it up one interval at a
   time until the running time reaches `t_stop`.

The two public functions only work out the interval law and the mean rate,
then call the sampler.

Files:

- `cumulative.dfy` (module `Cumulative`): the array primitives the sampler
  uses, over exact reals. These are unit rescaling, `cumsum`, the shift by
  `t_start`, and left-side `searchsorted`. Rescaling and the shift carry only
  their own small contracts; `cumsum` and `searchsorted` also have lemmas, and
  `CandidateTimes` covers the shift applied to a cumulative sum.
- `spike_train_generation.dfy` (module `SpikeTrainGeneration`): buffer sizing
  in exact integers, the sampler with its top-up loop, the two adapters, and
  the lemmas about a realization.

How the model stands in for the outside world:

- **Random draws.** The sampling primitive is a parameter
  `generator: IntervalLaw -> seq<real>`. For a law it gives a finite stream
  of non-negative draws. The bulk draw takes the first `size` values, and each
  top-up takes the next one. When the stream ends before the window is
  covered, the result is `Exhausted`. This finite stream plays the part of the
  source's unbounded loop.
- **Units.** The `quantities` unit handling becomes one positive factor,
  `unitRatio`: the number of window time units in one reciprocal rate unit
  (1000 for a rate in Hz and times in ms). A drawn interval `x` becomes
  `x * unitRatio`. The expected count is
  `floor((t_stop - t_start) * mean_rate / unitRatio)`.
- **Buffer size.** `ceil(n + 3*sqrt(n))` is computed exactly as
  `n + CeilSqrt(9n)`, where `CeilSqrt(m)` is the least `k` with `k*k >= m`.
  `ceil(2n)` is `2n`.
- **Correctness statement.** The imperative sampler `HomogeneousProcess` is
  proved equal to a reference function, `Realization`. That function describes
  the result directly: the candidate times before the first one at or past
  `t_stop`, together with the number of draws used. The lemmas about
  `Realization` state the window, order, prefix, no-drop and branch
  properties.

Notes on what the source does, which the model follows:

- The top-up loop appends a time only while it is strictly below `t_stop`
  (`elephant/spike_train_generation.py:38-39`), so no output spike ever
  equals `t_stop`.
- `int(...)` truncates toward zero (`elephant/spike_train_generation.py:24`).
  With `t_start <= t_stop` its argument is never negative, so the model takes
  a floor.
- The sampler does not need `t_start < t_stop`: for an empty window
  (`t_start == t_stop`) the expected count is 0, the buffer holds 5 intervals,
  the size assertion (`elephant/spike_train_generation.py:28`) holds, and the
  cut leaves no spikes. So the model requires only `t_start <= t_stop`.

## Model

| member | source | states |
|---|---|---|
| `Cumulative.Rescale` | elephant/spike_train_generation.py:21-22 | unit conversion keeps one value per drawn interval, and with a positive factor non-negative intervals stay non-negative |
| `Cumulative.Offset` | elephant/spike_train_generation.py:31 | adding `t_start` keeps one value per element, and every non-negative running sum lands at or after `t_start` |
| `Cumulative.CumSum` | elephant/spike_train_generation.py:30 | element `j` of the cumulative sum is the sum of the first `j + 1` intervals, and it has one element per interval |
| `Cumulative.CandidateTimes` | elephant/spike_train_generation.py:29-31 | `t_start` plus the running sums of non-negative intervals is non-decreasing, and no value is below `t_start` |
| `Cumulative.CumSumPrefix` | elephant/spike_train_generation.py:29-31 | the cumulative sum of the first `m` intervals is the first `m` entries of the cumulative sum of the whole stream |
| `Cumulative.SearchSorted` | elephant/spike_train_generation.py:33 | the cut index: every element before it is below `t_stop`, and the element at it (if any) is at or past `t_stop` |
| `Cumulative.SearchSortedSplits` | elephant/spike_train_generation.py:33 | on a sorted buffer the index is the left-side insertion point: an element is below `t_stop` exactly when its index is below the cut, and inserting `t_stop` there keeps the buffer sorted |
| `SpikeTrainGeneration.CeilSqrt` | elephant/spike_train_generation.py:25 | the integer ceiling of a square root: the least `k` with `k*k >= m` |
| `SpikeTrainGeneration.ExpectedCount` | elephant/spike_train_generation.py:24 | the expected spike count `n` is the floor of window length times rate (unit-corrected) |
| `SpikeTrainGeneration.BufferSize` | elephant/spike_train_generation.py:24-28 | the buffer always holds at least 5 intervals (the asserted `number > 4`) and never fewer than `n` |
| `SpikeTrainGeneration.BufferSizeByRange` | elephant/spike_train_generation.py:25-27 | closed form: `5 + 2n` for `n <= 47`, exactly 100 for `48 <= n <= 73`, and `n + ceil(3*sqrt(n))` (at least 100) for `n >= 74` |
| `SpikeTrainGeneration.BufferSizeCoversMargin` | elephant/spike_train_generation.py:25-27 | in both branches the size is at least `n + 3*sqrt(n)`: `size >= n` and `(size - n)^2 >= 9n` |
| `SpikeTrainGeneration.WindowBufferSize` | elephant/spike_train_generation.py:24-27 | the buffer sized for a window holds at least 5 intervals and covers the expected count: window length times rate (unit-corrected) is below `size + 1` |
| `SpikeTrainGeneration.Candidates` | elephant/spike_train_generation.py:29-31 | one candidate spike time per draw, and for non-negative draws and a positive unit factor they are non-decreasing and none is before `t_start` |
| `SpikeTrainGeneration.Realization` | elephant/spike_train_generation.py:29-45 | the reference result of the sampler: a generated realization outputs fewer spikes than the draws it consumes, and never consumes more draws than the stream holds; `RealizationInWindow`, `RealizationIsPrefix`, `RealizationKeepsWindow` and `RealizationBranches` state the rest |
| `SpikeTrainGeneration.CandidateStep` | elephant/spike_train_generation.py:37-40 | each candidate time continues the previous one by exactly one rescaled draw, as `t_last + rescale(draw)` does |
| `SpikeTrainGeneration.CandidateFirst` | elephant/spike_train_generation.py:29-31 | the first candidate time is `t_start` plus the first rescaled draw |
| `SpikeTrainGeneration.BulkIsPrefix` | elephant/spike_train_generation.py:29-31 | the bulk buffer built from the first `size` draws is the first `size` candidate times of the stream |
| `SpikeTrainGeneration.Package` | elephant/spike_train_generation.py:47-51 | the output holds the spike times unchanged; it is a bare array exactly when `as_array` is set, and otherwise a spike train that carries `t_start` and `t_stop` |
| `SpikeTrainGeneration.TopUp` | elephant/spike_train_generation.py:36-40 | the underrun loop: either the stream ends with every time still before `t_stop`, or the appended times are exactly the candidates after the buffer and before the first one that reaches `t_stop` |
| `SpikeTrainGeneration.TruncationIsRealization` | elephant/spike_train_generation.py:44-45 | when the bulk buffer reaches `t_stop`, its part before the cut is the realization, using `size` draws |
| `SpikeTrainGeneration.UnderrunIsRealization` | elephant/spike_train_generation.py:34-43 | the bulk buffer followed by the topped-up times is the realization, using every draw up to the overshooting one |
| `SpikeTrainGeneration.HomogeneousProcess` | elephant/spike_train_generation.py:16-53 | the sampler's result is exactly the reference realization of the stream, for every input (including `Exhausted` when the stream runs out) |
| `SpikeTrainGeneration.RealizationInWindow` | elephant/spike_train_generation.py:30-45 | every returned spike time `t` has `t_start <= t < t_stop`, and the spike times are non-decreasing |
| `SpikeTrainGeneration.RealizationIsPrefix` | elephant/spike_train_generation.py:30-45 | the spikes are a prefix of `t_start` plus the running sums: the first is one interval past `t_start`, and each later one is the previous plus the next interval |
| `SpikeTrainGeneration.RealizationKeepsWindow` | elephant/spike_train_generation.py:33-45 | no in-window point is dropped: a candidate is output exactly when it is below `t_stop`, and the candidate after the last spike is at or past `t_stop` |
| `SpikeTrainGeneration.RealizationBranches` | elephant/spike_train_generation.py:29-45 | the result is `Exhausted` exactly when the stream is shorter than the buffer or never reaches `t_stop`; truncation uses `size` draws; extension keeps the bulk buffer intact as its first `size` spikes and uses one draw more than it outputs |
| `SpikeTrainGeneration.OutputRepresentations` | elephant/spike_train_generation.py:47-51 | `as_array` true and false give the same spike times from the same draws; only the wrapping differs |
| `SpikeTrainGeneration.PoissonParams` | elephant/spike_train_generation.py:83-84 | the Poisson adapter passes exponential intervals and the rate itself, and the mean interval times the rate is 1 |
| `SpikeTrainGeneration.GammaParams` | elephant/spike_train_generation.py:117-119 | the gamma adapter passes shape `a`, a scale that times `b` is 1, and a mean rate that times `a` is `b`; the mean interval `k*theta` times the mean rate is 1 |
| `SpikeTrainGeneration.HomogeneousPoissonProcess` | elephant/spike_train_generation.py:83-84 | the Poisson process is the realization of exponential draws of mean `1/rate`, sampled at `rate` |
| `SpikeTrainGeneration.HomogeneousGammaProcess` | elephant/spike_train_generation.py:117-119 | the gamma process is the realization of gamma draws with shape `a` and scale `1/b`, sampled at rate `b/a` |
| `SpikeTrainGeneration.DocumentedWindows` | elephant/spike_train_generation.py:24-28 | for the documented calls over 0 to 1000 ms: 50 Hz Poisson draws the capped 100 intervals; gamma with shape 2 and rate 50 Hz has mean rate 25 Hz and draws 55 |

## Left out

- `numpy.random.exponential` and `numpy.random.gamma` are foreign random samplers. They become the `generator` stream of non-negative draws. Claims about the distribution, such as the mean gap approaching `1/rate`, cannot be stated.
- The `quantities` unit library (`rescale`, `simplified`, the `Quantity` rewrap after `np.concatenate`): times are reals in the window's unit, and conversion is the positive factor `unitRatio`. Dimension-mismatch errors are not modelled.
- `neo.SpikeTrain` is an external container. It is modelled only as a value holding the times and the window.
- Floating-point rounding in `np.sqrt`, `np.ceil` and `np.cumsum` is not modelled: arithmetic is exact.
- A reversed window (`t_stop < t_start`) is excluded by requiring `t_start <= t_stop`; this leaves out both things the source then does. When the window length times the rate lies strictly between -1 and 0, `int` truncates it to 0, the buffer holds 5 intervals, every candidate lies past `t_stop`, and the cut leaves no spikes, so the source returns an empty array or hands an empty train with the reversed window to `neo.SpikeTrain`. When that product is -1 or less, `np.sqrt` of the negative count gives NaN, `NaN < 100` is false, and `assert number > 4` fails with an `AssertionError`. A non-positive rate, shape or gamma rate is excluded too, because the source then divides by zero or hands invalid parameters to numpy.
- `HomogeneousProcess`: the source's top-up loop may run forever (intervals may be 0). The model draws from a finite stream and returns `Exhausted` when the stream ends first. So it does not capture non-termination.
- numpy's `searchsorted` is a binary search. The model gives only its result: the first index whose element is at or past `t_stop`. On sorted input this is the same index.
- The default arguments (`t_start = 0 ms`, `t_stop = 1000 ms`, `as_array = False`) are not modelled, because units are abstracted. Callers pass every argument.
