# EMG processing pipeline, modelled in Dafny

This project models the numeric core of an offline EMG (electromyography)
analysis script, `processing.py`. The script turns a recorded multi-channel
EMG signal into per-channel muscle-activation values in [0, 1]. It does this
in four stages:

1. **Filter** (`bandpass`). Each channel runs through a causal first-order
   high-pass stage (gain 0.8642) and then a first-order low-pass stage
   (gain 0.611). Each channel has its own state `x`, `e` and `od`, which starts
   at zero. The filter emits one vector per sample.
2. **Smoother** (`sliding_rms`, `sliding_rms_weighted`). Channels 0 and 1 each
   keep a FIFO queue of absolute values. When the queue length equals the
   window, the oldest value is evicted before the newest is appended.
   `sliding_rms` emits the queue sum divided by the fixed window.
   `sliding_rms_weighted` first rounds the window and emits the plain queue
   sum. It also builds a linear weight array that is never used. The script
   smooths with the weighted variant and a window of `0.75 * Hz`.
3. **Calibrator** (`calibrate`). With `samples = 5 * Hz`, the first
   `3 * samples` smoothed entries form three consecutive blocks: rest, flex and
   extension. For every entry of a block, `abs(d[i]) / samples` is added to
   the process-wide vector of that block: `rest_avg`, `flex_max` or `ext_max`.
4. **Normalizer** (`normalize`). Channel 0 is rescaled so that `rest_avg[0]`
   maps to 0 and `flex_max[0]` maps to 1. Channel 1 is rescaled so that
   `rest_avg[1]` maps to 0 and `ext_max[1]` maps to 1. Both are clamped
   to [0, 1].

The model follows the program's own form:

- Readings are exact `real`s.
- A sample is a `seq<real>`, and a recording is a sequence of samples.
- Each stage is a method with the same loops as the source. The filter updates
  arrays in place. The smoothers reassign local queues. The calibration loops
  add into arrays.
- Each method is proved against a specification function: `StateAfter` for the
  filter, `Queue` for the FIFO window and `Share` for a calibration block.
- The properties are proved about those functions as lemmas.
- The three process-wide calibration vectors are the arrays of a
  `Calibration.Profile` object. `Calibrate` adds into them and `Normalize` reads
  them.
- `CHANNELS`, `Hz` and `window` are parameters, not globals.

Files:

- `signal.dfy` holds the shared vocabulary: samples, columns, magnitudes, sums.
- `filter.dfy`, `smoother.dfy`, `normalization.dfy` and `calibration.dfy` hold
  one stage each.

Some names in the code suggest a different behaviour from what the code does.
The model follows the code:

- `sliding_rms` is not a root mean square and not a mean over the current
  queue. It divides the plain sum of absolute values by the fixed `window`
  (processing.py:102). During warm-up its output is therefore a partial sum
  divided by the window (`MeanOutputDuringWarmUp`).
- `sliding_rms_weighted` applies no weights. The weight array it builds is
  never read, and each output is the plain queue sum (processing.py:130).
- `rest_avg`, `flex_max` and `ext_max` do not hold an average and two maxima.
  Each phase adds `abs(d[i]) / samples` per entry with `+=`
  (processing.py:150, 155, 160), and the max-based lines are commented out.
  Only the first call on zeroed vectors with enough data yields the block
  means (`PhaseShareIsBlockMean`). Nothing is reset, so a second call adds
  the shares again (`Profile.Calibrate` states each new value as the old
  value plus the share).
- A recording shorter than `3 * samples` is not an error. Python slicing
  silently truncates or empties the blocks (`Slice`).
- There is no error value for a degenerate calibration. Numpy would produce
  inf or NaN there. The model instead requires the two denominators to be
  non-zero whenever there is data to normalize.

## Model

| member | source | states |
|---|---|---|
| Filter.Step | processing.py:75-79 | one reading through the cascade: the high-pass value from the old state and the reading, the low-pass value from that, and the reading stored as the previous one |
| Filter.StateAfter | processing.py:64-79 | the state of one channel after its readings in order, starting from the all-zero state of lines 64-66 |
| Filter.Bandpass | processing.py:63-84 | exactly one output vector per input sample, in order; each has `channels` entries; entry c of output k is the low-pass value `e` of channel c after that channel's readings 0..k, starting from the zero state; an all-zero recording gives all-zero output |
| Filter.ChannelStateAtNext | processing.py:73-79 | sample k advances channel c by one filter step that reads only `data[k][c]`, so channels never affect each other |
| Filter.StepChannels | processing.py:73-79 | the inner loop moves every channel c one filter step on reading d[c], in place in the arrays `x`, `e`, `od` |
| Filter.SilenceStaysZero | processing.py:64-79 | an all-zero channel keeps its state at zero, so it emits only zeros |
| Filter.ConstantStateAfter | processing.py:71-79 | a channel whose readings all equal v is in the state reached by n steps on v, whatever sequence holds them |
| Filter.ConstantHighPass | processing.py:75-79 | after n >= 1 constant readings v the high-pass value is 0.8642^n * v and the stored reading is v |
| Filter.ConstantInputDecays | processing.py:75-79 | under a constant reading v, the high-pass output after n readings is 0.8642^n * v, and the stored previous reading is v (offset rejection) |
| Filter.ConstantEnvelope | processing.py:75-79 | under a constant reading v, the emitted envelope after n readings satisfies e * (a - b) == 0.611 * a * (a^n - b^n) * v, with a = 0.8642 and b = 1 - 0.611 |
| Filter.EnvelopeDecays | processing.py:75-79 | under a constant reading v, abs(e) * (a - b) <= 0.611 * a * a^n * abs(v): the emitted envelope is bounded by a multiple of the decay factor |
| Filter.DecayFactorShrinks | processing.py:75 | the decay factor 0.8642^n is positive, at most 1 and strictly decreasing in n |
| Filter.DecayFactorVanishes | processing.py:75 | the decay factor falls below any eps > 0 once n * eps * (1 - 0.8642) >= 1, so with `EnvelopeDecays` a constant offset is rejected entirely |
| Filter.Superposition | processing.py:75-79 | the filter is additive: the state after the pointwise sum of two inputs is the sum of their states |
| Smoother.Push | processing.py:95-100 | one queue update: evict the oldest value when the length equals the window, then append the new value |
| Smoother.Queue | processing.py:93-100 | the queue after pushing the values in order into an empty queue |
| Smoother.PushKeepsLatest | processing.py:95-100 | one push keeps the queue a suffix of the values pushed so far, the new value last |
| Smoother.QueueExtend | processing.py:95-100 | the queue after k + 1 values is one evict-then-append step from the queue after k |
| Smoother.QueueIsLatest | processing.py:95-100 | for any window the queue is the most recent part of the input, oldest first, and never longer than the input |
| Smoother.QueueLengthByCount | processing.py:95-97 | queue length depends only on how many values were pushed, so evicting both queues on the length of the first is FIFO for each |
| Smoother.PushBoth | processing.py:95-100 | one sample step of both queues, evicted together on the length of `rms[0]`, is one push of each queue's own FIFO |
| Smoother.WholeWindowLength | processing.py:95-100 | with a whole window W >= 1, after n values the queue holds exactly min(n, W) entries |
| Smoother.WholeWindowHoldsLatest | processing.py:123-128 | with a whole window W >= 1, the queue is exactly the last min(n, W) values and never longer than W |
| Smoother.FractionalWindowKeepsAll | processing.py:95 | a window that is negative or not whole never equals a queue length, so nothing is evicted and the queue keeps every value |
| Smoother.QueueSumNonNegative | processing.py:99-102 | a queue of absolute values has a non-negative sum |
| Smoother.MeanOutput | processing.py:102 | one `sliding_rms` output: the queue sum divided by the fixed window |
| Smoother.MeanOutputNonNegative | processing.py:102 | with a positive window every `sliding_rms` output is non-negative |
| Smoother.MeanOutputDuringWarmUp | processing.py:102 | during warm-up (at most W values so far) the output is the sum of all values so far divided by W, not by their count |
| Smoother.SlidingRms | processing.py:88-105 | one output per sample; output k is [queue sum / window] for channels 0 and 1, where the queue is the FIFO window over the absolute values 0..k; with a positive window every output is non-negative |
| Smoother.RoundHalfEven | processing.py:113 | the rounded window is within 1/2 of the real window, and a tie goes to the even integer (Python 3 `round`) |
| Smoother.LinearWeights | processing.py:115-118 | the weight array has length W, entry i is i * 2 / W, and every weight lies in [0, 2) |
| Smoother.SlidingRmsWeighted | processing.py:109-132 | one output per sample; output k is the plain queue sum for channels 0 and 1 under the rounded window; the weights do not occur in the result; every output is non-negative |
| Smoother.QueueSums | processing.py:121-130 | the sample loop under a whole window W: output k is the plain sum of each channel's FIFO queue over the absolute values 0..k, and it is non-negative |
| Normalization.Clamp | processing.py:193-194 | the result lies in [0, 1]; values already in [0, 1] are unchanged; below 0 gives 0, above 1 gives 1 |
| Normalization.ClampMonotone | processing.py:193-194 | clamping preserves order |
| Normalization.Scaled | processing.py:189-194 | the result lies in [0, 1]; the rest level maps to 0; with max > rest, readings at or below rest map to 0, readings at or beyond max map to 1, and readings in between map affinely; with max < rest, readings at or above rest map to 0, readings at or below max map to 1, and readings in between map affinely |
| Normalization.ScaledMonotone | processing.py:189-193 | with max > rest, a larger reading never normalizes to a smaller value |
| Calibration.Slice | processing.py:164-171 | Python slicing `data[lo:hi]`: both bounds are clamped to the length, and entry k of the slice is entry lo + k of the data |
| Calibration.Share | processing.py:148-150 | what one phase adds to entry c: `abs(d[c]) / samples` for every sample d of its block, in order |
| Calibration.PhaseShare | processing.py:164-171 | the share phase 0, 1 or 2 adds to entry c, read from the slice `data[phase * samples:(phase + 1) * samples]` |
| Calibration.ShareIsScaledSum | processing.py:148-150 | adding `abs(d[c]) / samples` per entry equals the block's sum of magnitudes divided by `samples`, which is the mean for a full block |
| Calibration.ShareNonNegative | processing.py:150 | a phase never lowers a calibration entry |
| Calibration.SilentShareIsZero | processing.py:155 | a block whose channel is silent adds nothing, so an all-zero recording leaves the calibration degenerate |
| Calibration.PhasesPartitionPrefix | processing.py:164-171 | the rest, flex and extension blocks are consecutive and disjoint, and together form the first 3 * samples entries; with enough data each has exactly `samples` entries |
| Calibration.PhaseShareIsBlockMean | processing.py:148-171 | with zeroed vectors and at least 3 * samples entries, each phase adds exactly the mean magnitude of its channel over its own block of `samples` consecutive entries, and that mean is non-negative |
| Calibration.AddMagnitudes | processing.py:148-160 | one call of a phase closure adds `abs(d[i]) / samples` to entry i of its vector for every channel i and changes nothing else |
| Calibration.AccumulateBlock | processing.py:164-165 | a phase loop adds the block's share to every entry of its vector |
| Calibration.Profile.constructor | processing.py:137-139 | the three vectors start as fresh, distinct, all-zero arrays of `channels` entries |
| Calibration.Profile.Calibrate | processing.py:141-171 | with samples = 5 * hz, each vector becomes its old value plus the share of its block ([0, s) rest, [s, 2s) flex, [2s, 3s) extension); nothing is reset |
| Calibration.Profile.Normalize | processing.py:182-196 | two lists, each as long as the input; flex entry k is channel 0 scaled against rest_avg[0] and flex_max[0], ext entry k is channel 1 scaled against rest_avg[1] and ext_max[1]; every value lies in [0, 1] |

## Left out

- Loading the XDF container, listing the streams and resolving the file path (processing.py:20-36). This is file I/O through a foreign library.
- Selecting the EMG stream by its type tag (processing.py:50-58). Its results are the parameters `data` and `channels`.
- Plotting, the top-level script that chains the stages (processing.py:199-239), and the debug `print` calls. These are display only.
- IEEE-754 arithmetic. Readings are exact reals, so the order in which `calibrate` accumulates does not change its result here. Bit-exact float sums are not reproduced.
- Calibration.Profile.Normalize: the inf and NaN that numpy yields for a zero denominator (processing.py:189-190) are not modelled. Non-zero denominators are a precondition whenever there is data to normalize.
- Calibration.Profile.Normalize: with fewer than two channels and any data, `rest_avg[1]` raises IndexError (processing.py:190). The model requires `channels >= 2` whenever there is data instead of modelling the error.
- Smoother.SlidingRms: a window of 0 with any data makes `del rms[0][0]` fail on an empty list with IndexError (processing.py:95-96). The model requires a non-zero window whenever there is data instead of modelling the error.
- Smoother.SlidingRmsWeighted: a negative rounded window makes `np.zeros` raise ValueError (processing.py:116), and a rounded window of 0 with any data raises IndexError at `del rms[0][0]` (processing.py:123-124). The model requires a rounded window of at least 0, and above 0 whenever there is data, instead of modelling these errors.
- Smoother.QueueSums: takes the same requirement, a positive window whenever there is data, for the same IndexError.
- The commented-out max-based variants (processing.py:103, 154, 159). They are dead code.
- Calibration.Profile.Calibrate: `Hz` is a natural number. A negative rate would make Python's slices count from the end, and that case is not modelled.
- Samples with fewer readings than the channels a stage indexes make the program fail with an index error. Each stage instead requires enough readings: all samples for the filter and smoothers, and the calibrated prefix for `calibrate`.
