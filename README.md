# LiMeter signal pipeline in Dafny

LiMeter draws a bar-graph spectrum of live microphone audio. This project models its pipeline, without the UI, in two recorded configurations.

- **Acquisition.** `spectrum_analyzer.py` picks the input device. It decodes each block of 16-bit PCM into samples and optionally splits the channels.
- **Bucketing.** `_get_audio_groups(count)` builds a table of `(start, end + 1)` index pairs. The pairs cover logarithmically spaced frequency ranges on a linear Hz grid. The boundaries are `11 ** e` for the exponents `1 + 3/count`, `1 + 2*3/count`, …, `4 + 3/count`, so they run from 11^(1 + 3/count) to 11^(4 + 3/count) Hz (about 18 330 Hz for `count = 32`). The reduction in `update_audio_data` turns one spectrum into one bar vector using this table.
- **Smoothing.** `Smoother` keeps a bounded history of bar vectors. It computes a weighted blend across the history, a valid-range Gaussian convolution across bars and, in `viz.py` only, a linear amplitude ramp.

The two configurations behave differently:

| | `viz.py` (module `Viz`) | `visualizer.py` (module `Visualizer`) |
|---|---|---|
| history | 6 vectors | 5 vectors |
| blend term | `item[index] * 0.5*index+1`, 0 if the vector is short | `item[index] * 2**index+1`, IndexError if short |
| Gaussian degree (window) | 4 (7) | 3 (5) |
| amplitude ramp | yes (`normalize`) | no |
| grid step | 10 Hz | 20 Hz |
| spectrum kept | upper half `Pxx[len//2:]` | `Pxx[1200:]` |
| bar | `max(..., default=0)` | `max(...)`, ValueError if empty |

The modules:

- **`Common`:** Python's `sum`, `max`, clamped slicing and `2**i`, and the exceptions the code can raise, as an `Err` value of a `Result`.
- **`Smoothing`** (shared by both configurations):
  - the bounded deque;
  - the Gaussian kernel;
  - the convolution.
- **`Bucketing`** (shared): the grid scan of `_get_audio_groups`, modelled with its literal truthiness tests, and the table built from it.
- **`Viz` and `Visualizer`:** each has a `Smoother` class (the deque is the field `values`), its blend, the configured table, and the reduction.
- **`SpectrumAnalyzer`:** the constants, `find_input_device`, and the decode and channel split of `readData`.

Properties proved:

- The deque holds the most recent entries ever added, oldest first.
- Blend and convolution lengths.
- The kernel is positive and symmetric.
- Every smoothed value lies between its window's min and max, and a constant run is preserved.
- The ramp runs from 0.15 and stays below 1.5.
- The grid scan has a closed form, including its `0`/`-1` truthiness cases, and every table entry is ordered. On the 10 Hz grid consecutive entries tile. On the 20 Hz grid they tile wherever the shared boundary is at least 20 Hz.
- The exact conditions under which the reduction yields a single bin, or fails.
- The last matching device is the one chosen.
- Decoding and encoding of 16-bit blocks are mutual inverses.
- The channel split loses nothing.

Some computations are parameters rather than code. `11 ** x` is a parameter `pow11` that is strictly increasing with `pow11(1.0) == 11.0`. `np.exp` is a parameter `exp` with positive values. The device names and the bytes of a block are given as inputs.

In several places the code does not do what the system is described as doing. The model follows the code:

- **Reduction coercion.** The code coerces with `if start <= end: end = start + 1`, not with the described `start >= end`. So an ordered pair reads exactly one bin when its `start` is inside the kept spectrum, and nothing otherwise; a reversed pair reads an empty slice. In `viz.py` this empty read can happen: with 75 bars the count is 82, and pairs 79–81 start at indices 1229, 1342 and 1465, past the 1200 bins of the upper half of a 2400-bin spectrum, so they give 0.
- **Convolution length.** `smoothed = [0.0]*(len(sample)-window)`, so the convolution yields `len - window` values, not `len - (window - 1)`. The last complete window is dropped.
- **Ramp end.** The ramp's last factor is `1.5 - 1.35/n`, not 1.5.
- **Device choice.** `find_input_device` returns the *last* matching device.
- **Blend.** Because of operator precedence, each blend term is `item*w + 1` over a divisor of `n*w + n`. This is not a weighted average. A history holding a constant `v` blends to `(v*w + 1)/(w + 1)`, which equals `v` only when `v == 1`. The described property "a constant vector passes through the smoother" therefore holds only for all-ones vectors, none of them shorter than the oldest (`SmoothOfOnes`). In `viz.py` a vector too short to reach a bar adds a 0 term while `divisor` still grows, so even an all-ones history blends below 1 there (`ShortVectorDilutes`). In `viz.py`, bar 0 of the blend is 1 whenever no history vector is empty; an empty vector contributes a 0 term there.
- **`visualizer.py` grid.** On the 20 Hz grid with the default `count = 30`, the second boundary 11^1.2 ≈ 17.8 Hz is below the first grid value above 0. The `not end` test then skips `end == 0`, so the first pair ends at index 2 while the second starts at index 1. Tiling of consecutive pairs is therefore stated only for shared boundaries of at least 20 Hz.

## Model

| member | source | states |
|---|---|---|
| Common.Sum | viz.py:33 | the built-in `sum`, defined by adding the elements from the left starting at 0; no contract of its own, its properties are `SumConstant` and `Smoothing.SumPositive` |
| Common.SumConstant | viz.py:33 | summing `n` copies of `c` gives `n * c` |
| Common.SeqMax | visualizer.py:133 | `max` of a non-empty list is an element and bounds every element |
| Common.MaxOr0 | viz.py:163 | `max(s, default=0)`: 0 on the empty list, else the maximum |
| Common.Slice | viz.py:163 | Python slicing `s[a:b]` with clamping: its length and that entry `k` is `s[a+k]` |
| Smoothing.BoundedAppend | viz.py:15-18 | `deque(maxlen=cap).append`: one more entry, but never more than `cap`, and the new entry is last |
| Smoothing.BoundedAppendKeepsNewest | viz.py:15-18 | appending to a deque of capacity `cap` that holds the last `cap` entries ever added keeps it holding the last `cap` entries |
| Smoothing.BoundedAppendShape | visualizer.py:12-15 | one append keeps the old entries before the new one, less the oldest exactly when the deque was full |
| Smoothing.GaussWeight | viz.py:43-47 | each kernel weight `1/exp((4*frac)**2)` is positive |
| Smoothing.KernelPositiveSymmetric | viz.py:40-48 | all `2*degree-1` weights are positive and the kernel is symmetric about its centre |
| Smoothing.GaussianWeights | viz.py:40-48 | the loop filling `weightGauss`, times the all-ones `weight`, yields exactly the kernel |
| Smoothing.WeightedSum | viz.py:51 | `sum(np.array(win) * w)`, defined as the left-to-right sum of the elementwise products; no contract of its own, its bounds are `WeightedSumLower` and `WeightedSumUpper` |
| Smoothing.SumPositive | viz.py:51 | the kernel's weight sum is positive, so the division in the convolution is defined |
| Smoothing.WeightedSumLower | viz.py:51 | values `>= lo` with positive weights give a weighted sum `>= lo * sum(w)` |
| Smoothing.WeightedSumUpper | viz.py:51 | values `<= hi` with positive weights give a weighted sum `<= hi * sum(w)` |
| Smoothing.WindowMean | viz.py:51 | `sum(np.array(win) * w) / sum(w)`, defined for positive weights; a window of non-negative values has a non-negative mean |
| Smoothing.WindowMeanWithin | viz.py:51 | each weighted mean lies between the minimum and maximum of its window |
| Smoothing.WindowMeanConstant | viz.py:51 | a constant window's weighted mean is that constant |
| Smoothing.Convolve | viz.py:49-51 | the preallocated `smoothed` list has `len(sample) - window` entries (none when not positive), entry `i` being the weighted mean of `sample[i:i+window]` |
| Smoothing.GaussianSmooth | visualizer.py:31-46 | `smoothListGaussian` before normalisation: length `max(0, len - window)`, entries are kernel-weighted window means |
| Smoothing.SmoothedValueBounds | viz.py:49-51 | every smoothed value is between the min and max of its input window |
| Smoothing.SmoothedConstantRun | viz.py:49-51 | a constant input run as long as the window is reproduced |
| Bucketing.GridLen | viz.py:113 | `len(range(0, 24000, step))`, the ceiling of `24000 / step`; the grid is never empty |
| Bucketing.GridLenBounds | viz.py:113 | `range(0, 24000, step)` has exactly the indices `j` with `j*step < 24000`, at least 3 of them |
| Bucketing.FirstAboveIsLeast | viz.py:134-138 | the closed form is the least grid index whose value exceeds `x` (both directions) |
| Bucketing.FirstAboveMonotone | viz.py:134-138 | a higher threshold is first exceeded no earlier |
| Bucketing.FirstAbovePastGrid | viz.py:134-143 | no grid value exceeds `x` exactly when `x` is at least the last grid value |
| Bucketing.StartIndex | viz.py:134-136 | the `start` the scan ends with: the first index above `lo`, except that an index 0 is falsy and is replaced by 1, so it is never 0 |
| Bucketing.StopIndex | viz.py:134-143 | the `end + 1` the scan ends with: the first index above `hi`, except that index 1 (an `end` of 0, falsy) gives 2, so it is never 1 |
| Bucketing.ScanIndicesClean | viz.py:134-138 | for `lo >= 0` and `hi >= step` the scan's `start` and `end + 1` are the first grid indices above `lo` and `hi` |
| Bucketing.ScanRange | viz.py:131-143 | one scan with `not start`/`not end` tests: TypeError (from `None + 1`) exactly when no grid value exceeds `hi`, otherwise the pair in closed form, including the `0`-is-falsy and `-1`-is-truthy cases |
| Bucketing.Exponent | viz.py:117-122 | `powers[k + 1]`, the running sum `1 + (k + 1) * (3 / count)` written out; after `count` steps it reaches 4 |
| Bucketing.ExponentIncreasing | viz.py:117-122 | the exponents produced by the running sum are above 1 and strictly increase |
| Bucketing.Boundary | viz.py:125-127 | the Hz boundary `11 ** powers[k]`, defined as `pow11` of the exponent; no contract of its own, its order is `BoundaryIncreasing` |
| Bucketing.BoundaryIncreasing | viz.py:125-127 | consecutive frequency boundaries `11**powers[k]` strictly increase |
| Bucketing.BuildAudioGroups | viz.py:111-145 | `count` pairs, pair `k` scanned between boundaries `k` and `k+1`; ZeroDivisionError for `count == 0`; TypeError exactly when the top boundary is not below the last grid value |
| Bucketing.GroupOrdered | visualizer.py:102-114 | for non-negative ordered boundaries every pair has `start <= end + 1` |
| Viz.Term | viz.py:27-30 | the term `item[index] * 0.5*index+1`, read as `(item[index] * 0.5 * index) + 1`: 0 when the vector has no entry at `index`, and 1 at bar 0 whatever the magnitude |
| Viz.Terms | viz.py:23-30 | `to_be_meaned`: one term per history vector, so as many as the history holds |
| Viz.BlendAt | viz.py:23-33 | `sum(to_be_meaned) / divisor` with `divisor` grown by `0.5*index+1` per vector; a bar that no history vector reaches blends to 0 |
| Viz.Blend | viz.py:22 | the blend has exactly the length of the oldest history vector `values[0]` |
| Viz.BlendFirstIsOne | viz.py:27-31 | with no empty vector in the history, blend element 0 is exactly 1 whatever the magnitudes |
| Viz.BlendUniform | viz.py:25-33 | a history holding `v` at `index` blends to `(v*0.5*index + 1)/(0.5*index + 1)` there |
| Viz.BlendOfOnes | viz.py:25-33 | a history holding 1 at `index` blends to 1 there |
| Viz.SmoothOfOnes | viz.py:20-51 | an all-ones history in which no vector is shorter than the oldest smooths to 1 at every convolution position, before the ramp |
| Viz.ShortVectorDilutes | viz.py:27-31 | an all-ones history whose newer vector has one entry blends to 0.5 at bar 5: the short vector adds 0 while `divisor` still grows |
| Viz.NormalizeFactor | viz.py:56-61 | the running `start` at element `k`, `0.15 + k * ((1.5 - 0.15) / n)`; the step is chosen so that `n` steps would reach 1.5 |
| Viz.NormalizeFactorBounds | viz.py:55-61 | on a list of any length `n`, the ramp starts at 0.15 and every factor used lies in [0.15, 1.5) |
| Viz.NormalizeFactorIncreasing | viz.py:59-61 | the ramp factor strictly increases along the list |
| Viz.Normalize | viz.py:54-62 | ZeroDivisionError exactly on the empty list; otherwise element `k` is scaled by `0.15 + k*(1.35/n)` |
| Viz.SmoothListGaussian | viz.py:37-52 | ZeroDivisionError exactly when the input has at most 7 values; otherwise `len - 7` ramped window means |
| Viz.Smoother.constructor | viz.py:14-15 | a new smoother has an empty history |
| Viz.Smoother.AddSample | viz.py:17-18 | the sample becomes the newest entry; at most 6 are kept; when full the oldest is evicted and the rest keep their order |
| Viz.Smoother.BlendBar | viz.py:23-33 | the inner loop yields `sum(to_be_meaned) / divisor`, the blend at `index` |
| Viz.Smoother.GetSmoothSample | viz.py:20-35 | IndexError on an empty history, ZeroDivisionError when `values[0]` has at most 7 bars, else `len(values[0]) - 7` values, each the ramped Gaussian mean of the blend |
| Viz.GetAudioGroups | viz.py:111-145 | on the 10 Hz grid every pair is the first indices above its two boundaries, ordered, and consecutive pairs tile; errors as in the table build |
| Viz.ReduceBars | viz.py:157-163 | one bar per pair: `upper[start]` for an ordered pair whose start is in the upper half, otherwise 0 |
| Visualizer.TwoPow | visualizer.py:24-25 | `2**index` is at least 1 |
| Visualizer.Term | visualizer.py:24 | the term `item[index] * 2**index+1`, read as `(item[index] * 2**index) + 1`: at bar 0 it is `item[0] + 1`, and a non-negative magnitude gives at least 1 |
| Visualizer.Terms | visualizer.py:20-24 | `to_be_meaned`: one term per history vector, so as many as the history holds |
| Visualizer.BlendAt | visualizer.py:20-27 | `sum(to_be_meaned) / divisor` with `divisor` grown by `2**index+1` per vector; non-negative magnitudes give a positive blend |
| Visualizer.Blend | visualizer.py:19 | the blend has exactly the length of the oldest history vector |
| Visualizer.BlendClosedForm | visualizer.py:20-27 | blend element `i` is `(2**i * sum(item[i]) + n) / (n * (2**i + 1))` |
| Visualizer.TermsUniform | visualizer.py:22-24 | a history holding `v` at `index` sums to `n * (2**index * v + 1)` there |
| Visualizer.BlendUniform | visualizer.py:20-27 | a history holding `v` at `index` blends to `(2**i * v + 1)/(2**i + 1)` there |
| Visualizer.BlendOfOnes | visualizer.py:20-27 | a history holding 1 at `index` blends to 1 there |
| Visualizer.SmoothOfOnes | visualizer.py:17-46 | an all-ones history smooths to 1 at every convolution position |
| Visualizer.SmoothListGaussian | visualizer.py:31-46 | `max(0, len - 5)` kernel-weighted window means, no normalisation |
| Visualizer.Smoother.constructor | visualizer.py:11-12 | a new smoother has an empty history |
| Visualizer.Smoother.AddSample | visualizer.py:14-15 | the sample becomes the newest entry; at most 5 are kept; when full the oldest is evicted and the rest keep their order |
| Visualizer.Smoother.BlendBar | visualizer.py:20-27 | IndexError exactly when some vector has no entry at `index`, else the blend at `index` |
| Visualizer.Smoother.GetSmoothSample | visualizer.py:17-29 | IndexError exactly when the history is empty or has a vector shorter than the oldest; otherwise `max(0, len(values[0]) - 5)` Gaussian means of the blend |
| Visualizer.GetAudioGroups | visualizer.py:82-116 | on the 20 Hz grid every pair starts at the first index above its low boundary, is ordered, and tiles with the next one wherever the shared boundary is at least 20 Hz; errors as in the table build |
| Visualizer.ReduceBars | visualizer.py:127-133 | succeeds exactly when every pair is ordered and `1200 + start` is inside the spectrum, each bar then being `Pxx[1200 + start]`; ValueError otherwise |
| SpectrumAnalyzer.FramesPerBlock | spectrum_analyzer.py:20-30 | `int(48000 * 0.05)` is 2400 frames |
| SpectrumAnalyzer.ToLower | spectrum_analyzer.py:43 | lower-casing maps `A`–`Z` to `a`–`z` and leaves every other character alone |
| SpectrumAnalyzer.Lower | spectrum_analyzer.py:43 | `name.lower()`: same length, each character lower-cased by `ToLower` |
| SpectrumAnalyzer.LowerIdempotent | spectrum_analyzer.py:43 | lower-casing a lower-cased name changes nothing |
| SpectrumAnalyzer.IsInputName | spectrum_analyzer.py:43 | `name.lower() in ["mic", "input"]`: a matching name is exactly three or five characters long (equality, not substring) |
| SpectrumAnalyzer.InputNameIgnoresCase | spectrum_analyzer.py:43 | whether a name matches does not depend on its case |
| SpectrumAnalyzer.FindInputDevice | spectrum_analyzer.py:39-46 | `None` exactly when no name matches; otherwise an index in range whose name matches and after which none does (the last match) |
| SpectrumAnalyzer.ToShort | spectrum_analyzer.py:62 | one `h` sample from two bytes, low byte first, as two's complement: it is negative exactly when the high byte's top bit is set |
| SpectrumAnalyzer.ShortRoundTrip | spectrum_analyzer.py:62 | encoding a 16-bit sample as two bytes and decoding gives it back |
| SpectrumAnalyzer.BytesRoundTrip | spectrum_analyzer.py:62 | decoding two bytes as a sample and encoding gives them back |
| SpectrumAnalyzer.Unpack | spectrum_analyzer.py:60-62 | StructError exactly for an odd byte count; otherwise `len/2` samples, each in [-32768, 32767] |
| SpectrumAnalyzer.UnpackPack | spectrum_analyzer.py:60-62 | decoding an encoded sample list gives it back |
| SpectrumAnalyzer.PackUnpack | spectrum_analyzer.py:60-62 | every block that decodes is the encoding of its samples |
| SpectrumAnalyzer.Evens | spectrum_analyzer.py:66 | `shorts[::2]`: entry `i` is `shorts[2*i]`, `ceil(n/2)` of them |
| SpectrumAnalyzer.Odds | spectrum_analyzer.py:67 | `shorts[1::2]`: entry `i` is `shorts[2*i+1]`, `floor(n/2)` of them |
| SpectrumAnalyzer.SplitInterleave | spectrum_analyzer.py:66-67 | `shorts[::2]` and `shorts[1::2]`, interleaved again, rebuild the whole stream |
| SpectrumAnalyzer.SelectChannel | spectrum_analyzer.py:63-71 | one channel returns the samples unchanged; with two, `'l'` gives the even positions and anything else the odd ones |
| SpectrumAnalyzer.ReadData | spectrum_analyzer.py:58-71 | the decode and channel split of `readData`; with `CHANNELS == 1` it is exactly `Unpack` |
| SpectrumAnalyzer.FullBlockSamples | spectrum_analyzer.py:58-64 | a block of `2 * 2400` bytes decodes to 2400 samples |

## Left out

- **UI.** Qt widgets, timers, resize and render geometry are UI and are not part of this model.
- **Concurrency.** The analysis thread and its `while True` loop with a bare `except: continue` are left out, as is the shared `current_sample` list. The render tick stores a reference to that list, which the other thread may still be filling. The model treats every bar vector as a finished value, so aliasing and torn vectors are not captured.
- **`get_spectrum`** (numpy FFT, `fftfreq`, `fftshift`): the model takes its magnitudes as an input sequence.
- **Floating point.** All arithmetic is over exact reals. The float rounding of the `powers` running sum, of the ramp's running `start` and of the kernel is not modelled. `11 ** x` and `np.exp` are function parameters with only the properties stated above.
- **pyaudio** (`__init__`, `initMicrophone`, `stream.read`): I/O. The block bytes and the device names are inputs.
- **`close`** (`sys.exit`) and the fps history: process control and wall-clock timing.
- **`RANGE`:** the constant is never used by the modelled code.
- **Visualizer.Term:** over reals, `item[index] * 2**index` never fails. In Python a float times `2**index` raises OverflowError once `2**index` exceeds the float range (index ≥ 1024). The configured 30 bars stay far below that.
- **SpectrumAnalyzer.ToLower:** models ASCII lower-casing only; Python's `str.lower` also folds non-ASCII letters.
- **SpectrumAnalyzer.Unpack:** assumes native byte order is little-endian.
- **Bucketing.ScanRange:** requires `lo <= hi`, which every range built from an increasing `11 ** x` meets. With `lo > hi` the source can store a pair `(None, end + 1)`, which the `Group` datatype cannot hold.
- **Bucketing.BuildAudioGroups:** `audio_range.index(item)` and `powers.index(item)` are the loop indices. Neither list has repeats, so these agree.
