# Rolling average of a collection, in Dafny

This project models the `rollingAverage` collection macro of
laravel-collection-rolling-average. The macro takes an ordered list of numbers
and returns a list of moving averages. It has three optional settings: a window
size (how many records to average), a lookback-enforcement flag, and a list of
weights. The weight at index 0 of the list applies to the most recent value in each window.

The model has five modules:

- `Wrappers` (wrappers.dfy): the `Option` type for the settings that may be absent.
- `Averages` (averages.dfy): the declarative meaning of the macro.
  - `Sum` and `Mean`.
  - The window ending at index `i`: it starts at `max(0, i + 1 - w)` and holds `min(i + 1, w)` values.
  - The newest-first buffer `Recent`.
  - The per-slot `Multiplier`: the weight when one is present and non-zero, otherwise 1.
  - `WeightedSum` and `WeightedMean`. The divisor is the number of values in the window.
  - The effective window, and the expected output `RollingAverages`.
- `CollectionRollingAverage` (rolling_average.dfy): the macro itself as an imperative method `RollingAverage`.
  - It resolves the effective window.
  - It trims the weights to that window.
  - It returns early when an enforced window exceeds the input.
  - It walks the input once. Without weights it keeps a running buffer: prepend the value, then keep the first `w` entries. With weights it slices the window, reverses it, and multiplies the values slot by slot (the `WeightedAverage` method).
  - Under enforced lookback it drops the first `w - 1` averages at the end.
  - Its postcondition says the result is exactly `Averages.RollingAverages`.
- `RollingAverageProperties` (properties.dfy) and `RollingAverageExamples` (examples.dfy): lemmas about `RollingAverages`. They cover the promised properties and every hand-worked case in the repository's tests.

Values and weights are Dafny `real`, so arithmetic is exact. The window size is `Option<nat>`, and when present it must be at least 1. The weights are `Option<seq<real>>`.

The model follows the code in three places where its behaviour is easy to miss:

- The code tests a weight with `!empty($weights[$weightIndex])`, so a weight of `0` counts as a missing weight: that value gets multiplier 1, not 0. `RollingAverageProperties.ZeroWeightActsAsOne` states this.
- A weights Collection is a PHP object, and objects are always truthy. So an empty weights list still takes the weighted path, and it gives the same averages as no weights (`EmptyWeightsAgreeWithUnweighted`).
- An empty input with no window size gives an effective window of 0. The enforced-lookback slice `slice(-1)` of the empty averages is then empty. So the output is empty, and not `max(0, n - w + 1) = 1` entries long.

## Model

| member | source | states |
|---|---|---|
| `CollectionRollingAverage.RollingAverage` | src/Providers/CollectionRollingAverageServiceProvider.php:22-74 | The imperative macro returns exactly the expected averages `RollingAverages` for every input and every setting. Its loop invariants carry the running-buffer shape and the averages computed so far. |
| `CollectionRollingAverage.WeightedAverage` | src/Providers/CollectionRollingAverageServiceProvider.php:47-58 | Slicing, reversing, prepending per-slot products and averaging gives the weighted sum of the window divided by its element count. |
| `Averages.Average` | src/Providers/CollectionRollingAverageServiceProvider.php:46-64 | With no weights, or with an empty weights list, the average at index `i` is the plain window mean. With more weights than the window holds, it is the weighted average under the first `w` weights. |
| `Averages.EmptyWeightsMean` | src/Providers/CollectionRollingAverageServiceProvider.php:46-64 | The weighted average under an empty weights list is the plain mean of the window: every slot gets multiplier 1 and the divisor is the same count. |
| `Averages.WindowStart` | src/Providers/CollectionRollingAverageServiceProvider.php:47 | The window start is at most `i + 1`, and the start plus the window count is `i + 1`, so the window ends at index `i`. |
| `Averages.WindowCount` | src/Providers/CollectionRollingAverageServiceProvider.php:48 | The window holds at most `i + 1` values and at most `w` values, and at least one value when `w >= 1`. |
| `Averages.Window` | src/Providers/CollectionRollingAverageServiceProvider.php:47-49 | The window has `WindowCount(i, w)` elements, and element `k` is `values[WindowStart(i, w) + k]`: the slice of consecutive values that ends at index `i`. |
| `Averages.ReversedWindowSlot` | src/Providers/CollectionRollingAverageServiceProvider.php:49-53 | Slot `j` of the reversed window ending at index `i` holds `values[i - j]`. So slot 0 is the most recent value, and weight `j` applies to the value `j` places back. |
| `Averages.Multiplier` | src/Providers/CollectionRollingAverageServiceProvider.php:52-55 | The factor of a slot is never 0. It is either 1 or the weight stored for that slot. |
| `Averages.RecentIsReversedSlice` | src/Providers/CollectionRollingAverageServiceProvider.php:61-62 | The newest-first buffer of the `c` latest values is the chronological slice `values[len-c .. len]` reversed. So the running buffer of lines 61-62 holds what line 49 slices and reverses. |
| `Averages.WindowMean` | src/Providers/CollectionRollingAverageServiceProvider.php:64 | With `w = 1` the average at `i` is `values[i]`. When the window covers the whole prefix (`i + 1 <= w`), it is the mean of `values[..i+1]`. |
| `RollingAverageProperties.UniformWeightsSum` | src/Providers/CollectionRollingAverageServiceProvider.php:51-57 | If every slot has the same non-zero weight `m`, the weighted sum of the window is `m` times its plain sum. |
| `Averages.EffectiveWindow` | src/Providers/CollectionRollingAverageServiceProvider.php:23-26 | The resolved window is 0 only for an empty input. It never exceeds the input length unless lookback is enforced and the requested size is kept. |
| `Averages.Mean` | src/Providers/CollectionRollingAverageServiceProvider.php:58-64 | The average times the element count is the sum of the collection. |
| `Averages.BufferStep` | src/Providers/CollectionRollingAverageServiceProvider.php:61-64 | Prepending the next value to the newest-first buffer of the `min(len, w)` latest values, then keeping `w` entries, gives the buffer of the `min(len+1, w)` latest values. Its mean is the mean of the chronological window. |
| `Averages.SumRecent` | src/Providers/CollectionRollingAverageServiceProvider.php:61-64 | The newest-first buffer and the chronological slice of the same values have the same sum. |
| `Averages.TrimmedWeightedMean` | src/Providers/CollectionRollingAverageServiceProvider.php:28-30 | Cutting the weights to the first `w` entries leaves every weighted average unchanged. |
| `Averages.WeightedSumCongruent` | src/Providers/CollectionRollingAverageServiceProvider.php:51-56 | Weight lists with equal multipliers on the first `k` slots give equal weighted sums. |
| `Averages.WeightedSumConstant` | src/Providers/CollectionRollingAverageServiceProvider.php:51-56 | If every slot has multiplier `m`, the weighted sum is `m` times the plain sum of the window. |
| `Averages.RetainedAverages` | src/Providers/CollectionRollingAverageServiceProvider.php:68-71 | Without enforcement the output is the average of every index. With it, the output is what follows the first `w - 1` averages. |
| `Averages.RollingAverages` | src/Providers/CollectionRollingAverageServiceProvider.php:40-71 | The output is never longer than the input, and without enforcement it has exactly the input's length. |
| `RollingAverageProperties.UnweightedOutput` | src/Providers/CollectionRollingAverageServiceProvider.php:40-64 | Without weights or enforcement, the output has the input's length, and `output[i]` is the mean of `values[max(0, i+1-w) .. i+1]`. |
| `RollingAverageProperties.WeightedOutput` | src/Providers/CollectionRollingAverageServiceProvider.php:46-58 | With weights and no enforcement, `output[i]` is the sum over slots `j < c` of `multiplier_j * values[i-j]`, divided by `c = min(i+1, w)`: divided by the count, not the weight sum. |
| `RollingAverageProperties.NullWindowIsWholeInput` | src/Providers/CollectionRollingAverageServiceProvider.php:23-25 | A missing window size gives the same output as a window of the whole input, for every lookback flag and every weights setting. |
| `RollingAverageProperties.OversizedWindowIsWholeInput` | src/Providers/CollectionRollingAverageServiceProvider.php:23-25 | Without enforcement, a window larger than the input gives the same output as a window of the whole input. |
| `RollingAverageProperties.WholeInputMeans` | src/Providers/CollectionRollingAverageServiceProvider.php:23-26 | With a missing or oversized window, no weights and no enforcement, `output[i]` is the mean of `values[..i+1]`. |
| `RollingAverageProperties.EnforcedWindowTooLarge` | src/Providers/CollectionRollingAverageServiceProvider.php:33-35 | Enforced lookback over more values than the input holds gives an empty output, whatever the weights. |
| `RollingAverageProperties.EnforcedWindowFits` | src/Providers/CollectionRollingAverageServiceProvider.php:68-71 | With enforcement and `1 <= w <= n`, the output has `n-w+1` entries, `output[k]` is the unenforced `output[k+w-1]`, and each retained window holds exactly `w` values. |
| `RollingAverageProperties.TrimmingIsUnobservable` | src/Providers/CollectionRollingAverageServiceProvider.php:28-30 | Trimming the weights to the effective window gives the same output as the untrimmed weights, under every setting. |
| `RollingAverageProperties.ZeroWeightActsAsOne` | src/Providers/CollectionRollingAverageServiceProvider.php:52-55 | Replacing a zero weight by 1 never changes the output: a zero weight leaves its value unmultiplied. |
| `RollingAverageProperties.EmptyWeightsAgreeWithUnweighted` | src/Providers/CollectionRollingAverageServiceProvider.php:46-64 | The weighted path with an empty weights list gives the same output as the unweighted running buffer. |
| `RollingAverageProperties.UniformWeightsScale` | src/Providers/CollectionRollingAverageServiceProvider.php:51-58 | If every slot has the same non-zero weight `m`, the weighted average is `m` times the plain average, so the weights are not normalised. |
| `RollingAverageProperties.WindowOfOneIsIdentity` | src/Providers/CollectionRollingAverageServiceProvider.php:40-71 | A window of 1 without weights returns the input unchanged, with or without enforcement. |
| `RollingAverageProperties.EmptyInput` | src/Providers/CollectionRollingAverageServiceProvider.php:37-73 | An empty input gives an empty output under every setting. |
| `RollingAverageExamples.WithoutLimit` | tests/Macros/CollectionRollingAverageTest.php:11-18 | `[1,2,3]` with no settings gives `[1, 1.5, 2]`. |
| `RollingAverageExamples.WithLookbackLimit` | tests/Macros/CollectionRollingAverageTest.php:21-36 | `[1..6]` with window 2 gives `[1, 1.5, 2.5, 3.5, 4.5, 5.5]`. |
| `RollingAverageExamples.WithLookbackLimitLargerThanSet` | tests/Macros/CollectionRollingAverageTest.php:39-47 | `[1,2,3]` with window 5 gives `[1, 1.5, 2]`. |
| `RollingAverageExamples.EnforcedLookbackReturnsSmallerSet` | tests/Macros/CollectionRollingAverageTest.php:50-63 | `[1..6]` with enforced window 3 gives `[2, 3, 4, 5]`. |
| `RollingAverageExamples.EnforcedLookbackLargerThanSet` | tests/Macros/CollectionRollingAverageTest.php:66-74 | `[1,2,3]` with enforced window 4 gives `[]`. |
| `RollingAverageExamples.WeightsShorterThanWindow` | tests/Macros/CollectionRollingAverageTest.php:78-93 | `[1,2,2,4,5,6]`, window 4, weights `[5,2]` gives `[5, 6, 5, 6.75, 9.25, 11.5]`. |
| `RollingAverageExamples.WeightsLongerThanInput` | tests/Macros/CollectionRollingAverageTest.php:97-109 | `[1,2,3]`, window 4, weights `[5,2,2,2]` gives `[5, 6, 7]`. |
| `RollingAverageExamples.WeightsShorterThanWindowEnforced` | tests/Macros/CollectionRollingAverageTest.php:113-125 | `[1,2,2,4,5,6]`, enforced window 4, weights `[5,2]` gives `[6.75, 9.25, 11.5]`. |
| `RollingAverageExamples.WeightsLongerThanWindowEnforced` | tests/Macros/CollectionRollingAverageTest.php:129-142 | `[1,2,3,1,2,3]`, enforced window 3, weights `[5,2,2,2,3,4]` gives `[7, 5, 6, 7]`. |

## Left out

- Registering the closure as a Collection macro through the Laravel service provider is framework plumbing. The macro is modelled as a standalone method.
- Collections whose keys are not `0 .. n-1` are left out. `foreach` with `$index`, `slice` and `values()` would then see different keys. The input is modelled as a 0-indexed list.
- Window sizes below 1 are excluded by a precondition (`ValidWindow`), because neither case gives a rolling average.
  - With size 0 every window is empty, so `average()` returns null at every index. The enforced-lookback slice becomes `slice(-1)`, which keeps only the last of those nulls.
  - With a negative size the slices at lines 29, 47-49 and 70 get negative offsets and lengths, which PHP counts from the end of the collection. For example, take four values, window -1 and weights. At index 0, line 47 gives 2 and line 48 gives -1, and `slice(2, -1)` holds just the third value. Line 29 becomes `slice(0, -1)`, which drops the last weight. Line 70 becomes `slice(-2)`.
- PHP floating-point arithmetic in `average()` and in the weight products is replaced by exact rational (`real`) arithmetic.
- Non-numeric weights are left out. Only the numeric form of PHP `empty()` is modelled: a missing weight or a weight of 0 means multiplier 1.
- The in-place mutation of PHP Collections is modelled on sequence values: `prepend` on `$rolling` and `$weightedAverage`, `push` on `$averages`. Nothing else aliases those collections.
- The test scaffolding (tests/TestCase.php, tests/IntegrationTestCase.php) only creates providers through reflection and the package test bench, so it is not part of this model.
