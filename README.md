# HistoNdProfile: a verified model of the profile reduction

`HistoNdProfile` is a Bokeh column data source. It holds a flattened
N-dimensional histogram (a `HistoNdCDS`) and reduces it along one *profile
axis*. Every *transverse bin* (one combination of bins on the other axes)
becomes one row of output columns:

- `mean`, `std`, `entries` and `isOK`;
- one `quantile_k` column per requested fraction;
- one `sum_i` and one `sum_normed_i` column per requested range of the profile axis.

This project models `HistoNdProfile.update()` in Dafny and proves properties
of the model.

Numbers are `real`. A NaN result is `None` of `Option<real>`. The modules
follow the parts of `update()`:

| module | what it models |
|---|---|
| `Strides` | The strided traversal. The transverse bin that starts at flat index `x + z` owns the flat bins `x + y + z`, for `y = 0, strideLow, ...` below `strideHigh` (`Walk`, `AxisSlice`). `InBounds` says that every such read is inside the array. |
| `PrefixSums` | The first `y` loop. It builds the cumulative histogram and the number of entries. |
| `Statistics` | The count-weighted mean and population variance of the bin centres. |
| `Quantiles` | The cursor walk over the cumulative histogram. `QuantileWalk` is proved equal to `QuantileValues`, a function that mirrors the walk. For sorted fractions, that function is proved equal to `QuantileAt`, an independent definition that places each fraction on its own. |
| `RangeIntegral` | The interpolated cumulative distribution (`Cdf`) used by the range sums, and the `sum_i` and `sum_normed_i` values. |
| `Profile` | Four parts: one row per transverse bin (`RowAt`, `ProfileRow`); the nested traversal (`Reduce`); the local column arrays (`Table`); and publishing them into `this.data` (`Publish`). The class `HistoNdProfile` holds the configured properties and `data`. Its `Update` method is `update()`. |
| `Examples` | A one-dimensional worked example. |

The traversal is modelled for any pair of strides. `Reduce` takes
`strideLow` and `strideHigh`. `HistoNdProfile.Update` passes the value the
source uses for both (see below).

## Behaviour of the code as written

The model follows the code. Some of the code's behaviour is evidently not what
its authors meant, and the model records it as it is:

- **Both strides are the same** (lines 76-77). `stride_low` and `stride_high`
  are both `source.get_stride(axis_idx)`, so every profile has exactly one
  step. `Profile.AsWrittenRowCount` proves that the table then has one row
  per flat bin. `Profile.AsWrittenRow` proves that each row just repeats its
  own bin: `entries` is the bin's count, `mean` is the bin's centre and the
  variance is 0. For the intended layout, where `strideLow` divides
  `strideHigh` and `strideHigh` divides the flat length, the general lemmas
  (`Strides.StepsPerBin`, `Profile.LayoutReadable`, `Profile.RowCount`)
  describe the reduction.
- **Quantile edges.** A quantile is interpolated between
  `edges_left[j]` and `edges_right[j]`, where `j` is the profile step index.
  It is not the flat index `x + j * strideLow + z` of the bin being read. The
  model uses the same `edgesLeft[j]`.
- **Null arrays** (lines 94-99). When `bin_count` or the centres are null, the
  row gets NaN, NaN, NaN and `false`. The `continue` also skips the quantile
  and range loops, so those columns get nothing for that row.
  `Profile.NullTable` shows that they stay empty while `mean` and the other
  fixed columns grow. With data present, `Profile.TableAligned` shows that
  every column has one value per row.
- **Pass-through columns.** The `bin_bottom_i`, `bin_center_i` and
  `bin_top_i` pass-through columns (lines 67-74 and 87-93) are built in
  `new_data`, which is never published.
- **Undeclared names.** `source` and `axis_idx` in lines 68, 76-77, 81-83,
  86-91 are undeclared. They are read here as `this.source` and
  `this.axis_idx`.
- **Negative fractions.** Only the *leading* negative fractions are
  turned into NaN (lines 127-130). A negative fraction after a non-negative
  one goes through the walk. For sorted fractions every negative one is
  leading: `Profile.RowQuantiles` proves that quantile `k` is a number
  exactly when `0 <= quantiles[k] < 1`.
- **Range sums at a whole index.** Take bins `[0,1)`, `[1,2)` and `[2,3)`
  with 1, 3 and 1 entries, and the range `[0, 2]`. The upper end maps to index
  2, where lines 179-180 blend `cumulative[1] = 4` and `cumulative[2]` with
  weight 0. The range therefore holds 4 entries, the first two bins, and its
  normed value is 0.8. `Examples.ExampleRangeSum` states this.

## Model

Source paths are relative to the repository root. `update()` is
`RootInteractive/InteractiveDrawing/bokeh/HistoNdProfile.ts`.

| member | source | states |
|---|---|---|
| Strides.AxisSlice | RootInteractive/InteractiveDrawing/bokeh/HistoNdProfile.ts:104-105 | The values that `bin_count[x+y+z]` reads for `y = 0, stride_low, ...` below `stride_high`: one per step of the `y` loop. |
| Strides.LayoutInBounds | RootInteractive/InteractiveDrawing/bokeh/HistoNdProfile.ts:85-105 | If `strideLow` divides `strideHigh`, `x < strideLow` and the block `z` lies whole in the array, every index `x+y+z` is inside the array. |
| Strides.StepsPerBin | RootInteractive/InteractiveDrawing/bokeh/HistoNdProfile.ts:76-78 | If `strideLow` divides `strideHigh`, the `y` loop runs `strideHigh / strideLow` times, the source's `length`. |
| Strides.WalkFits | RootInteractive/InteractiveDrawing/bokeh/HistoNdProfile.ts:104-107 | The cumulative histogram is no longer than the part of the array after its first bin, so the edge arrays cover every profile step. |
| Strides.DividesSelf | RootInteractive/InteractiveDrawing/bokeh/HistoNdProfile.ts:76-77 | With equal strides there is exactly one step per profile. |
| Strides.DividesIsModulo | RootInteractive/InteractiveDrawing/bokeh/HistoNdProfile.ts:78 | The stride layout holds exactly when `total % step == 0`. |
| Strides.WholeSteps | RootInteractive/InteractiveDrawing/bokeh/HistoNdProfile.ts:78 | When the layout holds, the step times the number of steps is the total. |
| PrefixSums.AccumulateAlongAxis | RootInteractive/InteractiveDrawing/bokeh/HistoNdProfile.ts:101-107 | The loop returns the running totals of the slice as `cumulative_histogram` and their sum as `entries`. |
| PrefixSums.CumulativeAt | RootInteractive/InteractiveDrawing/bokeh/HistoNdProfile.ts:104-107 | Entry `i` of the cumulative histogram is the sum of the first `i + 1` counts. |
| PrefixSums.CumulativeLast | RootInteractive/InteractiveDrawing/bokeh/HistoNdProfile.ts:103-107 | The last entry of the cumulative histogram equals `entries`. |
| PrefixSums.CumulativeNonDecreasing | RootInteractive/InteractiveDrawing/bokeh/HistoNdProfile.ts:104-107 | With non-negative counts the cumulative histogram starts at or above 0, never decreases, and never exceeds `entries`. |
| PrefixSums.SumNonNegative | RootInteractive/InteractiveDrawing/bokeh/HistoNdProfile.ts:103-105 | With non-negative counts, `entries >= 0`. |
| PrefixSums.SumConcat | RootInteractive/InteractiveDrawing/bokeh/HistoNdProfile.ts:103-105 | The entries of two runs of bins add up. |
| PrefixSums.RunningTotalsMonotone | RootInteractive/InteractiveDrawing/bokeh/HistoNdProfile.ts:104-107 | Running totals of non-negative counts lie between the starting value and the starting value plus the sum, in non-decreasing order. |
| Statistics.WeightedMeanAlongAxis | RootInteractive/InteractiveDrawing/bokeh/HistoNdProfile.ts:109-113 | The loop and the division give the count-weighted mean of the slice's centres. |
| Statistics.VarianceAlongAxis | RootInteractive/InteractiveDrawing/bokeh/HistoNdProfile.ts:114-118 | The loop and the division give the population variance of the centres around that mean. |
| Statistics.WeightedSumBounds | RootInteractive/InteractiveDrawing/bokeh/HistoNdProfile.ts:110-112 | With non-negative counts and centres in `[lo, hi]`, the weighted sum lies in `[lo * entries, hi * entries]`. |
| Statistics.MeanBounds | RootInteractive/InteractiveDrawing/bokeh/HistoNdProfile.ts:109-113 | Centres in `[lo, hi]` and positive entries give a mean in `[lo, hi]`. |
| Statistics.MeanWithinCenters | RootInteractive/InteractiveDrawing/bokeh/HistoNdProfile.ts:109-113 | The mean lies between the smallest and the largest centre of the slice. |
| Statistics.SquaredDeviationNonNegative | RootInteractive/InteractiveDrawing/bokeh/HistoNdProfile.ts:115-117 | With non-negative counts the accumulated squared deviation is never negative. |
| Statistics.VarianceNonNegative | RootInteractive/InteractiveDrawing/bokeh/HistoNdProfile.ts:114-119 | The variance is never negative, so the square root of line 119 is defined. |
| Quantiles.FirstAbove | RootInteractive/InteractiveDrawing/bokeh/HistoNdProfile.ts:131-133 | The first step at or after the cursor whose running total exceeds the target. If there is none, every later total is at most the target. |
| Quantiles.LeadingNegatives | RootInteractive/InteractiveDrawing/bokeh/HistoNdProfile.ts:127-130 | The first fraction that is not negative, with every fraction before it negative. |
| Quantiles.SkipNegatives | RootInteractive/InteractiveDrawing/bokeh/HistoNdProfile.ts:127-130 | One NaN per leading negative fraction; the cursor stops at the first non-negative one. |
| Quantiles.QuantilesInStep | RootInteractive/InteractiveDrawing/bokeh/HistoNdProfile.ts:133-137 | The inner loop pushes exactly what the walk specification prescribes at step `j`. It stops at a quantile whose target the step's total does not exceed, and keeps the division defined. |
| Quantiles.PadMissing | RootInteractive/InteractiveDrawing/bokeh/HistoNdProfile.ts:140-143 | One NaN for every quantile that the walk did not reach. |
| Quantiles.QuantileWalk | RootInteractive/InteractiveDrawing/bokeh/HistoNdProfile.ts:124-143 | The three loops push `QuantileValues`: NaN for the leading negative fractions, then the cursor walk, then NaN for the rest. |
| Quantiles.FirstAboveSkip | RootInteractive/InteractiveDrawing/bokeh/HistoNdProfile.ts:131-138 | Steps already passed over cannot hold the next target: searching from the cursor finds the same step as searching from 0. |
| Quantiles.TargetsSorted | RootInteractive/InteractiveDrawing/bokeh/HistoNdProfile.ts:133 | Sorted fractions times non-negative entries give sorted targets. |
| Quantiles.WalkFromSorted | RootInteractive/InteractiveDrawing/bokeh/HistoNdProfile.ts:131-143 | For sorted targets, the cursor walk places each target in the first step whose total exceeds it. |
| Quantiles.SortedQuantiles | RootInteractive/InteractiveDrawing/bokeh/HistoNdProfile.ts:124-143 | For sorted fractions, quantile `k` equals `QuantileAt(q[k])`, the fraction placed on its own. |
| Quantiles.QuantileAt | RootInteractive/InteractiveDrawing/bokeh/HistoNdProfile.ts:133-135 | A quantile is a number exactly when its step exists. |
| Quantiles.QuantileDefined | RootInteractive/InteractiveDrawing/bokeh/HistoNdProfile.ts:131-143 | On a cumulative histogram that ends at `entries > 0`, the quantile of `q` is defined exactly when `0 <= q < 1`. |
| Quantiles.QuantileBracket | RootInteractive/InteractiveDrawing/bokeh/HistoNdProfile.ts:133-134 | The quantile's step brackets its target: `low <= q * entries < high`. |
| Quantiles.InterpWithin | RootInteractive/InteractiveDrawing/bokeh/HistoNdProfile.ts:134-135 | With `low <= target < high`, the interpolated value lies between the step's edges, strictly below the right edge when the step has width. |
| Quantiles.QuantileWithinEdges | RootInteractive/InteractiveDrawing/bokeh/HistoNdProfile.ts:133-135 | A defined quantile lies inside the edges of its own step. |
| RangeIntegral.CdfAtKnot | RootInteractive/InteractiveDrawing/bokeh/HistoNdProfile.ts:163-169 | At a whole index `k`, the interpolated CDF is the running total before step `k`. |
| RangeIntegral.CdfOnStep | RootInteractive/InteractiveDrawing/bokeh/HistoNdProfile.ts:163-169 | Inside step `k` the CDF is the straight line from the total before `k` to the total at `k`. |
| RangeIntegral.CdfInStep | RootInteractive/InteractiveDrawing/bokeh/HistoNdProfile.ts:163-169 | Inside step `k` the CDF lies between those two totals. |
| RangeIntegral.CdfBounds | RootInteractive/InteractiveDrawing/bokeh/HistoNdProfile.ts:160-172 | With non-negative counts, `0 <= val_left <= entries`. |
| RangeIntegral.CdfMonotone | RootInteractive/InteractiveDrawing/bokeh/HistoNdProfile.ts:160-183 | With non-negative counts the interpolated CDF never decreases. |
| RangeIntegral.IndexMonotone | RootInteractive/InteractiveDrawing/bokeh/HistoNdProfile.ts:154-160 | With `low < high`, a larger coordinate maps to a larger step index. |
| RangeIntegral.BoxSumBounds | RootInteractive/InteractiveDrawing/bokeh/HistoNdProfile.ts:158-187 | An ordered box sums to between 0 and `entries`, and its normed value lies between 0 and 1 when `entries > 0`. |
| RangeIntegral.FullRangeSum | RootInteractive/InteractiveDrawing/bokeh/HistoNdProfile.ts:154-184 | The box from `edges_left[0]` to `edges_right[last]` sums to all the entries. |
| RangeIntegral.BoxSumMonotone | RootInteractive/InteractiveDrawing/bokeh/HistoNdProfile.ts:173-184 | Moving the upper end of a box up never lowers its sum. |
| RangeIntegral.RangeSums | RootInteractive/InteractiveDrawing/bokeh/HistoNdProfile.ts:158-187 | The box loop pushes `BoxSum` and `Normed` for every box in order. |
| Profile.RowAt | RootInteractive/InteractiveDrawing/bokeh/HistoNdProfile.ts:94-187 | With data, a row fills every quantile and sum column. Without data, it is the NaN/false row that fills none. |
| Profile.ProfileRow | RootInteractive/InteractiveDrawing/bokeh/HistoNdProfile.ts:94-187 | One pass of the `z` loop body produces `RowAt` for that transverse bin. |
| Profile.ColumnRows | RootInteractive/InteractiveDrawing/bokeh/HistoNdProfile.ts:86-188 | Every row of a `z` loop is full when data is present, and the null row when it is not. |
| Profile.AllRows | RootInteractive/InteractiveDrawing/bokeh/HistoNdProfile.ts:85-189 | The same for every row of the whole traversal. |
| Profile.TableOf | RootInteractive/InteractiveDrawing/bokeh/HistoNdProfile.ts:50-189 | The table has one quantile column per fraction and two sum columns per box. |
| Profile.EmitAllConcat | RootInteractive/InteractiveDrawing/bokeh/HistoNdProfile.ts:85-189 | Appending two runs of rows is appending the first and then the second. |
| Profile.ReduceColumn | RootInteractive/InteractiveDrawing/bokeh/HistoNdProfile.ts:86-188 | The `z` loop appends the rows of one `x` in order. |
| Profile.Reduce | RootInteractive/InteractiveDrawing/bokeh/HistoNdProfile.ts:85-189 | The nested loops build exactly `TableOf`: one row per `(x, z)` in loop order. |
| Profile.HistoNdProfile.constructor | RootInteractive/InteractiveDrawing/bokeh/HistoNdProfile.ts:21-41 | Construction stores the properties and runs `update()` once on empty `data`. |
| Profile.HistoNdProfile.Update | RootInteractive/InteractiveDrawing/bokeh/HistoNdProfile.ts:49-204 | `data` becomes the old `data` with the columns of the table, computed with both strides equal to the profile axis's stride, published into it. |
| Profile.HistoNdProfile.PublishTable | RootInteractive/InteractiveDrawing/bokeh/HistoNdProfile.ts:191-201 | The assignments of lines 191-201 in order. |
| Profile.WithQuantilesAt | RootInteractive/InteractiveDrawing/bokeh/HistoNdProfile.ts:195-197 | After `k` iterations exactly `quantile_0` to `quantile_{k-1}` are written; every other key is unchanged. |
| Profile.WithSumsAt | RootInteractive/InteractiveDrawing/bokeh/HistoNdProfile.ts:198-201 | After `i` iterations exactly `sum_j` and `sum_normed_j` for `j < i` are written; every other key is unchanged. |
| Profile.PublishedColumns | RootInteractive/InteractiveDrawing/bokeh/HistoNdProfile.ts:191-201 | After publishing, every published name holds its column of the table, and every other key of `data` keeps its old value. |
| Profile.PublishIdempotent | RootInteractive/InteractiveDrawing/bokeh/HistoNdProfile.ts:191-201 | Publishing the same table twice equals publishing it once. |
| Profile.TableShape | RootInteractive/InteractiveDrawing/bokeh/HistoNdProfile.ts:50-148 | `mean`, `std`, `entries` and `isOK` hold one value per row. |
| Profile.TableAligned | RootInteractive/InteractiveDrawing/bokeh/HistoNdProfile.ts:85-187 | With data present, every quantile and sum column also holds one value per row. |
| Profile.NullTable | RootInteractive/InteractiveDrawing/bokeh/HistoNdProfile.ts:94-99 | Without data every row is NaN and not OK, and every quantile and sum column stays empty. |
| Profile.RowCount | RootInteractive/InteractiveDrawing/bokeh/HistoNdProfile.ts:85-86 | The traversal produces `strideLow` times (the number of `strideHigh` blocks) rows. |
| Profile.LayoutReadable | RootInteractive/InteractiveDrawing/bokeh/HistoNdProfile.ts:85-105 | If the strides divide each other and the flat length, every read of the traversal is inside the arrays. |
| Profile.HistogramReadable | RootInteractive/InteractiveDrawing/bokeh/HistoNdProfile.ts:76-105 | If the flat length is a whole number of profile-axis strides, every read of `update()` as written is inside the arrays. |
| Profile.AsWrittenRowCount | RootInteractive/InteractiveDrawing/bokeh/HistoNdProfile.ts:76-86 | With both strides equal, the table has one row per flat bin. |
| Profile.AsWrittenRow | RootInteractive/InteractiveDrawing/bokeh/HistoNdProfile.ts:76-118 | With both strides equal, a row's `entries` is its bin's count. When that count is positive, its mean is the bin's centre and its variance is 0. |
| Profile.RowStatistics | RootInteractive/InteractiveDrawing/bokeh/HistoNdProfile.ts:108-152 | With non-negative counts: `entries >= 0`; `isOK` holds exactly when `entries > 0`; the mean then lies between the smallest and largest centre and the variance is non-negative; otherwise the mean, the variance and every quantile are NaN. |
| Profile.RowQuantiles | RootInteractive/InteractiveDrawing/bokeh/HistoNdProfile.ts:124-143 | For sorted fractions and `entries > 0`, quantile `k` is a number exactly when `0 <= quantiles[k] < 1`. |
| Profile.RowSums | RootInteractive/InteractiveDrawing/bokeh/HistoNdProfile.ts:153-187 | With non-negative counts and edges of positive span, each ordered box sums to within `[0, entries]`, its normed value to within `[0, 1]`, and the whole-axis box to `entries`. |
| Examples.ExampleCumulative | RootInteractive/InteractiveDrawing/bokeh/HistoNdProfile.ts:101-107 | Counts 1, 3, 1 give the cumulative histogram `[1, 4, 5]` and 5 entries. |
| Examples.ExampleQuantiles | RootInteractive/InteractiveDrawing/bokeh/HistoNdProfile.ts:124-143 | For fractions -1, 0.5 and 1 the quantiles are NaN, 1.5 and NaN. |
| Examples.ExampleRangeSum | RootInteractive/InteractiveDrawing/bokeh/HistoNdProfile.ts:153-187 | The range `[0, 2]` holds 4 entries, 0.8 of the total. |

## Left out

- Statistics.VarianceAlongAxis: the `std` column holds the variance. The square root of line 119 is not taken, because the model has no real square root; `VarianceNonNegative` shows that the root is defined.
- Profile.HistoNdProfile.Update: the pass-through columns of lines 67-74 and 87-93 are not modelled. They go into `new_data`, which is never published, so `this.data` does not depend on them.
- Profile.HistoNdProfile.Update: `this.change.emit()` (line 203) and the signal wiring of `connect_signals` (lines 43-47) are Bokeh plumbing and are not modelled. `connect_signals` names an `update_data` method that the class does not define.
- Profile.HistoNdProfile.Update: it requires every read to be inside the arrays (`Readable`). A JavaScript read past the end yields `undefined` and then NaN; that path is not modelled. `Profile.HistogramReadable` shows which histograms meet the requirement.
- Profile.Histogram: the `HistoNdCDS` accessors `get_stride`, `get_array` and `get_column`, and `source.length` and `source.dim`, are inputs. `HistoNdCDS` is not part of this model.
- Profile.Histogram: null edge arrays are not modelled. Reading `edges_left[0]` from null throws in the source.
- RangeIntegral.BoxSum: when the edges span no width, the source divides by zero and gets an infinite or NaN scale. The model gives `None` for the whole sum. Some of those IEEE results would be finite, and the model does not follow them.
- RangeIntegral.Normed: `integral / 0` is NaN or an infinity in the source. The model gives `None` in both cases.
- RangeIntegral.Cdf: `index | 0` truncates to a 32-bit integer. The model uses the floor, which agrees for `1 <= index < cumulative.length` when that length is below 2^31.
- IEEE-754 double rounding is not modelled. Arithmetic is exact over `real`. NaN or infinite inputs (counts, centres, edges, fractions, range bounds) are not represented.
- RangeIntegral.Box: an element of `sum_range` is modelled as a pair of numbers. Elements with fewer or more than two numbers are not modelled.
- The Bokeh property definitions (lines 27-35) and the TypeScript module declarations are not modelled.
