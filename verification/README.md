# pyhipp core, modelled in Dafny

This project models the computational core of pyhipp, a Python toolkit for statistics on
astrophysical simulation data. Each part is a Dafny module in its own file:

- `wrappers.dfy` (`Wrappers`): `Option`, `Result` and the error kinds that stand for the
  exceptions Python raises.
- `samples.dfy` (`Samples`): the numpy primitives the core relies on. These are sums,
  weighted sums, normalisation, the cumulative sum, mean and population variance, sorting,
  `np.interp` and numpy's default ("linear") `np.quantile`. Square roots stay symbolic: a
  standard deviation is `Root(variance)`.
- `reduction.dfy` (`Reduction`): the reduction operators of `pyhipp.stats.reduction`. These
  are `Count`, `Sum`, `Mean`, `StdDev`, `Quantile`, `Median` and `Errorbar`, each with optional
  weights, plus the `_Predefined` alias registry. The registry is a closed datatype.
- `box.dfy` (`CubicBox`): `ishift_in`, `ishift_to` and `shift_to` of the periodic boxes
  `_PeriodicBox` and `PeriodicBox`. They appear both as pure functions and as in-place array
  methods with loop invariants.
- `abc.dfy` (`Abc`): the mix-ins of `pyhipp.core.abc`:
  - the memoising caches `HasCache` and `HasMultiCache`;
  - the `HasName` default;
  - `HasLog.log_for` / `log` / `for_obj`;
  - the line-wrapping `_ChainLogger`;
  - `HasDictRepr` / `HasListRepr.to_simple_repr`;
  - `HasValue.set_value`.
- `binning.dfy` (`Binning`): the accumulator `_BinnedData`. It has `n_bins()`,
  `cnt_n_chked` and `add_n_chked` over a fixed array of bins. Indices outside
  `[0, n_bins)` are dropped, and repeated indices all accumulate.
- `summary.dfy` (`Summary`): `Summary.on` and `Summary.FullResult`. For each trailing slot
  of a sample array of shape (n,) + S, it computes the mean, the population sd, the median,
  min and max, and three quantile bands. It also has `as_dict` / `from_dict`.
- `dataproc.dfy` (`DataProc`): `dp.Num.bound`, which clamps a scalar or an array. It covers
  the scalar identity rule and the `copy=False` in-place rule.
- `containers.dfy` (`Containers`): `DataDict` lookup with flat keys and with 'a/b' paths
  through nested dicts.

All arithmetic is exact over `real`. Python objects become immutable values, and each
method returns its new state. Exceptions become `Failure` values. Printed text is returned
as a string.

`binning.py`, `summary.py`, `dataproc.py` and `containers.py` are not part of this model. The
accumulator, the summary, `Num.bound` and `DataDict` are modelled from the behaviour their
tests pin down: `tests/pyhipp/stats/test_binning.py`, `tests/pyhipp/stats/test_summary.py`,
`tests/pyhipp/core/test_dataproc.py` and `tests/pyhipp/core/test_containers.py`. Where a test
leaves something open, the model makes a choice, listed under "Left out".

## Model

| member | source | states |
|---|---|---|
| `Samples.Normalize` | src/pyhipp/stats/reduction.py:19-20 | `weight / weight.sum()` sums to one, and each normalised weight times the old total gives back the old weight |
| `Samples.NormalizeScaleInvariant` | src/pyhipp/stats/reduction.py:19-20 | rescaling the weights by any non-zero factor leaves the normalised weights unchanged |
| `Samples.NormalizeIdempotent` | src/pyhipp/stats/reduction.py:19-20 | normalising weights that are already normalised changes nothing |
| `Samples.CumSum` | src/pyhipp/stats/reduction.py:117 | `np.cumsum` has one entry per weight; its values are stated by `CumSumRecurrence` and `CumSumLast` |
| `Samples.CumSumRecurrence` | src/pyhipp/stats/reduction.py:117 | `np.cumsum`: the first entry is the first weight, and each later entry is the previous one plus its own weight |
| `Samples.CumSumNonDecreasing` | src/pyhipp/stats/reduction.py:117 | the cumulative sum of non-negative weights never decreases |
| `Samples.CumSumLast` | src/pyhipp/stats/reduction.py:117 | the last cumulative weight is the total weight |
| `Samples.StdDev` | src/pyhipp/stats/reduction.py:79-80 | `x.std()`: every real it denotes is non-negative and squares to the population variance |
| `Samples.PopVariance` | src/pyhipp/stats/reduction.py:79-80 | the population variance (divide by N) is non-negative |
| `Samples.Min` | tests/pyhipp/stats/test_summary.py:20 | the minimum is an element of the sample and no element is smaller |
| `Samples.Max` | tests/pyhipp/stats/test_summary.py:21 | the maximum is an element of the sample and no element is larger |
| `Samples.SortBy` | src/pyhipp/stats/reduction.py:114-116 | `np.argsort` then indexing: the result is a permutation of the input, sorted by the key |
| `Samples.Sort` | src/pyhipp/stats/reduction.py:111 | sorting a sample gives a non-decreasing permutation of it |
| `Samples.PermutationWithin` | src/pyhipp/stats/reduction.py:114-116 | every element of a permutation lies between the original's minimum and maximum |
| `Samples.Interp` | src/pyhipp/stats/reduction.py:118 | with the ends of xp in increasing order, `np.interp` gives the first value left of xp and the last value at and right of its end; `InterpWithin` and `InterpMonotone` state the values in between |
| `Samples.InterpWithin` | src/pyhipp/stats/reduction.py:118 | `np.interp` never leaves the range of the values it interpolates |
| `Samples.InterpMonotone` | src/pyhipp/stats/reduction.py:118 | with non-decreasing values, `np.interp` is non-decreasing in its argument |
| `Samples.OrderStatisticIsInterp` | src/pyhipp/stats/reduction.py:111 | numpy's linear quantile of a sorted sample is `np.interp` over the positions 0 .. n-1 |
| `Samples.LinearQuantile` | src/pyhipp/stats/reduction.py:111 | every quantile of a single sample is that sample; `LinearQuantileWithin`, `LinearQuantileMonotone` and `OrderStatisticIsInterp` state the value for larger samples |
| `Samples.LinearQuantileWithin` | src/pyhipp/stats/reduction.py:111 | `np.quantile(x, p)` lies between min x and max x |
| `Samples.LinearQuantileMonotone` | src/pyhipp/stats/reduction.py:111 | `np.quantile(x, p)` is non-decreasing in p |
| `Samples.SumConcat` | src/pyhipp/stats/reduction.py:59 | the sum of a concatenation is the sum of the sums |
| `Samples.SumConst` | src/pyhipp/stats/reduction.py:46 | n equal weights c sum to n·c |
| `Samples.DotConst` | src/pyhipp/stats/reduction.py:65 | Σ x·c = c·Σ x |
| `Samples.DotScale` | src/pyhipp/stats/reduction.py:62-65 | dividing every weight by c divides Σ x·w by c |
| `Samples.SumScale` | src/pyhipp/stats/reduction.py:20 | dividing every weight by c divides their sum by c |
| `Reduction.Predefined` | src/pyhipp/stats/reduction.py:168-188 | `predefined[key]` succeeds exactly for the eleven registered aliases and otherwise raises a KeyError naming the key |
| `Reduction.RegistryAliases` | src/pyhipp/stats/reduction.py:174-186 | every class is registered under its own `key`; 'cnt' is Count, 'std' and 'sd' are StdDev, 'qs' is Quantile; 'mean+sd' is not registered |
| `Reduction.NewQuantile` | src/pyhipp/stats/reduction.py:102-108 | a string `ps` is replaced by its `ps_map` levels or raises a KeyError; explicit levels are kept as given |
| `Reduction.DefaultConstructionFails` | src/pyhipp/stats/reduction.py:102-106 | with all defaults every registered class constructs except Quantile, whose default key 'median+1siamg' is not in `ps_map` |
| `Reduction.NewErrorbar` | src/pyhipp/stats/reduction.py:128-138 | 'mean+sd' raises at construction (missing arguments); any other key must be in `ps_map`, or the assert fails |
| `Reduction.PrepareWeights` | src/pyhipp/stats/reduction.py:14-22 | no weights pass through as None; otherwise the weights are divided by their sum, which makes them sum to one; a length mismatch or a zero total is an error |
| `Reduction.PrepareNormalized` | src/pyhipp/stats/reduction.py:19-20 | normalising already-normalised weights again changes nothing, which is what the nested `Mean()` calls of StdDev rely on |
| `Reduction.Construct` | src/pyhipp/stats/reduction.py:30-166 | every operator class built with its defaults can be called, and the only one that cannot be built is Quantile, whose misspelt default key raises KeyError (`DefaultConstructionFails` states that it does fail) |
| `Reduction.Call` | src/pyhipp/stats/reduction.py:14-22 | Count always gives a number, Sum a number when it succeeds, Errorbar a bar, and Mean, StdDev, Quantile and Median go through the inherited `Reduce.__call__`; the values are stated by `CountIsSampleSize`, `WeightedSum`, `ErrorbarOffsets` and the `ReduceCall` lemmas |
| `Reduction.ReduceCall` | src/pyhipp/stats/reduction.py:14-22 | without weights the unweighted implementation runs; every operator returns the kind of result it promises (a scalar for Mean, Median and StdDev, one entry per level for Quantile) |
| `Reduction.ImplWithoutWeight` | src/pyhipp/stats/reduction.py:67-166 | the unweighted implementations return a scalar for mean, std and median and one value per level for quantiles |
| `Reduction.ImplWithWeight` | src/pyhipp/stats/reduction.py:67-166 | the weighted implementations return the same result kinds as the unweighted ones |
| `Reduction.CountCall` | src/pyhipp/stats/reduction.py:38-46 | unit weights count the sample size, normalized or not; `CountIsSampleSize` states the other cases |
| `Reduction.CountIsSampleSize` | src/pyhipp/stats/reduction.py:38-46 | Count is the sample size without weights or under `normalize`, the weight sum otherwise; unit weights give the sample size either way |
| `Reduction.SumCall` | src/pyhipp/stats/reduction.py:56-65 | without weights Sum is Σ x; weights of another length are an error |
| `Reduction.WeightedSum` | src/pyhipp/stats/reduction.py:61-65 | weighted Sum is Σ x·w, divided by Σ w only when `normalize` is set |
| `Reduction.UnitWeightsSum` | src/pyhipp/stats/reduction.py:56-65 | Sum with unit weights equals Sum without weights |
| `Reduction.WeightedMean` | src/pyhipp/stats/reduction.py:72-73 | after `__call__`'s normalisation, the weighted mean is Σ x·w / Σ w |
| `Reduction.UniformWeightsMean` | src/pyhipp/stats/reduction.py:67-73 | equal non-zero weights give the unweighted mean |
| `Reduction.NormalizeConst` | src/pyhipp/stats/reduction.py:20 | n equal weights normalise to 1/n each |
| `Reduction.WeightedStdDevIsVariance` | src/pyhipp/stats/reduction.py:75-87 | unweighted StdDev is the root of the population variance; with equal weights the weighted path returns the variance itself, with no root taken |
| `Reduction.WeightedStdDevGeneral` | src/pyhipp/stats/reduction.py:82-87 | for any weights with a non-zero total, the weighted StdDev is Σ w·(x − m)² / Σ w around the weighted mean m = Σ w·x / Σ w, with no root taken |
| `Reduction.WeightedStdDevExample` | src/pyhipp/stats/reduction.py:82-87 | for [0, 4] with unit weights, StdDev is √4 unweighted but 4 weighted |
| `Reduction.StdDevIntended` | src/pyhipp/stats/reduction.py:79-87 | the corrected StdDev agrees with the source on the unweighted path |
| `Reduction.IntendedStdDevUniformWeights` | src/pyhipp/stats/reduction.py:75-87 | with the root taken on the weighted path too, equal weights give exactly the unweighted StdDev |
| `Reduction.ConstructIntended` | src/pyhipp/stats/reduction.py:102 | with the default key spelled 'median+1sigma', every registered class constructs with its defaults |
| `Reduction.IntendedDefaultQuantile` | src/pyhipp/stats/reduction.py:97-102 | the intended default Quantile asks for the levels 0.16, 0.5 and 0.84, sorted |
| `Reduction.CallScaleInvariant` | src/pyhipp/stats/reduction.py:19-21 | rescaling all weights by a non-zero factor leaves Mean, StdDev, Quantile and Median unchanged |
| `Reduction.SortJointly` | src/pyhipp/stats/reduction.py:114-116 | x and the weights are permuted together (the pairs are a permutation of the original pairs), and x comes out sorted |
| `Reduction.SortJointlyFromSample` | src/pyhipp/stats/reduction.py:114-116 | each jointly sorted value is one of the original sample values |
| `Reduction.WeightedQuantiles` | src/pyhipp/stats/reduction.py:113-119 | the weighted quantiles give one value per level, and an empty sample is refused |
| `Reduction.UnweightedQuantiles` | src/pyhipp/stats/reduction.py:110-111 | `np.quantile` succeeds exactly for a non-empty sample with every level in [0, 1], with one linear quantile per level |
| `Reduction.QuantilesWithin` | src/pyhipp/stats/reduction.py:110-119 | every quantile, weighted or not, lies within [min x, max x] |
| `Reduction.QuantilesMonotone` | src/pyhipp/stats/reduction.py:113-119 | with sorting and non-negative weights, quantiles are non-decreasing in the level |
| `Reduction.MedianIsHalfQuantile` | src/pyhipp/stats/reduction.py:151-166 | `Median` is the quantile at level 0.5: `np.median` unweighted, and `Quantile(ps=0.5)` with the same sort flag when weighted |
| `Reduction.MedianWithin` | src/pyhipp/stats/reduction.py:151-166 | a successful median, weighted or not, is an exact value between min x and max x |
| `Reduction.ErrorbarCall` | src/pyhipp/stats/reduction.py:140-149 | a successful error bar is a (centre, below, above) triple |
| `Reduction.ErrorbarOffsets` | src/pyhipp/stats/reduction.py:147-149 | for a 'median+Nsigma' key with non-negative weights, the triple is (q1, q1 − q0, q2 − q1) for the three quantiles at the key's levels, the quantiles are ordered so both offsets are non-negative, and unweighted the centre is the sample median |
| `Reduction.ErrorbarFromQuantiles` | src/pyhipp/stats/reduction.py:147-149 | for any key of `ps_map` and any weights, the error bar is the middle quantile followed by its distances to the lower and the upper quantile |
| `Reduction.ErrorbarCentreIsMedian` | src/pyhipp/stats/reduction.py:147-149 | for a 'median+Nsigma' key, weighted or not, the centre is what `Median()` returns for the same sample and weights |
| `Reduction.ErrorbarTwoLevelKey` | src/pyhipp/stats/reduction.py:134-148 | a two-level key such as '1sigma' passes the constructor's assert but cannot be unpacked into three values when called |
| `Reduction.ErrorbarMeanSd` | src/pyhipp/stats/reduction.py:131-145 | as written, 'mean+sd' fails at construction; as intended, it yields (mean, sd, sd) |
| `Reduction.ErrorbarIntended` | src/pyhipp/stats/reduction.py:140-145 | the corrected error bar always yields a (centre, below, above) triple |
| `CubicBox.WrapIn` | src/pyhipp/field/cubic_box/box.py:49-54 | one coordinate moves by 0 or ±l_box, lands in [0, l_box) iff it started in [−l_box, 2·l_box), and stays put if already inside |
| `CubicBox.ShiftIn` | src/pyhipp/field/cubic_box/box.py:49-54 | `ishift_in` succeeds iff every coordinate is in [−l_box, 2·l_box); it then leaves all of them in [0, l_box), each moved by at most one box length, and the inside ones unchanged |
| `CubicBox.IShiftIn` | src/pyhipp/field/cubic_box/box.py:49-54 | the in-place array method leaves exactly the wrapped coordinates behind, and its asserts pass exactly when the pure model succeeds |
| `CubicBox.ShiftInIdempotent` | src/pyhipp/field/cubic_box/box.py:51-52 | wrapping twice is wrapping once |
| `CubicBox.ShiftInCanonical` | src/pyhipp/field/cubic_box/box.py:49-54 | the result is the only point of [0, l_box) within one box length of each input: `ishift_in` picks the canonical image |
| `CubicBox.WrapTo` | src/pyhipp/field/cubic_box/box.py:56-61 | both masks test the original offset, so a coordinate moves at most once; the new offset is in [−l/2, l/2) iff the old one was in [−1.5·l, 1.5·l); a coordinate already near the reference is unchanged |
| `CubicBox.ShiftToRef` | src/pyhipp/field/cubic_box/box.py:56-65 | with the positions given as row-major data whose last axis has length k, `ishift_to` refuses with a shape error every reference that numpy would not broadcast: it accepts one of the positions' own length, a single value, or one row of k coordinates, and nothing else; otherwise it succeeds iff every original offset is in [−1.5·l, 1.5·l), then leaves every coordinate within half a box of its reference, moved at most once, and the near ones unchanged |
| `CubicBox.RowBroadcast` | src/pyhipp/field/cubic_box/box.py:56-65 | a reference of k coordinates broadcasts over (N, k) positions whose last axis has length k, and coordinate d of row n is compared with coordinate d of the reference |
| `CubicBox.ShiftRowsTowardsPoint` | src/pyhipp/field/cubic_box/box.py:56-65 | shifting (N, k) positions towards one point of k coordinates wraps coordinate d of every row towards coordinate d of the point and leaves it within half a box of it |
| `CubicBox.IShiftTo` | src/pyhipp/field/cubic_box/box.py:56-65 | the in-place array method leaves exactly the shifted coordinates behind, and its asserts pass exactly when the pure model succeeds |
| `CubicBox.AllNear` | src/pyhipp/field/cubic_box/box.py:63-65 | the closing asserts pass exactly when every offset from the reference lies in [−l/2, l/2) |
| `CubicBox.OneDimensionalBroadcast` | src/pyhipp/field/cubic_box/box.py:56-65 | for 1-D positions only a single value or a reference of the same length broadcasts; any other length is a shape error |
| `CubicBox.ShapeDecidesBroadcast` | src/pyhipp/field/cubic_box/box.py:59 | the same six coordinates against a point of three are accepted as shape (2, 3) and refused as shape (6,), and a point of two is refused against shape (2, 3) |
| `CubicBox.ShiftTo` | src/pyhipp/field/cubic_box/box.py:35-38 | `shift_to` exists only on the jitted box, where it is `ishift_to` on a copy |
| `CubicBox.ShiftToCopy` | src/pyhipp/field/cubic_box/box.py:35-38 | `shift_to` returns a newly allocated shifted copy and leaves the caller's array as it was |
| `CubicBox.ShiftToRefIdempotent` | src/pyhipp/field/cubic_box/box.py:56-65 | shifting towards the same reference twice is shifting once |
| `CubicBox.ShiftToCentreIsShiftIn` | src/pyhipp/field/cubic_box/box.py:49-65 | shifting towards the box centre accepts and produces exactly what wrapping into the box does |
| `CubicBox.BoxesAgree` | src/pyhipp/field/cubic_box/box.py:17-33 | `_PeriodicBox` and `PeriodicBox` apply identical rules; only `shift_to` tells them apart |
| `Abc.GetCacheOr` | src/pyhipp/core/abc.py:206-214 | a hit returns the stored value without calling the fallback; a miss calls it and stores its result; a fallback that raises propagates its error and stores nothing; other entries are untouched |
| `Abc.FailedFallbackForgotten` | src/pyhipp/core/abc.py:206-214 | after a fallback raised, the cache behaves as if the lookup had never happened: the next lookup calls its own fallback again |
| `Abc.PutCache` | src/pyhipp/core/abc.py:216-217 | `put_cache` overwrites one key and leaves all other entries unchanged |
| `Abc.GetCacheOrIdempotent` | src/pyhipp/core/abc.py:206-214 | after a successful lookup, a second lookup of the key returns the first one's value, calls no fallback and leaves the cache as it was |
| `Abc.PutThenGet` | src/pyhipp/core/abc.py:206-217 | a value just put is what the next lookup returns, whatever the fallback |
| `Abc.MultiGetCacheOr` | src/pyhipp/core/abc.py:224-235 | the sub-map for a key is created on first use, and stays even when the fallback raises; a stored (key, subkey) value is returned without calling the fallback; a raising fallback stores no value |
| `Abc.MultiCacheIndependent` | src/pyhipp/core/abc.py:224-235 | a lookup never changes the entry of any other (key, subkey) pair, and no key disappears |
| `Abc.MultiGetCacheOrIdempotent` | src/pyhipp/core/abc.py:224-235 | after a successful lookup, a second lookup of the same pair returns the first value with no fallback call |
| `Abc.Name` | src/pyhipp/core/abc.py:81-87 | the name is the given one, or the class name when none is given |
| `Abc.NewLogger` | src/pyhipp/core/abc.py:115-119 | a `HasLog` keeps its verbosity and takes its name by the `HasName` rule |
| `Abc.LogText` | src/pyhipp/core/abc.py:144-155 | a named log line starts with the bracketed type name, a timed one without a name with the bracketed time, a line with neither is the arguments printed with `sep`, and every line ends with `end` |
| `Abc.JoinEmptySep` | src/pyhipp/core/abc.py:127 | `print` with the default empty separator concatenates its arguments |
| `Abc.ObjName` | src/pyhipp/core/abc.py:133-139 | `__get_obj_name` as written returns None for every object |
| `Abc.ObjNameIntended` | src/pyhipp/core/abc.py:133-139 | the intended name is the string itself, the object's `name`, or its type name |
| `Abc.LogFor` | src/pyhipp/core/abc.py:141-156 | `log_for` returns self and prints only when verbose |
| `Abc.Log` | src/pyhipp/core/abc.py:127-131 | as written, `log` returns the logger itself and, when verbose, prints its text under the name None; a quiet logger prints nothing |
| `Abc.ForObj` | src/pyhipp/core/abc.py:158-159 | as written, `for_obj` makes a logger with the same verbosity named 'HasLog', whatever object it is given |
| `Abc.LogForIntended` | src/pyhipp/core/abc.py:141-156 | the corrected `log_for` also returns self and prints nothing unless verbose |
| `Abc.ForObjIntended` | src/pyhipp/core/abc.py:158-159 | the corrected `for_obj` keeps the verbosity |
| `Abc.NamedLogSaysNone` | src/pyhipp/core/abc.py:133-159 | as written, every named line starts '[None] ' whoever logs it, the object passed makes no difference, and `for_obj` loggers are all named 'HasLog' |
| `Abc.IntendedLogNamesObject` | src/pyhipp/core/abc.py:133-159 | as intended, a named line starts with '[' + the object's name + '] ', and `for_obj` names the new logger after the object |
| `Abc.QuietLogPrintsNothing` | src/pyhipp/core/abc.py:144-156 | a logger that is not verbose prints nothing |
| `Abc.PyMod` | src/pyhipp/core/abc.py:101-110 | Python's `%`: the remainder has the divisor's sign and is zero exactly when the divisor divides |
| `Abc.Chain` | src/pyhipp/core/abc.py:90-97 | a new chain logger has counted nothing and prints through its owner |
| `Abc.ChainCall` | src/pyhipp/core/abc.py:99-103 | each call counts one item; when verbose it prints the indent iff the new count mod wrap_on is 1, then the arguments, then ',\n' iff the count mod wrap_on is 0 and ', ' otherwise; wrap_on = 0 raises |
| `Abc.ChainExit` | src/pyhipp/core/abc.py:108-113 | on exit nothing is printed unless verbose, and wrap_on = 0 raises |
| `Abc.ChainAll` | src/pyhipp/core/abc.py:99-103 | logging n items advances the count by n; only wrap_on = 0 with some items fails |
| `Abc.ChainSession` | src/pyhipp/core/abc.py:105-113 | a `with` session fails exactly when wrap_on is 0 |
| `Abc.ItemAfterBreakIndented` | src/pyhipp/core/abc.py:101-102 | for wrap_on ≥ 2, the first item and every item after a line break, and only those, start with the indent |
| `Abc.ModSucc` | src/pyhipp/core/abc.py:101-102 | for wrap_on ≥ 2, count + 1 leaves remainder 1 exactly when count leaves none |
| `Abc.WrapOnOneNeverIndents` | src/pyhipp/core/abc.py:101-102 | as written, wrap_on = 1 ends every item with a line break but never indents one |
| `Abc.ItemStart` | src/pyhipp/core/abc.py:101 | an item starts with the indent or with nothing, and with nothing whenever wrap_on is below two |
| `Abc.ItemEnd` | src/pyhipp/core/abc.py:102 | an item ends with a line break exactly when the count is a multiple of wrap_on, and with `, ` otherwise |
| `Abc.ItemStartIntended` | src/pyhipp/core/abc.py:101 | the corrected start text is the indent or nothing |
| `Abc.IntendedStartAgrees` | src/pyhipp/core/abc.py:101-102 | for wrap_on of two or more the corrected test indents exactly the items the source indents, so the correction changes only wrap_on one |
| `Abc.IntendedItemAfterBreakIndented` | src/pyhipp/core/abc.py:101-102 | with the corrected test, for every non-zero wrap_on (one included), the first item and exactly the items after a line break start with the indent |
| `Abc.ChainExitText` | src/pyhipp/core/abc.py:108-113 | when verbose, exit prints '\n' iff the count mod wrap_on is not 0, then indent + '(count items done)' and a line break |
| `Abc.ChainSessionReportsCount` | src/pyhipp/core/abc.py:99-113 | a verbose session prints its items, a break unless the last item ended a line, then '    (n items done)' for its n items |
| `Abc.Keys` | src/pyhipp/core/abc.py:45-54 | the keys of the ordered dict, in insertion order |
| `Abc.Assign` | src/pyhipp/core/abc.py:53 | `out[k] = v`: an existing key keeps its place, a new key goes last, and the other keys keep their values |
| `Abc.AttrRepr` | src/pyhipp/core/abc.py:50-52 | `getattr` fails on a missing attribute with an error naming it, and a nested `to_simple_repr` that fails makes the lookup fail with its error; otherwise the value, or its nested representation, is returned |
| `Abc.DictEntries` | src/pyhipp/core/abc.py:45-54 | building the dict fails exactly when some listed attribute is missing or its nested representation fails |
| `Abc.ListItems` | src/pyhipp/core/abc.py:62-71 | building the list fails exactly when some listed attribute is missing or its nested representation fails, and otherwise holds one item per key plus the class name when enabled |
| `Abc.ToSimpleRepr` | src/pyhipp/core/abc.py:24-77 | the representation is a dict for `HasDictRepr` and a tuple for `HasListRepr`, failing exactly when a listed attribute is missing or its nested representation fails; the base class gives `<module.Class object at address>` |
| `Abc.DictLayout` | src/pyhipp/core/abc.py:45-54 | 'type' comes first iff enabled, then `repr_attr_keys` in declaration order, each mapped to its attribute (or that attribute's own simple representation) |
| `Abc.TupleLayout` | src/pyhipp/core/abc.py:62-77 | the tuple holds the class name first iff enabled, then the attributes in declaration order |
| `Abc.SetValue` | src/pyhipp/core/abc.py:198-199 | `value[...] = v` keeps the shape, broadcasts a single value, copies a same-length one and refuses any other length |
| `Abc.SetValueIdempotent` | src/pyhipp/core/abc.py:198-199 | setting a value twice is setting it once, and the old contents matter only through their length |
| `Abc.SetValueInPlace` | src/pyhipp/core/abc.py:198-199 | the in-place write leaves exactly the `SetValue` contents, and leaves the array untouched on failure |
| `Binning.Scatter` | tests/pyhipp/stats/test_binning.py:16-36 | each bin receives its old value plus the sum of the values whose index names it |
| `Binning.ScatterTotal` | tests/pyhipp/stats/test_binning.py:26-36 | scattering raises the total by exactly the sum of the values at valid indices |
| `Binning.SumBump` | tests/pyhipp/stats/test_binning.py:22 | raising one bin raises `data.sum()` by the same amount |
| `Binning.BinSumOnes` | tests/pyhipp/stats/test_binning.py:16-24 | with unit values, a bin's sum is the number of times its index occurs |
| `Binning.ValidSumOnes` | tests/pyhipp/stats/test_binning.py:17 | with unit values, the valid sum is the number of indices in [0, n_bins) |
| `Binning.NewBins` | tests/pyhipp/stats/test_binning.py:38-41 | `_BinnedData(n)` has n zeroed bins for every n ≥ 0, zero included; a negative count is refused |
| `Binning.CountChecked` | tests/pyhipp/stats/test_binning.py:16-24 | `cnt_n_chked` adds to each bin the number of times its index occurs |
| `Binning.AddChecked` | tests/pyhipp/stats/test_binning.py:26-36 | `add_n_chked` adds to each bin the sum of the values at its index; index and value arrays of different lengths are refused |
| `Binning.CountTotal` | tests/pyhipp/stats/test_binning.py:16-24 | one count raises the total by exactly the number of indices in [0, n_bins) |
| `Binning.AddTotal` | tests/pyhipp/stats/test_binning.py:26-36 | one add raises the total by exactly the sum of the values at indices in [0, n_bins) |
| `Binning.CountTimesTotal` | tests/pyhipp/stats/test_binning.py:18-24 | after k counting calls, the total has grown by k times the valid count |
| `Binning.AddTimesStep` | tests/pyhipp/stats/test_binning.py:30-36 | each further adding call raises the total by the valid sum |
| `Binning.AddTimesTotal` | tests/pyhipp/stats/test_binning.py:30-36 | after k adding calls, the total has grown by k times the valid sum |
| `Binning.RepeatedCount` | tests/pyhipp/stats/test_binning.py:38-42 | from fresh bins, k counting calls give a total of k × (number of valid indices) |
| `Binning.RepeatedAdd` | tests/pyhipp/stats/test_binning.py:44-49 | from fresh bins, k adding calls give a total of k × (sum of values at valid indices) |
| `Binning.NoBins` | tests/pyhipp/stats/test_binning.py:39-49 | with zero bins no index is valid, both operations accept anything, and the total stays empty |
| `Binning.DuplicatesAccumulate` | tests/pyhipp/stats/test_binning.py:38-42 | a repeated index counts every time it occurs, and the out-of-range indices n_bins and −1 are dropped |
| `Binning.BinnedData.CntNChked` | tests/pyhipp/stats/test_binning.py:16-24 | counting in place leaves exactly the bins `CountChecked` describes |
| `Binning.BinnedData.AddNChked` | tests/pyhipp/stats/test_binning.py:26-36 | adding in place leaves exactly the bins `AddChecked` describes, and leaves them untouched when the lengths differ |
| `Binning.NewBinnedData` | tests/pyhipp/stats/test_binning.py:7-8 | the object is created exactly for n ≥ 0, newly allocated with its own new array of n zeroed bins |
| `Binning.CountIntoNew` | tests/pyhipp/stats/test_binning.py:38-42 | a new accumulator counted into holds the fresh bins as `CountChecked` leaves them, while a second accumulator created alongside still holds zeroed bins |
| `Summary.Column` | tests/pyhipp/stats/test_summary.py:16 | `x[:, ind]` is a well-formed 1-D sample of the same length |
| `Summary.PerSlot` | tests/pyhipp/stats/test_summary.py:49-61 | a per-slot statistic has the trailing shape |
| `Summary.Band` | tests/pyhipp/stats/test_summary.py:59-61 | a quantile band has shape (2,) + trailing |
| `Summary.On` | tests/pyhipp/stats/test_summary.py:35-84 | `Summary.on` succeeds for every non-empty sample; its scalar fields have the trailing shape and its bands (2,) + trailing |
| `Summary.BandEntries` | tests/pyhipp/stats/test_summary.py:22-33 | entry j of a band is the lower quantile of column j, and entry size + j the upper |
| `Summary.ScalarsOfSlot` | tests/pyhipp/stats/test_summary.py:16-21 | at every slot, mean = Σ x / n, sd = the root of the population variance, median = the 0.5 quantile, and min and max are the column's |
| `Summary.BandsOfSlot` | tests/pyhipp/stats/test_summary.py:22-33 | at every slot, `sigma_k[0]` and `sigma_k[1]` are the linear quantiles at `p_sigma_k[0]` and `p_sigma_k[1]` |
| `Summary.OneDimensional` | tests/pyhipp/stats/test_summary.py:35-46 | a 1-D sample gives scalar mean, sd, median, min and max, and bands of shape (2,) |
| `Summary.Slot` | tests/pyhipp/stats/test_summary.py:16-33 | one slot read out of a summary has the shapes of a 1-D summary |
| `Summary.ScalarSlotsAgree` | tests/pyhipp/stats/test_summary.py:63-64 | the scalar entries at a slot equal those of the summary of that slot's column alone |
| `Summary.BandSlotAgrees` | tests/pyhipp/stats/test_summary.py:22-33 | slot j of a band, read as a pair, is that band for column j alone |
| `Summary.BandSlotsAgree` | tests/pyhipp/stats/test_summary.py:63-64 | the band entries at a slot equal those of the summary of that slot's column alone |
| `Summary.SlotIsColumnSummary` | tests/pyhipp/stats/test_summary.py:63-64 | every slot of a multi-dimensional summary is exactly the summary of that slot's column |
| `Summary.BandsNest` | tests/pyhipp/stats/test_summary.py:17-33 | within a slot, min ≤ sigma_3 lo ≤ sigma_2 lo ≤ sigma_1 lo ≤ median ≤ sigma_1 hi ≤ sigma_2 hi ≤ sigma_3 hi ≤ max |
| `Summary.SingleSample` | tests/pyhipp/stats/test_summary.py:17-33 | for a single sample, every quantile is that sample, min = max = it, and the variance under the sd is 0 |
| `Summary.AsDict` | tests/pyhipp/stats/test_summary.py:86-100 | `as_dict` has exactly the eight field names as keys |
| `Summary.AsDictFields` | tests/pyhipp/stats/test_summary.py:93-100 | `as_dict` exposes every field unchanged under its own name |
| `Summary.RealsAt` | tests/pyhipp/stats/test_summary.py:102-108 | reading an array field succeeds exactly when the name is present with an array of reals |
| `Summary.FromDict` | tests/pyhipp/stats/test_summary.py:102-108 | a successful `from_dict` found every field name, and its result's `as_dict` agrees with the input on each of them |
| `Summary.DictRoundTrip` | tests/pyhipp/stats/test_summary.py:102-116 | `FullResult.from_dict(s.as_dict())` reproduces every field exactly |
| `Summary.MissingFieldRefused` | tests/pyhipp/stats/test_summary.py:102-108 | a mapping without 'mean' is refused with a KeyError naming it |
| `DataProc.Clamp` | tests/pyhipp/core/test_dataproc.py:18-38 | the result never exceeds `hi`; it lies in [lo, hi] whenever lo ≤ hi; a value already inside is unchanged; otherwise the result is `lo` or `hi` |
| `DataProc.ClampIsNearest` | tests/pyhipp/core/test_dataproc.py:37-38 | for consistent bounds, the clamped value is the admissible value nearest to x |
| `DataProc.ClampIdempotent` | tests/pyhipp/core/test_dataproc.py:45-51 | clamping again with the same bounds changes nothing |
| `DataProc.ClampMonotone` | tests/pyhipp/core/test_dataproc.py:32-38 | clamping preserves order |
| `DataProc.BoundScalar` | tests/pyhipp/core/test_dataproc.py:18-29 | a scalar is clamped, and the same object comes back exactly when its value is unchanged |
| `DataProc.ScalarExample` | tests/pyhipp/core/test_dataproc.py:18-29 | 3 with lo=5 gives a new 5, with hi=1 a new 1, and with [1, 4] the argument itself |
| `DataProc.BoundAll` | tests/pyhipp/core/test_dataproc.py:32-38 | an array is clamped element by element, keeping its length |
| `DataProc.ArangeExample` | tests/pyhipp/core/test_dataproc.py:32-38 | 0..9 with lo=4 gives [4,4,4,4,4,5,6,7,8,9], and with [4, 7] gives [4,4,4,4,4,5,6,7,7,7] |
| `DataProc.BoundInSteps` | tests/pyhipp/core/test_dataproc.py:45-51 | applying `lo`, then `hi` in a second call, equals applying both at once |
| `DataProc.NoBoundsIdentity` | tests/pyhipp/core/test_dataproc.py:41-43 | without bounds nothing changes, and a scalar comes back as itself |
| `DataProc.BoundArray` | tests/pyhipp/core/test_dataproc.py:32-63 | with `copy` the result is a new array and the argument is untouched; with `copy=False` the argument itself is clamped in place and returned |
| `Containers.Split` | tests/pyhipp/core/test_containers.py:20-21 | `key.split('/')` gives at least one segment, none containing '/', and a key without '/' is its own single segment |
| `Containers.JoinSplit` | tests/pyhipp/core/test_containers.py:20-21 | joining the segments with '/' gives back the key |
| `Containers.SplitJoin` | tests/pyhipp/core/test_containers.py:20-21 | splitting a '/'-joined path of slash-free segments gives back the segments |
| `Containers.SplitAtSlash` | tests/pyhipp/core/test_containers.py:20-21 | 'a/rest' splits into 'a' followed by the segments of 'rest' |
| `Containers.Descend` | tests/pyhipp/core/test_containers.py:16-21 | a one-segment path is a plain dict lookup; every failure names a segment of the path |
| `Containers.Get` | tests/pyhipp/core/test_containers.py:16-21 | a lookup fails only with a missing key or a non-dict on the way |
| `Containers.FlatLookup` | tests/pyhipp/core/test_containers.py:16-19 | a key without '/' returns the stored value unchanged (its type preserved) or raises a KeyError |
| `Containers.PathLookup` | tests/pyhipp/core/test_containers.py:20-21 | 'a/rest' looks up 'rest' inside the nested dict at 'a' |
| `Containers.DescendReaches` | tests/pyhipp/core/test_containers.py:20-21 | following a chain of nested dicts from the first segment ends at the innermost value |
| `Containers.NestedLookup` | tests/pyhipp/core/test_containers.py:40-43 | a '/'-joined path through nested dicts returns the innermost value |
| `Containers.ExampleLookups` | tests/pyhipp/core/test_containers.py:7-21 | in {'a': 1, 'b': '2', 'c': {'d': 3, 'e': 4}}, 'a' is the int 1, 'b' the str '2', 'c/d' the int 3 and 'c/e' the int 4 |
| `Containers.ExampleTwoLookups` | tests/pyhipp/core/test_containers.py:25-43 | with two nested dicts sharing inner keys, 'c/e' returns the whole list and 'e/d' is resolved inside 'e' |

## Left out

- Floating point: all arithmetic is exact over `real`. Rounding, NaN and infinity are not
  modelled. A division by a zero weight sum is the `NonFinite` failure, and so are the mean
  and std of an empty sample.
- Square roots: Dafny's reals have none. A standard deviation is the symbolic
  `Samples.Root(variance)`.
- Sorting ties: `np.argsort`'s order among equal sample values is left open in numpy. The
  model uses a stable insertion sort.
- `np.interp` on cumulative weights that are not increasing: the model takes the last
  breakpoint at or below the level. Its monotonicity is proved only for non-negative weights.
- Array shapes in `reduction.py`: samples and weights are one-dimensional, and weights that
  do not match the sample's length are refused rather than broadcast. Median's 0-d level
  gives a scalar.
- `Reduce` inherits `HasName` and `HasDictRepr`. Its name and representation are covered
  by the `Abc` model, not repeated per operator.
- `CubicBox.ShiftToRef`: positions are a flat row-major sequence plus the length k of their
  last axis, so their full numpy shape is not modelled. A reference is a flat sequence too: one
  with as many entries as the positions is read as having their shape, one entry as a scalar,
  and k entries as one row. Other numpy broadcast shapes, such as an (N, 1) reference against
  (N, k) positions, are not modelled.
- `Abc.Name`: a name that is not a string is stored as `str(name)` in Python. The model takes
  the name after that conversion, as a string, since Python's `str` of arbitrary objects is
  not modelled.
- `_PeriodicBox` is compiled with numba. Compilation and the float64 field type are not
  modelled; `l_box` is any real.
- `PeriodicBox.repr_attr_keys`: its dict representation follows `Abc.DictLayout` and is not
  restated for the box.
- `HasSimpleRepr.__repr__`, `to_yaml` and `to_json`: these are text formatting by pprint,
  yaml and json. `to_simple_repr` of the base class renders as
  `<module.Class object at address>`; the address is a string parameter of the object, since
  memory addresses are not modelled.
- `HasLog`: `flush`, the real stdout, and `strftime`/`localtime` are left out. The current
  time is a string parameter. `verbose_on` and `verbose_off` are plain field updates.
- `_ChainLogger`: the `indent` and `flush` constructor parameters are not modelled. The
  indent is a string, and `chain()` always passes four spaces. The `__enter__` method
  returns the logger.
- `HasValue.__init__`: its `copy` flag only decides aliasing of the initial array.
  `set_value` is modelled on one-dimensional arrays.
- `IsImmutable`: it has no behaviour.
- `_BinnedData`: `binning.py` is not part of this model. Only the behaviour its test fixes
  is modelled: the total after counting and adding, per-bin contents, and dropping of
  invalid indices. `Binning.NewBins` refuses a negative bin count. This is a choice, since
  the test never tries one.
- `Summary.On`: the quantile levels of the three bands are a choice of this model:
  (0.16, 0.84), (0.025, 0.975) and (0.005, 0.995), the same values as `ps_map` in
  `reduction.py`, since `summary.py` is not part of this model and the test uses the levels
  only by name. `Summary.BandsNest` depends on this choice: with these levels `sigma_1` is the
  narrowest band, so the lower ends nest as `sigma_3[0] <= sigma_2[0] <= sigma_1[0]`.
- `Summary.on`: `summary.py` is not part of this model. An empty sample is refused with
  `EmptySample`; numpy would give NaN for the mean and raise for the minimum. A band's two
  rows are stored flat, the lower row first. `from_dict` refusing a missing or wrongly typed
  field is a choice: the test only exercises the round trip.
- `DataProc.Clamp`: `dataproc.py` is not part of this model. With `lo > hi` the result is
  `hi`, as numpy's `clip` documents. Python scalar identity is a flag: the same object
  exactly when the value is unchanged. Integer dtypes are modelled as reals.
- `Containers.Get`: `containers.py` is not part of this model. A key is always split at '/',
  so a flat key that itself contains '/' cannot be reached. Descending through a value that
  is not a dict is the `NotADict` failure.
- `Binning.AddChecked`: index and value arrays of different lengths are refused. This is a
  choice, since the test always passes equal lengths.
- `Reduction.SumCall`, `Reduction.PrepareWeights`: weights must match the sample's length.
  numpy would broadcast a single weight, and the model refuses it.
- `Reduction.ReduceCall`, `Reduction.ImplWithoutWeight`, `Reduction.ImplWithWeight`: their
  contracts fix only the kind of result. The values are stated by the lemmas about them:
  `CountIsSampleSize`, `WeightedSum` and `UnitWeightsSum` for Count and Sum, `WeightedMean`
  and `UniformWeightsMean` for Mean, `WeightedStdDevIsVariance` and `WeightedStdDevGeneral`
  for StdDev, `UnweightedQuantiles` for the unweighted quantiles, and
  `MedianIsHalfQuantile` for Median. Weighted quantiles have no closed formula here; they are
  bounded by `QuantilesWithin` and ordered by `QuantilesMonotone`, and every operator is
  unchanged by rescaled weights (`CallScaleInvariant`).
- `Reduction.WeightedQuantiles`: the contract gives the count of results and the empty-sample
  failure. The values are bounded and ordered by `Reduction.QuantilesWithin` and
  `Reduction.QuantilesMonotone`; no closed formula is stated.
- `Reduction.ErrorbarCall`: the contract only says a success is a triple. Its values are
  stated by `Reduction.ErrorbarFromQuantiles` (the centre and both offsets from the three
  quantiles), `Reduction.ErrorbarOffsets` (their signs) and `Reduction.ErrorbarCentreIsMedian`
  (the centre is the median).
- `Samples.CumSum`: its own contract gives only the length. Its values are stated by
  `Samples.CumSumRecurrence` and `Samples.CumSumLast`.
- `Samples.Interp`: the contract gives the end values only when the ends of xp are in
  increasing order. Values between the ends are bounded by `Samples.InterpWithin` and ordered
  by `Samples.InterpMonotone`; no closed formula is stated.
- `Samples.LinearQuantile`: the contract fixes only the one-sample case. The general value is
  `Samples.OrderStatisticIsInterp`, bounded by `Samples.LinearQuantileWithin` and ordered by
  `Samples.LinearQuantileMonotone`.
- `Reduction.Call`, `Reduction.CountCall`: their contracts fix the kind of result and the
  unit-weight count. The values are stated by the lemmas named under `Reduction.ReduceCall`
  and `Reduction.ErrorbarCall`.
- `Abc.LogText`: with a prefix, the contract states how the line starts and ends but not the
  separators between the prefix and the arguments. The time stamp is a parameter, since the
  clock is not modelled.
- `Summary.FromDict`: the contract states agreement with the input on every field, not
  which inputs succeed. `Summary.DictRoundTrip` and `Summary.MissingFieldRefused` cover those.
- `Containers.Get`: the contract states only which errors can occur. The successful lookups
  are stated by `Containers.FlatLookup`, `Containers.PathLookup` and `Containers.NestedLookup`.
- Everything outside these modules is left out: cosmology, I/O, regression, random
  transforms, plotting, and the `__init__` re-exports. They are glue over external
  libraries.

## Findings

| source | as written | input that shows it | evidently intended | confidence | as-written member | corrected member |
|---|---|---|---|---|---|---|
| src/pyhipp/stats/reduction.py:82-87 | the weighted `StdDev` returns the weighted mean of squared deviations and takes no square root | x = [0, 4] with weights [1, 1]: unweighted gives 2, weighted gives 4 | return the square root, so that equal weights give the unweighted result | high; not executed | `Reduction.WeightedStdDevExample` | `Reduction.IntendedStdDevUniformWeights` |
| src/pyhipp/stats/reduction.py:102 | the default `ps` is 'median+1siamg', which is not a key of `ps_map` | `Quantile()` or `predefined['qs']()` with no arguments raises a KeyError | 'median+1sigma', which gives the levels 0.16, 0.5, 0.84 | high; not executed | `Reduction.DefaultConstructionFails` | `Reduction.IntendedDefaultQuantile` |
| src/pyhipp/stats/reduction.py:131-132 | `Errorbar('mean+sd')` calls `self.__op_mean_sd()` with neither `x` nor `weight`, so construction raises a TypeError | `Errorbar('mean+sd')` | `op = self.__op_mean_sd`, giving (mean, sd, sd) when called | high; not executed | `Reduction.ErrorbarMeanSd` | `Reduction.ErrorbarIntended` |
| src/pyhipp/core/abc.py:133-139 | `__get_obj_name` assigns `type_name` and returns nothing, so every name is None | `HasLog(True, name='Worker').log('x')` prints '[None] x'; `for_obj('Worker')` is named 'HasLog' | `return type_name` | high; not executed | `Abc.NamedLogSaysNone` | `Abc.IntendedLogNamesObject` |
| src/pyhipp/core/abc.py:101 | the indent is printed when `count % wrap_on == 1`, which never holds for `wrap_on == 1` | `chain(wrap_on=1)` and two items: every item ends a line, but no line is indented | indent the first item of each line, i.e. when `(count - 1) % wrap_on == 0` | medium; not executed | `Abc.WrapOnOneNeverIndents` | `Abc.IntendedItemAfterBreakIndented` |
