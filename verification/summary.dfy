/** The distributional summary `Summary.on` of `pyhipp.stats.summary` and its record
    `Summary.FullResult`.

    The input has shape (n,) + S: axis 0 is the sample axis and every index of the trailing
    shape S is an independent slot. For each slot the summary holds the mean, the population
    standard deviation, the median, the minimum, the maximum and three quantile bands at the
    normal 1-, 2- and 3-sigma levels. A scalar field has shape S; a band has shape (2,) + S,
    its lower quantiles first. Arrays are stored flat in row-major order.
 */
module Summary {
  import opened Wrappers
  import Samples

  // ---------------------------------------------------------------------------------------
  // Shapes and arrays

  /** The number of elements of an array of the given shape; the empty shape is a scalar. */
  function Size(shape: seq<nat>): nat
  {
    if |shape| == 0 then 1 else shape[0] * Size(shape[1..])
  }

  /** An array of any element type, flattened in row-major order. */
  datatype Array<T> = Array(shape: seq<nat>, flat: seq<T>)
  {
    predicate Shaped()
    {
      |flat| == Size(shape)
    }

    /** numpy's `np.isscalar`: a 0-dimensional value. */
    predicate IsScalar()
    {
      shape == []
    }
  }

  /** A sample array of shape (n,) + trailing: one column of n samples per trailing slot. */
  datatype SampleArray = SampleArray(n: nat, trailing: seq<nat>, cols: seq<seq<real>>)
  {
    predicate WellFormed()
    {
      |cols| == Size(trailing) && forall j :: 0 <= j < |cols| ==> |cols[j]| == n
    }
  }

  /** The slice x[:, j] at a slot, as a 1-D sample array. */
  function Column(x: SampleArray, j: nat): (c: SampleArray)
    requires x.WellFormed() && j < |x.cols|
    ensures c.WellFormed() && c.n == x.n && c.trailing == []
  {
    SampleArray(x.n, [], [x.cols[j]])
  }

  // ---------------------------------------------------------------------------------------
  // The quantile levels

  /** A pair of probability levels (lower, upper) in [0, 1]. */
  datatype Levels = Levels(lo: real, hi: real)

  /** `Summary.p_sigma_1`, `p_sigma_2`, `p_sigma_3`: the normal +-1, 2 and 3 sigma levels. */
  const PSigma1: Levels := Levels(0.16, 0.84)
  const PSigma2: Levels := Levels(0.025, 0.975)
  const PSigma3: Levels := Levels(0.005, 0.995)

  /** A per-slot statistic along the sample axis. */
  datatype Stat = MeanOf | MedianOf | MinOf | MaxOf | QuantileOf(p: real)

  predicate ValidStat(s: Stat)
  {
    s.QuantileOf? ==> 0.0 <= s.p <= 1.0
  }

  /** One statistic of one non-empty column. */
  function ColumnStat(c: seq<real>, s: Stat): real
    requires |c| > 0 && ValidStat(s)
  {
    match s
    case MeanOf => Samples.Mean(c)
    case MedianOf => Samples.LinearQuantile(c, 0.5)
    case MinOf => Samples.Min(c)
    case MaxOf => Samples.Max(c)
    case QuantileOf(p) => Samples.LinearQuantile(c, p)
  }

  /** A statistic taken slot by slot. */
  function PerSlot(x: SampleArray, s: Stat): (r: Array<real>)
    requires x.WellFormed() && x.n > 0 && ValidStat(s)
    ensures r.Shaped() && r.shape == x.trailing
  {
    Array(x.trailing, seq(|x.cols|, j requires 0 <= j < |x.cols| => ColumnStat(x.cols[j], s)))
  }

  /** The band at the given levels: all lower quantiles, then all upper ones. */
  function Band(x: SampleArray, ps: Levels): (r: Array<real>)
    requires x.WellFormed() && x.n > 0 && 0.0 <= ps.lo <= 1.0 && 0.0 <= ps.hi <= 1.0
    ensures r.Shaped() && r.shape == [2] + x.trailing
  {
    assert ([2] + x.trailing)[1..] == x.trailing;
    Array([2] + x.trailing, PerSlot(x, QuantileOf(ps.lo)).flat + PerSlot(x, QuantileOf(ps.hi)).flat)
  }

  // ---------------------------------------------------------------------------------------
  // The record and `Summary.on`

  datatype FullResult = FullResult(
    mean: Array<real>,
    sd: Array<Samples.Num>,
    median: Array<real>,
    min: Array<real>,
    max: Array<real>,
    sigma1: Array<real>,
    sigma2: Array<real>,
    sigma3: Array<real>)

  /** `Summary.on(x)`. An empty sample has no minimum and is refused. */
  function On(x: SampleArray): (r: Result<FullResult>)
    requires x.WellFormed()
    ensures r.Success? <==> x.n > 0
    ensures r.Failure? ==> r.error == EmptySample
    ensures r.Success? ==> ShapesFollow(r.value, x.trailing)
  {
    if x.n == 0 then Failure(EmptySample)
    else
      Success(FullResult(
        PerSlot(x, MeanOf),
        Array(x.trailing, seq(|x.cols|, j requires 0 <= j < |x.cols| => Samples.StdDev(x.cols[j]))),
        PerSlot(x, MedianOf),
        PerSlot(x, MinOf),
        PerSlot(x, MaxOf),
        Band(x, PSigma1),
        Band(x, PSigma2),
        Band(x, PSigma3)))
  }

  /** Every scalar field has the trailing shape and every band has shape (2,) + trailing. */
  predicate ShapesFollow(r: FullResult, trailing: seq<nat>)
  {
    && r.mean.Shaped() && r.mean.shape == trailing
    && r.sd.Shaped() && r.sd.shape == trailing
    && r.median.Shaped() && r.median.shape == trailing
    && r.min.Shaped() && r.min.shape == trailing
    && r.max.Shaped() && r.max.shape == trailing
    && r.sigma1.Shaped() && r.sigma1.shape == [2] + trailing
    && r.sigma2.Shaped() && r.sigma2.shape == [2] + trailing
    && r.sigma3.Shaped() && r.sigma3.shape == [2] + trailing
  }

  /** Every field has room for `size` slots; a band holds two entries per slot. */
  predicate Holds(r: FullResult, size: nat)
  {
    && |r.mean.flat| == |r.sd.flat| == |r.median.flat| == |r.min.flat| == |r.max.flat| == size
    && |r.sigma1.flat| == |r.sigma2.flat| == |r.sigma3.flat| == 2 * size
  }

  /** The scalar entries at slot j are the mean, population sd, median, min and max of c. */
  predicate ScalarsSummarise(r: FullResult, size: nat, j: nat, c: seq<real>)
  {
    && |c| > 0 && j < size && Holds(r, size)
    && r.mean.flat[j] == Samples.Sum(c) / |c| as real
    && r.sd.flat[j] == Samples.Root(Samples.PopVariance(c))
    && r.median.flat[j] == Samples.LinearQuantile(c, 0.5)
    && r.min.flat[j] == Samples.Min(c)
    && r.max.flat[j] == Samples.Max(c)
  }

  /** The band entries at slot j are the quantiles of c at each band's two levels. */
  predicate BandsSummarise(r: FullResult, size: nat, j: nat, c: seq<real>)
  {
    && |c| > 0 && j < size && Holds(r, size)
    && r.sigma1.flat[j] == Samples.LinearQuantile(c, PSigma1.lo)
    && r.sigma1.flat[size + j] == Samples.LinearQuantile(c, PSigma1.hi)
    && r.sigma2.flat[j] == Samples.LinearQuantile(c, PSigma2.lo)
    && r.sigma2.flat[size + j] == Samples.LinearQuantile(c, PSigma2.hi)
    && r.sigma3.flat[j] == Samples.LinearQuantile(c, PSigma3.lo)
    && r.sigma3.flat[size + j] == Samples.LinearQuantile(c, PSigma3.hi)
  }

  /** Slot j of a band holds the lower quantile of column j, and slot size + j the upper. */
  lemma BandEntries(x: SampleArray, ps: Levels, j: nat)
    requires x.WellFormed() && x.n > 0 && 0.0 <= ps.lo <= 1.0 && 0.0 <= ps.hi <= 1.0
    requires j < |x.cols|
    ensures Band(x, ps).flat[j] == Samples.LinearQuantile(x.cols[j], ps.lo)
    ensures Band(x, ps).flat[|x.cols| + j] == Samples.LinearQuantile(x.cols[j], ps.hi)
  {
  }

  /** For each trailing slot, the scalar entries are the statistics of that slot's column. */
  lemma ScalarsOfSlot(x: SampleArray, j: nat)
    requires x.WellFormed() && x.n > 0 && j < |x.cols|
    ensures ScalarsSummarise(On(x).value, Size(x.trailing), j, x.cols[j])
  {
    var r := On(x).value;
    assert r.mean.flat[j] == Samples.Mean(x.cols[j]);
    assert r.median.flat[j] == Samples.LinearQuantile(x.cols[j], 0.5);
  }

  /** For each trailing slot, the band entries are the quantiles of that slot's column. */
  lemma BandsOfSlot(x: SampleArray, j: nat)
    requires x.WellFormed() && x.n > 0 && j < |x.cols|
    ensures BandsSummarise(On(x).value, Size(x.trailing), j, x.cols[j])
  {
    var r := On(x).value;
    assert r.sigma1 == Band(x, PSigma1) && r.sigma2 == Band(x, PSigma2) && r.sigma3 == Band(x, PSigma3);
    BandEntries(x, PSigma1, j);
    BandEntries(x, PSigma2, j);
    BandEntries(x, PSigma3, j);
  }

  // ---------------------------------------------------------------------------------------
  // Properties of the summary

  /** A 1-D sample gives scalar mean, sd, median, min and max, and bands of shape (2,). */
  lemma OneDimensional(c: seq<real>)
    requires |c| > 0
    ensures var x := SampleArray(|c|, [], [c]);
      x.WellFormed() && On(x).Success?
      && On(x).value.mean.IsScalar() && On(x).value.sd.IsScalar() && On(x).value.median.IsScalar()
      && On(x).value.min.IsScalar() && On(x).value.max.IsScalar()
      && On(x).value.sigma1.shape == [2] && On(x).value.sigma2.shape == [2]
      && On(x).value.sigma3.shape == [2]
  {
  }

  /** The entries of slot j of a record whose slots number `size`, as a record of scalars. */
  function Slot(r: FullResult, size: nat, j: nat): (s: FullResult)
    requires j < size
    requires Holds(r, size)
    ensures ShapesFollow(s, [])
  {
    FullResult(
      Array([], [r.mean.flat[j]]),
      Array([], [r.sd.flat[j]]),
      Array([], [r.median.flat[j]]),
      Array([], [r.min.flat[j]]),
      Array([], [r.max.flat[j]]),
      Array([2], [r.sigma1.flat[j], r.sigma1.flat[size + j]]),
      Array([2], [r.sigma2.flat[j], r.sigma2.flat[size + j]]),
      Array([2], [r.sigma3.flat[j], r.sigma3.flat[size + j]]))
  }

  /** The scalar entries of a slot agree with the summary of that slot's column alone. */
  lemma ScalarSlotsAgree(x: SampleArray, j: nat)
    requires x.WellFormed() && x.n > 0 && j < |x.cols|
    ensures On(x).Success? && On(Column(x, j)).Success?
    ensures var r := Slot(On(x).value, Size(x.trailing), j); var s := On(Column(x, j)).value;
      r.mean == s.mean && r.sd == s.sd && r.median == s.median && r.min == s.min && r.max == s.max
  {
    var c := Column(x, j);
    ScalarsOfSlot(x, j);
    ScalarsOfSlot(c, 0);
    var s := On(c).value;
    assert Size([]) == 1;
    assert s.mean == Array([], [s.mean.flat[0]]);
    assert s.sd == Array([], [s.sd.flat[0]]);
    assert s.median == Array([], [s.median.flat[0]]);
    assert s.min == Array([], [s.min.flat[0]]);
    assert s.max == Array([], [s.max.flat[0]]);
  }

  /** Slot j of one band, read as a pair, is that band for column j alone. */
  lemma BandSlotAgrees(x: SampleArray, ps: Levels, j: nat)
    requires x.WellFormed() && x.n > 0 && 0.0 <= ps.lo <= 1.0 && 0.0 <= ps.hi <= 1.0
    requires j < |x.cols|
    ensures Array([2], [Band(x, ps).flat[j], Band(x, ps).flat[|x.cols| + j]]) == Band(Column(x, j), ps)
  {
    var c := Column(x, j);
    BandEntries(x, ps, j);
    BandEntries(c, ps, 0);
    assert Size([]) == 1 && Size([2]) == 2;
    assert Band(c, ps) == Array([2], [Band(c, ps).flat[0], Band(c, ps).flat[1]]);
  }

  /** The band entries of a slot agree with the summary of that slot's column alone. */
  lemma BandSlotsAgree(x: SampleArray, j: nat)
    requires x.WellFormed() && x.n > 0 && j < |x.cols|
    ensures On(x).Success? && On(Column(x, j)).Success?
    ensures var r := Slot(On(x).value, Size(x.trailing), j); var s := On(Column(x, j)).value;
      r.sigma1 == s.sigma1 && r.sigma2 == s.sigma2 && r.sigma3 == s.sigma3
  {
    BandSlotAgrees(x, PSigma1, j);
    BandSlotAgrees(x, PSigma2, j);
    BandSlotAgrees(x, PSigma3, j);
  }

  /** Each slot of a multi-dimensional summary is the summary of that slot's column alone. */
  lemma SlotIsColumnSummary(x: SampleArray, j: nat)
    requires x.WellFormed() && x.n > 0 && j < |x.cols|
    ensures On(x).Success? && On(Column(x, j)).Success?
    ensures Slot(On(x).value, Size(x.trailing), j) == On(Column(x, j)).value
  {
    ScalarSlotsAgree(x, j);
    BandSlotsAgree(x, j);
  }

  /** Within every slot the bands nest around the median and lie within [min, max]:
      min <= sigma_3 lo <= sigma_2 lo <= sigma_1 lo <= median <= sigma_1 hi <= sigma_2 hi
      <= sigma_3 hi <= max. */
  lemma BandsNest(x: SampleArray, j: nat)
    requires x.WellFormed() && x.n > 0 && j < |x.cols|
    ensures var r := On(x).value; var k := Size(x.trailing);
      && r.min.flat[j] <= r.sigma3.flat[j] <= r.sigma2.flat[j] <= r.sigma1.flat[j]
      && r.sigma1.flat[j] <= r.median.flat[j] <= r.sigma1.flat[k + j]
      && r.sigma1.flat[k + j] <= r.sigma2.flat[k + j] <= r.sigma3.flat[k + j] <= r.max.flat[j]
  {
    ScalarsOfSlot(x, j);
    BandsOfSlot(x, j);
    SummariesNest(On(x).value, Size(x.trailing), j, x.cols[j]);
  }

  /** The ordering of one slot, from what its entries summarise. */
  lemma SummariesNest(r: FullResult, k: nat, j: nat, c: seq<real>)
    requires ScalarsSummarise(r, k, j, c) && BandsSummarise(r, k, j, c)
    ensures && r.min.flat[j] <= r.sigma3.flat[j] <= r.sigma2.flat[j] <= r.sigma1.flat[j]
            && r.sigma1.flat[j] <= r.median.flat[j] <= r.sigma1.flat[k + j]
            && r.sigma1.flat[k + j] <= r.sigma2.flat[k + j] <= r.sigma3.flat[k + j] <= r.max.flat[j]
  {
    QuantilesNest(c);
  }

  /** The quantiles at the summary's levels, in order, between the extremes. */
  lemma QuantilesNest(c: seq<real>)
    requires |c| > 0
    ensures && Samples.Min(c) <= Samples.LinearQuantile(c, PSigma3.lo)
            && Samples.LinearQuantile(c, PSigma3.lo) <= Samples.LinearQuantile(c, PSigma2.lo)
            && Samples.LinearQuantile(c, PSigma2.lo) <= Samples.LinearQuantile(c, PSigma1.lo)
            && Samples.LinearQuantile(c, PSigma1.lo) <= Samples.LinearQuantile(c, 0.5)
            && Samples.LinearQuantile(c, 0.5) <= Samples.LinearQuantile(c, PSigma1.hi)
            && Samples.LinearQuantile(c, PSigma1.hi) <= Samples.LinearQuantile(c, PSigma2.hi)
            && Samples.LinearQuantile(c, PSigma2.hi) <= Samples.LinearQuantile(c, PSigma3.hi)
            && Samples.LinearQuantile(c, PSigma3.hi) <= Samples.Max(c)
  {
    Samples.LinearQuantileWithin(c, PSigma3.lo);
    Samples.LinearQuantileMonotone(c, PSigma3.lo, PSigma2.lo);
    Samples.LinearQuantileMonotone(c, PSigma2.lo, PSigma1.lo);
    Samples.LinearQuantileMonotone(c, PSigma1.lo, 0.5);
    Samples.LinearQuantileMonotone(c, 0.5, PSigma1.hi);
    Samples.LinearQuantileMonotone(c, PSigma1.hi, PSigma2.hi);
    Samples.LinearQuantileMonotone(c, PSigma2.hi, PSigma3.hi);
    Samples.LinearQuantileWithin(c, PSigma3.hi);
  }

  /** A single sample is degenerate: every quantile is that sample, min == max == it, and
      the variance under the sd's root is zero. */
  lemma SingleSample(v: real, p: real)
    requires 0.0 <= p <= 1.0
    ensures Samples.LinearQuantile([v], p) == v
    ensures Samples.Min([v]) == v == Samples.Max([v])
    ensures Samples.StdDev([v]) == Samples.Root(0.0)
  {
    assert multiset(Samples.Sort([v])) == multiset{v};
    assert v in multiset(Samples.Sort([v]));
    assert Samples.Sort([v]) == [v];
    assert [v][..0] == [];
    assert Samples.Sum([v]) == Samples.Sum([]) + v;
    assert Samples.Mean([v]) == v;
    assert Samples.SquaredDeviations([v], v) == [0.0];
    assert [0.0][..0] == [];
  }

  // ---------------------------------------------------------------------------------------
  // The flat mapping: `as_dict` and `FullResult.from_dict`

  /** A value of the mapping: an array of reals, or the array of standard deviations. */
  datatype Entry = Reals(reals: Array<real>) | Nums(nums: Array<Samples.Num>)

  const FieldNames: seq<string> := ["mean", "sd", "median", "min", "max", "sigma_1", "sigma_2", "sigma_3"]

  /** `FullResult.as_dict()`: every field under its own name. */
  function AsDict(r: FullResult): (d: map<string, Entry>)
    ensures forall k :: k in d <==> k in FieldNames
  {
    map["mean" := Reals(r.mean), "sd" := Nums(r.sd), "median" := Reals(r.median),
        "min" := Reals(r.min), "max" := Reals(r.max), "sigma_1" := Reals(r.sigma1),
        "sigma_2" := Reals(r.sigma2), "sigma_3" := Reals(r.sigma3)]
  }

  /** The real array stored under key k. */
  function RealsAt(d: map<string, Entry>, k: string): (r: Result<Array<real>>)
    ensures r.Success? <==> k in d && d[k].Reals?
    ensures r.Success? ==> r.value == d[k].reals
    ensures r.Failure? ==> r.error == (if k in d then InvalidArgument else KeyError(k))
  {
    if k !in d then Failure(KeyError(k))
    else if d[k].Nums? then Failure(InvalidArgument)
    else Success(d[k].reals)
  }

  /** `FullResult.from_dict(d)`: reads each field back under its name; a missing name is a
      key error and an entry of the wrong kind is refused. */
  function FromDict(d: map<string, Entry>): (r: Result<FullResult>)
    ensures r.Success? ==> forall k :: k in FieldNames ==> k in d && AsDict(r.value)[k] == d[k]
  {
    var mean :- RealsAt(d, "mean");
    var sd :- if "sd" !in d then Failure(KeyError("sd"))
              else if d["sd"].Reals? then Failure(InvalidArgument)
              else Success(d["sd"].nums);
    var median :- RealsAt(d, "median");
    var min :- RealsAt(d, "min");
    var max :- RealsAt(d, "max");
    var sigma1 :- RealsAt(d, "sigma_1");
    var sigma2 :- RealsAt(d, "sigma_2");
    var sigma3 :- RealsAt(d, "sigma_3");
    Success(FullResult(mean, sd, median, min, max, sigma1, sigma2, sigma3))
  }

  /** `as_dict` exposes every field unchanged under its own name. */
  lemma AsDictFields(r: FullResult)
    ensures var d := AsDict(r);
      && d["mean"] == Reals(r.mean) && d["sd"] == Nums(r.sd) && d["median"] == Reals(r.median)
      && d["min"] == Reals(r.min) && d["max"] == Reals(r.max) && d["sigma_1"] == Reals(r.sigma1)
      && d["sigma_2"] == Reals(r.sigma2) && d["sigma_3"] == Reals(r.sigma3)
  {
  }

  /** `from_dict(as_dict())` reproduces every field exactly. */
  lemma DictRoundTrip(r: FullResult)
    ensures FromDict(AsDict(r)) == Success(r)
  {
    AsDictFields(r);
  }

  /** A mapping without one of the field names is refused with that name. */
  lemma MissingFieldRefused(d: map<string, Entry>)
    requires "mean" !in d
    ensures FromDict(d) == Failure(KeyError("mean"))
  {
  }
}
