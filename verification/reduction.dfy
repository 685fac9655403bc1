/** The reduction operators of `pyhipp.stats.reduction`: statistics of a one-dimensional
    sample with optional weights, and the string registry that names them.

    numpy arrays become `seq<real>`, a missing weight array is `None`. Each operator's
    `__call__` is one function below; `Call` dispatches on the closed `Op` datatype that
    stands for the open class hierarchy.
 */
module Reduction {
  import opened Wrappers
  import Samples

  // ---------------------------------------------------------------------------------------
  // Operators, results and the registry

  /** A configured reduction operator: one constructor per class, holding its attributes. */
  datatype Op =
    | Count(normalize: bool)
    | Sum(normalize: bool)
    | Mean
    | StdDev
    | Quantile(ps: seq<real>, sort: bool)
    | Median(sort: bool)
    | Errorbar(reduce: string)

  /** The value an operator returns: a number, an array of quantiles, or an error bar
      (centre, offset below, offset above). */
  datatype Stat =
    | Single(n: Samples.Num)
    | Vector(values: seq<real>)
    | Bar(centre: Samples.Num, below: Samples.Num, above: Samples.Num)

  /** The operator classes, as the registry hands them out (not yet constructed). */
  datatype Class = CountClass | SumClass | MeanClass | StdDevClass | QuantileClass | MedianClass | ErrorbarClass

  /** The `key` class attribute of each operator class. */
  function ClassKey(c: Class): string
  {
    match c
    case CountClass => "count"
    case SumClass => "sum"
    case MeanClass => "mean"
    case StdDevClass => "std_dev"
    case QuantileClass => "quantile"
    case MedianClass => "median"
    case ErrorbarClass => "errorbar"
  }

  /** The alias table of `_Predefined`. */
  const PredefinedTable: map<string, Class> := map[
    "count" := CountClass,
    "cnt" := CountClass,
    "sum" := SumClass,
    "mean" := MeanClass,
    "std_dev" := StdDevClass,
    "std" := StdDevClass,
    "sd" := StdDevClass,
    "quantile" := QuantileClass,
    "qs" := QuantileClass,
    "median" := MedianClass,
    "errorbar" := ErrorbarClass
  ]

  /** `predefined[key]`. */
  function Predefined(key: string): (r: Result<Class>)
    ensures r.Success? <==> key in PredefinedTable
    ensures r.Failure? ==> r.error == KeyError(key)
  {
    if key in PredefinedTable then Success(PredefinedTable[key]) else Failure(KeyError(key))
  }

  /** The named probability levels of `Quantile.ps_map`. */
  const PsMap: map<string, seq<real>> := map[
    "1sigma" := [0.16, 0.84],
    "2sigma" := [0.025, 0.975],
    "3sigma" := [0.005, 0.995],
    "median+1sigma" := [0.16, 0.5, 0.84],
    "median+2sigma" := [0.025, 0.5, 0.975],
    "median+3sigma" := [0.005, 0.5, 0.995]
  ]

  /** The default `ps` argument of `Quantile.__init__`, spelled as the source spells it. */
  const DefaultPsKey: string := "median+1siamg"

  /** The `ps` argument of `Quantile.__init__`: a key of `PsMap` or the levels themselves. */
  datatype PsArg = PsKey(key: string) | PsLevels(levels: seq<real>)

  /** `Quantile(ps, sort)`: a string is looked up in `PsMap`. */
  function NewQuantile(ps: PsArg, sort: bool): (r: Result<Op>)
    ensures ps.PsLevels? ==> r == Success(Quantile(ps.levels, sort))
    ensures ps.PsKey? && ps.key in PsMap ==> r == Success(Quantile(PsMap[ps.key], sort))
    ensures ps.PsKey? && ps.key !in PsMap ==> r == Failure(KeyError(ps.key))
  {
    match ps
    case PsLevels(levels) => Success(Quantile(levels, sort))
    case PsKey(key) =>
      if key in PsMap then Success(Quantile(PsMap[key], sort)) else Failure(KeyError(key))
  }

  /** `Errorbar(reduce)`. The 'mean+sd' branch evaluates `self.__op_mean_sd()` without its two
      required arguments, so it raises at construction; any other key must pass the assert. */
  function NewErrorbar(reduce: string): (r: Result<Op>)
    ensures reduce == "mean+sd" ==> r == Failure(MissingArguments)
    ensures reduce != "mean+sd" && reduce in PsMap ==> r == Success(Errorbar(reduce))
    ensures reduce != "mean+sd" && reduce !in PsMap ==> r == Failure(AssertionFailed)
  {
    if reduce == "mean+sd" then Failure(MissingArguments)
    else if reduce in PsMap then Success(Errorbar(reduce))
    else Failure(AssertionFailed)
  }

  /** Calls a registered class with no arguments, i.e. with every default. What it builds can
      be called, and the only failure is the KeyError of Quantile's misspelt default key. */
  function Construct(c: Class): (r: Result<Op>)
    ensures r.Success? ==> Valid(r.value)
    ensures r.Failure? ==> r == Failure(KeyError(DefaultPsKey))
  {
    match c
    case CountClass => Success(Count(true))
    case SumClass => Success(Sum(false))
    case MeanClass => Success(Mean)
    case StdDevClass => Success(StdDev)
    case QuantileClass => NewQuantile(PsKey(DefaultPsKey), true)
    case MedianClass => Success(Median(true))
    case ErrorbarClass => NewErrorbar("median+1sigma")
  }

  /** Operators that can be called: an error bar needs a key of `PsMap`, which its constructor
      guarantees. */
  predicate Valid(op: Op)
  {
    op.Errorbar? ==> op.reduce in PsMap
  }

  // ---------------------------------------------------------------------------------------
  // Weight handling of Reduce.__call__

  /** What `Reduce.__call__` hands to the weighted implementation: `None` without weights,
      otherwise `weight / weight.sum()`. Weights of another length make the implementation
      raise; weights summing to zero turn into NaN or infinity. */
  function PrepareWeights(x: seq<real>, w: Option<seq<real>>): (r: Result<Option<seq<real>>>)
    ensures w.None? ==> r == Success(None)
    ensures w.Some? && |w.value| != |x| ==> r == Failure(ShapeMismatch)
    ensures w.Some? && |w.value| == |x| && Samples.Sum(w.value) == 0.0 && |x| > 0
            ==> r == Failure(NonFinite)
    ensures r.Success? && r.value.Some? ==>
              && |r.value.value| == |x|
              && (|x| == 0 || Samples.Sum(r.value.value) == 1.0)
              && forall i :: 0 <= i < |x| ==> r.value.value[i] * Samples.Sum(w.value) == w.value[i]
  {
    match w
    case None => Success(None)
    case Some(ws) =>
      if |ws| != |x| then Failure(ShapeMismatch)
      else if |ws| == 0 then Success(Some([]))
      else if Samples.Sum(ws) == 0.0 then Failure(NonFinite)
      else Success(Some(Samples.Normalize(ws)))
  }

  /** Normalised weights come back from a second normalisation unchanged. */
  lemma PrepareNormalized(x: seq<real>, w: seq<real>)
    requires PrepareWeights(x, Some(w)).Success?
    ensures PrepareWeights(x, PrepareWeights(x, Some(w)).value) == PrepareWeights(x, Some(w))
  {
    if |x| > 0 {
      Samples.NormalizeIdempotent(w);
    }
  }

  // ---------------------------------------------------------------------------------------
  // Count and Sum, which override __call__

  /** `Count.__call__`: the sample size, unless weights are given without `normalize`. */
  function CountCall(normalize: bool, x: seq<real>, w: Option<seq<real>>): (r: real)
    ensures w == Some(Samples.Const(|x|, 1.0)) ==> r == |x| as real
  {
    Samples.SumConst(|x|, 1.0);
    if w.None? then |x| as real
    else if normalize then |x| as real
    else Samples.Sum(w.value)
  }

  /** `Sum.__call__`: Σ x, or Σ x w with the weights first divided by their sum when
      `normalize` is set. */
  function SumCall(normalize: bool, x: seq<real>, w: Option<seq<real>>): (r: Result<real>)
    ensures w.None? ==> r == Success(Samples.Sum(x))
    ensures w.Some? && |w.value| != |x| ==> r == Failure(ShapeMismatch)
  {
    match w
    case None => Success(Samples.Sum(x))
    case Some(ws) =>
      if |ws| != |x| then Failure(ShapeMismatch)
      else if !normalize then Success(Samples.Dot(x, ws))
      else if |ws| == 0 then Success(0.0)
      else if Samples.Sum(ws) == 0.0 then Failure(NonFinite)
      else Success(Samples.Dot(x, Samples.Normalize(ws)))
  }

  // ---------------------------------------------------------------------------------------
  // Operators that go through Reduce.__call__

  /** Mean, StdDev, Quantile and Median inherit `Reduce.__call__`. */
  predicate Inherits(op: Op)
  {
    op.Mean? || op.StdDev? || op.Quantile? || op.Median?
  }

  /** StdDev and Median call other operators from their weighted implementation. */
  function Rank(op: Op): nat
  {
    if op.StdDev? || op.Median? then 1 else 0
  }

  /** `Reduce.__call__`: the unweighted implementation without weights, otherwise the weighted
      implementation on `weight / weight.sum()`. */
  function ReduceCall(op: Op, x: seq<real>, w: Option<seq<real>>): (r: Result<Stat>)
    requires Inherits(op)
    ensures w.None? ==> r == ImplWithoutWeight(op, x)
    ensures r.Success? && (op.Mean? || op.Median?) ==> r.value.Single? && r.value.n.Exact?
    ensures r.Success? && op.StdDev? ==> r.value.Single?
    ensures r.Success? && op.Quantile? ==> r.value.Vector? && |r.value.values| == |op.ps|
    decreases Rank(op), 1
  {
    var wn :- PrepareWeights(x, w);
    match wn
    case None => ImplWithoutWeight(op, x)
    case Some(v) => ImplWithWeight(op, x, v)
  }

  /** The `_impl_without_weight` methods: numpy's mean, population std, quantile and median. */
  function ImplWithoutWeight(op: Op, x: seq<real>): (r: Result<Stat>)
    requires Inherits(op)
    ensures r.Success? && (op.Mean? || op.Median?) ==> r.value.Single? && r.value.n.Exact?
    ensures r.Success? && op.StdDev? ==> r.value.Single?
    ensures r.Success? && op.Quantile? ==> r.value.Vector? && |r.value.values| == |op.ps|
  {
    match op
    case Mean => if |x| == 0 then Failure(NonFinite) else Success(Single(Samples.Exact(Samples.Mean(x))))
    case StdDev => if |x| == 0 then Failure(NonFinite) else Success(Single(Samples.StdDev(x)))
    case Quantile(ps, _) =>
      var qs :- UnweightedQuantiles(ps, x);
      Success(Vector(qs))
    case Median(_) =>
      if |x| == 0 then Failure(NonFinite) else Success(Single(Samples.Exact(Samples.LinearQuantile(x, 0.5))))
  }

  /** The `_impl_with_weight` methods, given weights that already sum to one. StdDev calls
      `Mean()` twice (each call normalises the weights once more) and takes no square root;
      Median calls `Quantile(ps=0.5)`, whose 0-d level gives a scalar. */
  function ImplWithWeight(op: Op, x: seq<real>, v: seq<real>): (r: Result<Stat>)
    requires Inherits(op) && |v| == |x|
    ensures r.Success? && (op.Mean? || op.Median?) ==> r.value.Single? && r.value.n.Exact?
    ensures r.Success? && op.StdDev? ==> r.value.Single?
    ensures r.Success? && op.Quantile? ==> r.value.Vector? && |r.value.values| == |op.ps|
    decreases Rank(op), 0
  {
    match op
    case Mean => Success(Single(Samples.Exact(Samples.Dot(x, v))))
    case StdDev =>
      var m :- ReduceCall(Mean, x, Some(v));
      ReduceCall(Mean, Samples.SquaredDeviations(x, m.n.value), Some(v))
    case Quantile(ps, sort) =>
      var qs :- WeightedQuantiles(ps, sort, x, v);
      Success(Vector(qs))
    case Median(sort) =>
      var q :- ReduceCall(Quantile([0.5], sort), x, Some(v));
      Success(Single(Samples.Exact(q.values[0])))
  }

  /** Sorts the sample and its weights together by sample value (np.argsort, then both
      arrays indexed by the permutation). */
  function SortJointly(x: seq<real>, w: seq<real>): (r: (seq<real>, seq<real>))
    requires |x| == |w|
    ensures |r.0| == |x| && |r.1| == |x|
    ensures Samples.NonDecreasing(r.0)
    ensures multiset(Zip(r.0, r.1)) == multiset(Zip(x, w))
  {
    var sorted := Samples.SortBy(First, Zip(x, w));
    var xs := seq(|sorted|, i requires 0 <= i < |sorted| => sorted[i].0);
    var ws := seq(|sorted|, i requires 0 <= i < |sorted| => sorted[i].1);
    assert Zip(xs, ws) == sorted;
    assert forall i, j :: 0 <= i < j < |sorted| ==> First(sorted[i]) <= First(sorted[j]);
    (xs, ws)
  }

  function Zip(x: seq<real>, w: seq<real>): (r: seq<(real, real)>)
    requires |x| == |w|
    ensures |r| == |x|
  {
    seq(|x|, i requires 0 <= i < |x| => (x[i], w[i]))
  }

  function First(pair: (real, real)): real
  {
    pair.0
  }

  /** Each jointly sorted sample value is one of the original sample values. */
  lemma SortJointlyFromSample(x: seq<real>, w: seq<real>)
    requires |x| == |w|
    ensures forall i :: 0 <= i < |x| ==> SortJointly(x, w).0[i] in x
  {
    var r := SortJointly(x, w);
    forall i | 0 <= i < |x|
      ensures r.0[i] in x
    {
      var z := Zip(r.0, r.1);
      assert z[i] in multiset(z);
      assert z[i] in Zip(x, w);
      var k :| 0 <= k < |x| && Zip(x, w)[k] == z[i];
    }
  }

  /** The weighted implementation of `Quantile`: np.interp(ps, cumsum(w), x), with x and w
      first sorted together by x when `sort` is set. */
  function WeightedQuantiles(ps: seq<real>, sort: bool, x: seq<real>, w: seq<real>): (r: Result<seq<real>>)
    requires |w| == |x|
    ensures |x| == 0 <==> r == Failure(EmptySample)
    ensures r.Success? ==> |r.value| == |ps|
  {
    if |x| == 0 then Failure(EmptySample)
    else
      var sorted := if sort then SortJointly(x, w) else (x, w);
      var cdf := Samples.CumSum(sorted.1);
      Success(seq(|ps|, i requires 0 <= i < |ps| => Samples.Interp(ps[i], cdf, sorted.0)))
  }

  /** The unweighted implementation of `Quantile`: np.quantile(x, ps), numpy's "linear"
      method, which refuses levels outside [0, 1] and an empty sample. */
  function UnweightedQuantiles(ps: seq<real>, x: seq<real>): (r: Result<seq<real>>)
    ensures r.Success? <==> |x| > 0 && forall i :: 0 <= i < |ps| ==> 0.0 <= ps[i] <= 1.0
    ensures r.Success? ==>
              && |r.value| == |ps|
              && forall i :: 0 <= i < |ps| ==> r.value[i] == Samples.LinearQuantile(x, ps[i])
  {
    if exists i :: 0 <= i < |ps| && !(0.0 <= ps[i] <= 1.0) then Failure(LevelOutOfRange)
    else if |x| == 0 then Failure(EmptySample)
    else Success(seq(|ps|, i requires 0 <= i < |ps| => Samples.LinearQuantile(x, ps[i])))
  }

  /** `Errorbar(reduce)(x, w)` for a 'median+Nsigma' style key: (median, median - lo, hi - median)
      from `Quantile(reduce)(x, w)`. A key with two levels ('1sigma', ...) passes the
      constructor's assert but fails to unpack into three names. */
  function ErrorbarCall(reduce: string, x: seq<real>, w: Option<seq<real>>): (r: Result<Stat>)
    requires reduce in PsMap
    ensures r.Success? ==> r.value.Bar?
  {
    var qs :- ReduceCall(Quantile(PsMap[reduce], true), x, w);
    if |qs.values| != 3 then Failure(UnpackMismatch)
    else
      var q := qs.values;
      Success(Bar(Samples.Exact(q[1]), Samples.Exact(q[1] - q[0]), Samples.Exact(q[2] - q[1])))
  }

  /** `op(x, weight)`: Count and Sum use their own `__call__`, an error bar its `op`, and every
      other operator the `__call__` it inherits from `Reduce`. */
  function Call(op: Op, x: seq<real>, w: Option<seq<real>>): (r: Result<Stat>)
    requires Valid(op)
    ensures op.Count? ==> r.Success? && r.value.Single? && r.value.n.Exact?
    ensures op.Sum? && r.Success? ==> r.value.Single? && r.value.n.Exact?
    ensures op.Errorbar? && r.Success? ==> r.value.Bar?
    ensures Inherits(op) ==> r == ReduceCall(op, x, w)
  {
    match op
    case Count(normalize) => Success(Single(Samples.Exact(CountCall(normalize, x, w))))
    case Sum(normalize) =>
      var s :- SumCall(normalize, x, w);
      Success(Single(Samples.Exact(s)))
    case Errorbar(reduce) => ErrorbarCall(reduce, x, w)
    case _ => ReduceCall(op, x, w)
  }

  // ---------------------------------------------------------------------------------------
  // Corrected twins of three defects (see the findings of the README)

  /** The default `ps` key that `Quantile.__init__` evidently means. */
  const IntendedDefaultPsKey: string := "median+1sigma"

  /** `Construct` with the default key of `Quantile` spelled as intended. */
  function ConstructIntended(c: Class): (r: Result<Op>)
    ensures r.Success?
  {
    if c == QuantileClass then NewQuantile(PsKey(IntendedDefaultPsKey), true) else Construct(c)
  }

  /** `StdDev()(x, w)` with the square root taken on the weighted path too. */
  function StdDevIntended(x: seq<real>, w: Option<seq<real>>): (r: Result<Stat>)
    ensures w.None? ==> r == Call(StdDev, x, w)
  {
    var sd :- ReduceCall(StdDev, x, w);
    if w.None? || !sd.n.Exact? then Success(sd) else Success(Single(Samples.Root(sd.n.value)))
  }

  /** `Errorbar(reduce)(x, w)` with 'mean+sd' calling `__op_mean_sd(x, weight)` as evidently
      intended: (mean, sd, sd); the other keys behave as in the source. */
  function ErrorbarIntended(reduce: string, x: seq<real>, w: Option<seq<real>>): (r: Result<Stat>)
    ensures r.Success? ==> r.value.Bar?
  {
    if reduce == "mean+sd" then
      var m :- ReduceCall(Mean, x, w);
      var sd :- StdDevIntended(x, w);
      if sd.Single? then Success(Bar(m.n, sd.n, sd.n)) else Failure(ShapeMismatch)
    else if reduce in PsMap then ErrorbarCall(reduce, x, w)
    else Failure(AssertionFailed)
  }

  // ---------------------------------------------------------------------------------------
  // Properties

  /** The registry's aliases: 'cnt' is Count, 'std' and 'sd' are StdDev, 'qs' is Quantile, and
      every class is registered under its own `key`. */
  lemma RegistryAliases(c: Class)
    ensures Predefined(ClassKey(c)) == Success(c)
    ensures Predefined("cnt") == Success(CountClass)
    ensures Predefined("std") == Success(StdDevClass) && Predefined("sd") == Success(StdDevClass)
    ensures Predefined("qs") == Success(QuantileClass)
    ensures Predefined("mean+sd") == Failure(KeyError("mean+sd"))
  {
  }

  /** Called with its defaults, every registered class constructs except Quantile, whose
      default key is not a key of `PsMap`. */
  lemma DefaultConstructionFails(c: Class)
    ensures Construct(c).Failure? <==> c == QuantileClass
    ensures Construct(QuantileClass) == Failure(KeyError(DefaultPsKey))
    ensures DefaultPsKey !in PsMap
  {
  }

  /** With the intended default key, the default Quantile asks for the median and the
      1-sigma band. */
  lemma IntendedDefaultQuantile()
    ensures ConstructIntended(QuantileClass) == Success(Quantile([0.16, 0.5, 0.84], true))
  {
  }

  /** `Count` is the sample size when unweighted or normalised, the weight sum otherwise, and
      unit weights give the sample size either way. */
  lemma CountIsSampleSize(x: seq<real>, w: seq<real>)
    ensures CountCall(true, x, Some(w)) == CountCall(true, x, None) == |x| as real
    ensures CountCall(false, x, Some(w)) == Samples.Sum(w)
    ensures CountCall(false, x, Some(Samples.Const(|x|, 1.0))) == CountCall(false, x, None)
  {
    Samples.SumConst(|x|, 1.0);
  }

  /** `Sum` with weights is Σ x w, divided by Σ w only under `normalize`. */
  lemma WeightedSum(x: seq<real>, w: seq<real>)
    requires |w| == |x| && Samples.Sum(w) != 0.0
    ensures SumCall(false, x, Some(w)) == Success(Samples.Dot(x, w))
    ensures SumCall(true, x, Some(w)) == Success(Samples.Dot(x, w) / Samples.Sum(w))
  {
    assert |w| > 0;
    Samples.DotScale(x, w, Samples.Sum(w));
  }

  /** Unit weights give the plain sum. */
  lemma UnitWeightsSum(x: seq<real>)
    ensures SumCall(false, x, Some(Samples.Const(|x|, 1.0))) == SumCall(false, x, None)
  {
    Samples.DotConst(x, 1.0);
  }

  /** The weighted mean is Σ x w / Σ w. */
  lemma WeightedMean(x: seq<real>, w: seq<real>)
    requires |w| == |x| && Samples.Sum(w) != 0.0
    ensures Call(Mean, x, Some(w)) == Success(Single(Samples.Exact(Samples.Dot(x, w) / Samples.Sum(w))))
  {
    assert |w| > 0;
    Samples.DotScale(x, w, Samples.Sum(w));
  }

  /** A weighted total over a weight total with a common non-zero factor c is the plain
      average. */
  lemma CancelFactor(d: real, t: real, a: real, n: real, c: real)
    requires n != 0.0 && c != 0.0
    requires d == c * a && t == n * c
    ensures d / t == a / n
  {
  }

  /** Equal weights give the unweighted mean. */
  lemma UniformWeightsMean(x: seq<real>, c: real)
    requires |x| > 0 && c != 0.0
    ensures Call(Mean, x, Some(Samples.Const(|x|, c))) == Call(Mean, x, None)
  {
    var n := |x| as real;
    var w := Samples.Const(|x|, c);
    Samples.SumConst(|x|, c);
    Samples.DotConst(x, c);
    WeightedMean(x, w);
    CancelFactor(Samples.Dot(x, w), Samples.Sum(w), Samples.Sum(x), n, c);
    UnweightedMean(x);
  }

  lemma UnweightedMean(x: seq<real>)
    requires |x| > 0
    ensures Call(Mean, x, None) == Success(Single(Samples.Exact(Samples.Sum(x) / |x| as real)))
  {
  }

  /** Equal weights normalise to 1/n each. */
  lemma NormalizeConst(n: nat, c: real)
    requires n > 0 && c != 0.0
    ensures Samples.Sum(Samples.Const(n, c)) != 0.0
    ensures Samples.Normalize(Samples.Const(n, c)) == Samples.Const(n, 1.0 / n as real)
  {
    Samples.SumConst(n, c);
    var v := Samples.Normalize(Samples.Const(n, c));
    forall i | 0 <= i < n
      ensures v[i] == 1.0 / n as real
    {
      CancelFactor(c, Samples.Sum(Samples.Const(n, c)), 1.0, n as real, c);
      assert v[i] == c / Samples.Sum(Samples.Const(n, c));
    }
  }

  /** Unweighted, StdDev is the population standard deviation; with equal weights the
      weighted path returns the population variance instead, its square. */
  lemma WeightedStdDevIsVariance(x: seq<real>, c: real)
    requires |x| > 0 && c != 0.0
    ensures Call(StdDev, x, None) == Success(Single(Samples.Root(Samples.PopVariance(x))))
    ensures Call(StdDev, x, Some(Samples.Const(|x|, c))) == Success(Single(Samples.Exact(Samples.PopVariance(x))))
  {
    var n := |x|;
    NormalizeConst(n, c);
    var v := Samples.Const(n, 1.0 / n as real);
    assert PrepareWeights(x, Some(Samples.Const(n, c))) == Success(Some(v));
    UniformWeightsMean(x, 1.0 / n as real);
    var m := Samples.Mean(x);
    UniformWeightsMean(Samples.SquaredDeviations(x, m), 1.0 / n as real);
  }

  /** For any weights with a non-zero sum, the weighted path of StdDev returns the weighted
      mean of the squared deviations from the weighted mean, Σ (x - m)² w / Σ w with
      m = Σ x w / Σ w, and takes no square root. */
  lemma WeightedStdDevGeneral(x: seq<real>, w: seq<real>)
    requires |w| == |x| && Samples.Sum(w) != 0.0
    ensures Call(StdDev, x, Some(w))
            == Success(Single(Samples.Exact(
                 Samples.Dot(Samples.SquaredDeviations(x, Samples.Dot(x, w) / Samples.Sum(w)), w)
                 / Samples.Sum(w))))
  {
    var v := Samples.Normalize(w);
    assert |x| > 0;
    Samples.NormalizeIdempotent(w);
    assert PrepareWeights(x, Some(v)) == Success(Some(v));
    WeightedMean(x, w);
    PrepareNormalized(x, w);
    var m := Samples.Dot(x, w) / Samples.Sum(w);
    assert ReduceCall(Mean, x, Some(v)) == Success(Single(Samples.Exact(m)));
    var d := Samples.SquaredDeviations(x, m);
    WeightedMean(d, w);
    assert PrepareWeights(d, Some(w)) == Success(Some(v));
    assert PrepareWeights(d, Some(v)) == Success(Some(v));
  }

  /** A concrete witness: for the sample [0, 4] with unit weights, StdDev returns the root
      of 4 (that is, 2) unweighted and 4 weighted. */
  lemma WeightedStdDevExample()
    ensures Call(StdDev, [0.0, 4.0], None) == Success(Single(Samples.Root(4.0)))
    ensures Call(StdDev, [0.0, 4.0], Some([1.0, 1.0])) == Success(Single(Samples.Exact(4.0)))
  {
    var x := [0.0, 4.0];
    assert Samples.Const(2, 1.0) == [1.0, 1.0];
    WeightedStdDevIsVariance(x, 1.0);
    assert Samples.Sum(x) == 4.0 by {
      assert x[..1] == [0.0];
      assert [0.0][..0] == [];
    }
    var d := Samples.SquaredDeviations(x, 2.0);
    assert d == [4.0, 4.0];
    assert Samples.Sum(d) == 8.0 by {
      assert d[..1] == [4.0];
      assert [4.0][..0] == [];
    }
  }

  /** The corrected StdDev agrees with the unweighted one under equal weights. */
  lemma IntendedStdDevUniformWeights(x: seq<real>, c: real)
    requires |x| > 0 && c != 0.0
    ensures StdDevIntended(x, Some(Samples.Const(|x|, c))) == Call(StdDev, x, None)
  {
    WeightedStdDevIsVariance(x, c);
  }

  /** Only the normalised weights matter: rescaling all weights by a non-zero factor leaves
      every operator that goes through `Reduce.__call__` unchanged. */
  lemma CallScaleInvariant(op: Op, x: seq<real>, w: seq<real>, c: real)
    requires Inherits(op)
    requires Samples.Sum(w) != 0.0 && c != 0.0
    ensures ReduceCall(op, x, Some(Samples.Scale(w, c))) == ReduceCall(op, x, Some(w))
  {
    Samples.NormalizeScaleInvariant(w, c);
    assert PrepareWeights(x, Some(Samples.Scale(w, c))) == PrepareWeights(x, Some(w));
  }

  /** Every quantile, weighted or not, lies between the smallest and largest sample value. */
  lemma QuantilesWithin(ps: seq<real>, sort: bool, x: seq<real>, w: Option<seq<real>>)
    requires ReduceCall(Quantile(ps, sort), x, w).Success?
    ensures |x| > 0
    ensures forall i :: 0 <= i < |ps| ==>
              Samples.Min(x) <= ReduceCall(Quantile(ps, sort), x, w).value.values[i] <= Samples.Max(x)
  {
    var r := ReduceCall(Quantile(ps, sort), x, w).value.values;
    var wn := PrepareWeights(x, w).value;
    match wn
    case None =>
      forall i | 0 <= i < |ps|
        ensures Samples.Min(x) <= r[i] <= Samples.Max(x)
      {
        Samples.LinearQuantileWithin(x, ps[i]);
      }
    case Some(v) =>
      assert |x| > 0;
      var sorted := if sort then SortJointly(x, v) else (x, v);
      SortJointlyFromSample(x, v);
      assert forall k :: 0 <= k < |x| ==> Samples.Min(x) <= sorted.0[k] <= Samples.Max(x);
      forall i | 0 <= i < |ps|
        ensures Samples.Min(x) <= r[i] <= Samples.Max(x)
      {
        Samples.InterpWithin(ps[i], Samples.CumSum(sorted.1), sorted.0, Samples.Min(x), Samples.Max(x));
      }
  }

  /** With sorting (and non-negative weights, for which the cumulative weights increase as
      np.interp requires), quantiles are non-decreasing in the probability level. */
  lemma QuantilesMonotone(ps: seq<real>, x: seq<real>, w: Option<seq<real>>)
    requires ReduceCall(Quantile(ps, true), x, w).Success?
    requires w.Some? ==> forall i :: 0 <= i < |w.value| ==> 0.0 <= w.value[i]
    ensures forall i, j :: 0 <= i < |ps| && 0 <= j < |ps| && ps[i] <= ps[j] ==>
              ReduceCall(Quantile(ps, true), x, w).value.values[i]
              <= ReduceCall(Quantile(ps, true), x, w).value.values[j]
  {
    var r := ReduceCall(Quantile(ps, true), x, w).value.values;
    var wn := PrepareWeights(x, w).value;
    match wn
    case None =>
      forall i, j | 0 <= i < |ps| && 0 <= j < |ps| && ps[i] <= ps[j]
        ensures r[i] <= r[j]
      {
        Samples.LinearQuantileMonotone(x, ps[i], ps[j]);
      }
    case Some(v) =>
      var sorted := SortJointly(x, v);
      forall i, j | 0 <= i < |ps| && 0 <= j < |ps| && ps[i] <= ps[j]
        ensures r[i] <= r[j]
      {
        Samples.InterpMonotone(ps[i], ps[j], Samples.CumSum(sorted.1), sorted.0);
      }
  }

  /** An error bar for a 'median+Nsigma' key is (median, median - lo, hi - median), read off
      the three quantiles `Quantile(reduce)(x, w)` returns, with both offsets non-negative;
      unweighted, its centre is the sample median. */
  lemma ErrorbarOffsets(reduce: string, x: seq<real>, w: Option<seq<real>>)
    requires reduce in {"median+1sigma", "median+2sigma", "median+3sigma"}
    requires w.Some? ==> forall i :: 0 <= i < |w.value| ==> 0.0 <= w.value[i]
    requires ErrorbarCall(reduce, x, w).Success?
    ensures Call(Quantile(PsMap[reduce], true), x, w).Success?
    ensures var q := Call(Quantile(PsMap[reduce], true), x, w).value.values;
            var bar := ErrorbarCall(reduce, x, w).value;
            && |q| == 3
            && bar == Bar(Samples.Exact(q[1]), Samples.Exact(q[1] - q[0]), Samples.Exact(q[2] - q[1]))
            && q[0] <= q[1] <= q[2]
    ensures 0.0 <= ErrorbarCall(reduce, x, w).value.below.value
    ensures 0.0 <= ErrorbarCall(reduce, x, w).value.above.value
    ensures w.None? ==> ErrorbarCall(reduce, x, w).value.centre == Samples.Exact(Samples.LinearQuantile(x, 0.5))
  {
    var ps := PsMap[reduce];
    assert |ps| == 3 && ps[0] <= ps[1] <= ps[2] && ps[1] == 0.5;
    ErrorbarFromQuantiles(reduce, x, w);
    QuantilesMonotone(ps, x, w);
  }

  /** A successful error bar is built from a three-level `Quantile` call on the same sample
      and weights. */
  lemma ErrorbarFromQuantiles(reduce: string, x: seq<real>, w: Option<seq<real>>)
    requires reduce in PsMap
    requires ErrorbarCall(reduce, x, w).Success?
    ensures Call(Quantile(PsMap[reduce], true), x, w).Success?
    ensures var q := Call(Quantile(PsMap[reduce], true), x, w).value.values;
            |q| == 3
            && ErrorbarCall(reduce, x, w).value
               == Bar(Samples.Exact(q[1]), Samples.Exact(q[1] - q[0]), Samples.Exact(q[2] - q[1]))
  {
  }

  /** The centre of a 'median+Nsigma' error bar is what the `Median` operator returns for the
      same sample and weights. */
  lemma ErrorbarCentreIsMedian(reduce: string, x: seq<real>, w: Option<seq<real>>)
    requires reduce in {"median+1sigma", "median+2sigma", "median+3sigma"}
    requires ErrorbarCall(reduce, x, w).Success?
    ensures Call(Median(true), x, w).Success?
    ensures ErrorbarCall(reduce, x, w).value.centre == Call(Median(true), x, w).value.n
  {
    var ps := PsMap[reduce];
    assert |ps| == 3 && ps[1] == 0.5;
    assert Call(Median(true), x, w) == ReduceCall(Median(true), x, w);
    if w.Some? {
      var pw := PrepareWeights(x, w);
      PrepareNormalized(x, w.value);
      assert PrepareWeights(x, Some(pw.value.value)) == pw;
    }
  }

  /** `Median(sort)` is the 0.5 quantile: whenever it succeeds, `Quantile([0.5], sort)`
      succeeds on the same sample and weights, and its single value is the median. */
  lemma MedianIsHalfQuantile(sort: bool, x: seq<real>, w: Option<seq<real>>)
    requires Call(Median(sort), x, w).Success?
    ensures Call(Quantile([0.5], sort), x, w).Success?
    ensures Call(Median(sort), x, w).value
            == Single(Samples.Exact(Call(Quantile([0.5], sort), x, w).value.values[0]))
  {
    if w.Some? {
      var pw := PrepareWeights(x, w);
      PrepareNormalized(x, w.value);
      var v := pw.value.value;
      assert PrepareWeights(x, Some(v)) == pw;
      assert Call(Median(sort), x, w) == ImplWithWeight(Median(sort), x, v);
      assert ReduceCall(Quantile([0.5], sort), x, Some(v)) == ImplWithWeight(Quantile([0.5], sort), x, v);
    }
  }

  /** The median lies within the sample's range, weighted or not. */
  lemma MedianWithin(sort: bool, x: seq<real>, w: Option<seq<real>>)
    requires Call(Median(sort), x, w).Success?
    ensures |x| > 0 && Call(Median(sort), x, w).value.n.Exact?
    ensures Samples.Min(x) <= Call(Median(sort), x, w).value.n.value <= Samples.Max(x)
  {
    MedianIsHalfQuantile(sort, x, w);
    QuantilesWithin([0.5], sort, x, w);
  }

  /** A two-level key passes the constructor but cannot be unpacked when called. */
  lemma ErrorbarTwoLevelKey(x: seq<real>)
    requires |x| > 0
    ensures NewErrorbar("1sigma") == Success(Errorbar("1sigma"))
    ensures Call(Errorbar("1sigma"), x, None) == Failure(UnpackMismatch)
  {
    assert PsMap["1sigma"] == [0.16, 0.84];
  }

  /** As written, 'mean+sd' cannot even be constructed; as intended it yields the mean with the
      standard deviation as both offsets. */
  lemma ErrorbarMeanSd(x: seq<real>)
    requires |x| > 0
    ensures NewErrorbar("mean+sd") == Failure(MissingArguments)
    ensures ErrorbarIntended("mean+sd", x, None)
            == Success(Bar(Samples.Exact(Samples.Mean(x)), Samples.StdDev(x), Samples.StdDev(x)))
  {
  }
}
