/** The binned accumulator `_BinnedData` of `pyhipp.stats.binning`: a fixed number of bins
    that checked operations increment at the given indices.

    An index is valid iff it lies in [0, n_bins); every other index is dropped silently.
    Repeated indices within one call all accumulate. The bins are reals, so counts and
    weighted sums share one representation.
 */
module Binning {
  import opened Wrappers
  import Samples

  /** An index the checked operations accept. */
  predicate InRange(n: int, i: int)
  {
    0 <= i < n
  }

  /** The number of indices in [0, n). */
  function ValidCount(n: int, idx: seq<int>): nat
    decreases |idx|
  {
    if |idx| == 0 then 0
    else ValidCount(n, idx[..|idx| - 1]) + (if InRange(n, idx[|idx| - 1]) then 1 else 0)
  }

  /** Σ vals[k] over the k whose index lies in [0, n). */
  function ValidSum(n: int, idx: seq<int>, vals: seq<real>): real
    requires |vals| == |idx|
    decreases |idx|
  {
    if |idx| == 0 then 0.0
    else ValidSum(n, idx[..|idx| - 1], vals[..|idx| - 1]) + (if InRange(n, idx[|idx| - 1]) then vals[|idx| - 1] else 0.0)
  }

  /** Σ vals[k] over the k whose index is `b`. */
  function BinSum(idx: seq<int>, vals: seq<real>, b: int): real
    requires |vals| == |idx|
    decreases |idx|
  {
    if |idx| == 0 then 0.0
    else BinSum(idx[..|idx| - 1], vals[..|idx| - 1], b) + (if idx[|idx| - 1] == b then vals[|idx| - 1] else 0.0)
  }

  /** The number of times `b` occurs among the indices. */
  function Hits(idx: seq<int>, b: int): nat
  {
    multiset(idx)[b]
  }

  /** Adds each value to the bin its index names, in order, skipping invalid indices. */
  function Scatter(data: seq<real>, idx: seq<int>, vals: seq<real>): (r: seq<real>)
    requires |vals| == |idx|
    ensures |r| == |data|
    ensures forall b :: 0 <= b < |data| ==> r[b] == data[b] + BinSum(idx, vals, b)
    decreases |idx|
  {
    if |idx| == 0 then data
    else
      var d := Scatter(data, idx[..|idx| - 1], vals[..|idx| - 1]);
      var i := idx[|idx| - 1];
      if InRange(|data|, i) then d[i := d[i] + vals[|idx| - 1]] else d
  }

  /** With unit values, a bin's sum is the number of times its index occurs. */
  lemma {:induction false} BinSumOnes(idx: seq<int>, b: int)
    ensures BinSum(idx, Samples.Const(|idx|, 1.0), b) == Hits(idx, b) as real
    decreases |idx|
  {
    if |idx| > 0 {
      var init := idx[..|idx| - 1];
      assert Samples.Const(|idx|, 1.0)[..|idx| - 1] == Samples.Const(|init|, 1.0);
      BinSumOnes(init, b);
      assert idx == init + [idx[|idx| - 1]];
      assert multiset(idx) == multiset(init) + multiset{idx[|idx| - 1]};
    }
  }

  /** With unit values, the valid sum is the valid count. */
  lemma {:induction false} ValidSumOnes(n: int, idx: seq<int>)
    ensures ValidSum(n, idx, Samples.Const(|idx|, 1.0)) == ValidCount(n, idx) as real
    decreases |idx|
  {
    if |idx| > 0 {
      assert Samples.Const(|idx|, 1.0)[..|idx| - 1] == Samples.Const(|idx| - 1, 1.0);
      ValidSumOnes(n, idx[..|idx| - 1]);
    }
  }

  /** Raising one bin raises the total by the same amount. */
  lemma {:induction false} SumBump(s: seq<real>, i: nat, c: real)
    requires i < |s|
    ensures Samples.Sum(s[i := s[i] + c]) == Samples.Sum(s) + c
    decreases |s|
  {
    var t := s[i := s[i] + c];
    if i == |s| - 1 {
      assert t[..|s| - 1] == s[..|s| - 1];
    } else {
      assert t[..|s| - 1] == s[..|s| - 1][i := s[i] + c];
      SumBump(s[..|s| - 1], i, c);
    }
  }

  /** Scattering raises the total by exactly the sum of the values at valid indices. */
  lemma {:induction false} ScatterTotal(data: seq<real>, idx: seq<int>, vals: seq<real>)
    requires |vals| == |idx|
    ensures Samples.Sum(Scatter(data, idx, vals)) == Samples.Sum(data) + ValidSum(|data|, idx, vals)
    decreases |idx|
  {
    if |idx| > 0 {
      var d := Scatter(data, idx[..|idx| - 1], vals[..|idx| - 1]);
      ScatterTotal(data, idx[..|idx| - 1], vals[..|idx| - 1]);
      var i := idx[|idx| - 1];
      if InRange(|data|, i) {
        SumBump(d, i, vals[|idx| - 1]);
      }
    }
  }

  // ---------------------------------------------------------------------------------------
  // The operations

  /** `_BinnedData(n_bins)`: `n_bins` zeroed bins; a negative count is refused. */
  function NewBins(n: int): (r: Result<seq<real>>)
    ensures r.Success? <==> n >= 0
    ensures r.Failure? ==> r.error == InvalidArgument
    ensures r.Success? ==> |r.value| == n && Samples.Sum(r.value) == 0.0
    ensures r.Success? ==> forall b :: 0 <= b < n ==> r.value[b] == 0.0
  {
    if n < 0 then Failure(InvalidArgument)
    else
      Samples.SumConst(n, 0.0);
      Success(Samples.Const(n, 0.0))
  }

  /** `cnt_n_chked(inds)`: each valid index adds one to its bin, once per occurrence. */
  function CountChecked(data: seq<real>, idx: seq<int>): (r: seq<real>)
    ensures |r| == |data|
    ensures forall b :: 0 <= b < |data| ==> r[b] == data[b] + Hits(idx, b) as real
  {
    var r := Scatter(data, idx, Samples.Const(|idx|, 1.0));
    forall b | 0 <= b < |data|
      ensures r[b] == data[b] + Hits(idx, b) as real
    {
      BinSumOnes(idx, b);
    }
    r
  }

  /** `add_n_chked(inds, vals)`: each valid index adds its value to its bin. Index and value
      arrays of different lengths do not broadcast. */
  function AddChecked(data: seq<real>, idx: seq<int>, vals: seq<real>): (r: Result<seq<real>>)
    ensures r.Success? <==> |vals| == |idx|
    ensures r.Failure? ==> r.error == ShapeMismatch
    ensures r.Success? ==> |r.value| == |data|
    ensures r.Success? ==> forall b :: 0 <= b < |data| ==> r.value[b] == data[b] + BinSum(idx, vals, b)
  {
    if |vals| != |idx| then Failure(ShapeMismatch) else Success(Scatter(data, idx, vals))
  }

  // ---------------------------------------------------------------------------------------
  // Properties

  /** Counting raises the total by exactly the number of valid indices. */
  lemma CountTotal(data: seq<real>, idx: seq<int>)
    ensures Samples.Sum(CountChecked(data, idx)) == Samples.Sum(data) + ValidCount(|data|, idx) as real
  {
    ScatterTotal(data, idx, Samples.Const(|idx|, 1.0));
    ValidSumOnes(|data|, idx);
  }

  /** Adding raises the total by exactly the sum of the values at valid indices. */
  lemma AddTotal(data: seq<real>, idx: seq<int>, vals: seq<real>)
    requires |vals| == |idx|
    ensures Samples.Sum(AddChecked(data, idx, vals).value) == Samples.Sum(data) + ValidSum(|data|, idx, vals)
  {
    ScatterTotal(data, idx, vals);
  }

  /** `k` successive `cnt_n_chked` calls with the same indices. */
  function CountTimes(data: seq<real>, idx: seq<int>, k: nat): (r: seq<real>)
    ensures |r| == |data|
  {
    if k == 0 then data else CountChecked(CountTimes(data, idx, k - 1), idx)
  }

  /** `k` successive `add_n_chked` calls with the same indices and values. */
  function AddTimes(data: seq<real>, idx: seq<int>, vals: seq<real>, k: nat): (r: seq<real>)
    requires |vals| == |idx|
    ensures |r| == |data|
  {
    if k == 0 then data else Scatter(AddTimes(data, idx, vals, k - 1), idx, vals)
  }

  /** One more call adding `v` to a total that had k - 1 times `v` added. */
  lemma AccumulateStep(k: nat, v: real, start: real, prev: real, next: real)
    requires k > 0 && prev == start + (k - 1) as real * v && next == prev + v
    ensures next == start + k as real * v
  {
  }

  /** Each of `k` counting calls raises the total by the valid count `v`. */
  lemma {:induction false} CountTimesTotal(data: seq<real>, idx: seq<int>, k: nat, v: real)
    requires v == ValidCount(|data|, idx) as real
    ensures Samples.Sum(CountTimes(data, idx, k)) == Samples.Sum(data) + k as real * v
    decreases k
  {
    if k > 0 {
      var prev := CountTimes(data, idx, k - 1);
      CountTimesTotal(data, idx, k - 1, v);
      CountTotal(prev, idx);
      AccumulateStep(k, v, Samples.Sum(data), Samples.Sum(prev), Samples.Sum(CountTimes(data, idx, k)));
    }
  }

  /** The k-th adding call raises the total by the valid sum. */
  lemma AddTimesStep(data: seq<real>, idx: seq<int>, vals: seq<real>, k: nat)
    requires |vals| == |idx| && k > 0
    ensures Samples.Sum(AddTimes(data, idx, vals, k))
            == Samples.Sum(AddTimes(data, idx, vals, k - 1)) + ValidSum(|data|, idx, vals)
  {
    ScatterTotal(AddTimes(data, idx, vals, k - 1), idx, vals);
  }

  /** Each of `k` adding calls raises the total by the valid sum `v`. */
  lemma {:induction false} AddTimesTotal(data: seq<real>, idx: seq<int>, vals: seq<real>, k: nat, v: real)
    requires |vals| == |idx| && v == ValidSum(|data|, idx, vals)
    ensures Samples.Sum(AddTimes(data, idx, vals, k)) == Samples.Sum(data) + k as real * v
    decreases k
  {
    if k > 0 {
      AddTimesTotal(data, idx, vals, k - 1, v);
      AddTimesStep(data, idx, vals, k);
      AccumulateStep(k, v, Samples.Sum(data),
                     Samples.Sum(AddTimes(data, idx, vals, k - 1)), Samples.Sum(AddTimes(data, idx, vals, k)));
    }
  }

  /** From n bins that sum to zero, `k` counting calls leave k times the valid count. */
  lemma {:induction false} CountFromZero(n: nat, data: seq<real>, idx: seq<int>, k: nat)
    requires |data| == n && Samples.Sum(data) == 0.0
    ensures Samples.Sum(CountTimes(data, idx, k)) == k as real * ValidCount(n, idx) as real
  {
    CountTimesTotal(data, idx, k, ValidCount(n, idx) as real);
  }

  /** From n bins that sum to zero, `k` adding calls leave k times the valid sum. */
  lemma {:induction false} AddFromZero(n: nat, data: seq<real>, idx: seq<int>, vals: seq<real>, k: nat)
    requires |vals| == |idx| && |data| == n && Samples.Sum(data) == 0.0
    ensures Samples.Sum(AddTimes(data, idx, vals, k)) == k as real * ValidSum(n, idx, vals)
  {
    AddTimesTotal(data, idx, vals, k, ValidSum(n, idx, vals));
  }

  /** After `k` counting calls on fresh bins, the total is k times the valid count. */
  lemma {:induction false} RepeatedCount(n: nat, bins: seq<real>, idx: seq<int>, k: nat)
    requires NewBins(n) == Success(bins)
    ensures Samples.Sum(CountTimes(bins, idx, k)) == k as real * ValidCount(n, idx) as real
  {
    FreshBinsEmpty(n, bins);
    CountFromZero(n, bins, idx, k);
  }

  /** After `k` adding calls on fresh bins, the total is k times the valid sum. */
  lemma {:induction false} RepeatedAdd(n: nat, bins: seq<real>, idx: seq<int>, vals: seq<real>, k: nat)
    requires NewBins(n) == Success(bins) && |vals| == |idx|
    ensures Samples.Sum(AddTimes(bins, idx, vals, k)) == k as real * ValidSum(n, idx, vals)
  {
    FreshBinsEmpty(n, bins);
    AddFromZero(n, bins, idx, vals, k);
  }

  /** Fresh bins: n of them, summing to zero. */
  lemma FreshBinsEmpty(n: nat, bins: seq<real>)
    requires NewBins(n) == Success(bins)
    ensures |bins| == n && Samples.Sum(bins) == 0.0
  {
  }

  /** No index is valid for zero bins: both operations accept anything and change nothing. */
  lemma {:induction false} NoBins(idx: seq<int>, vals: seq<real>)
    requires |vals| == |idx|
    ensures NewBins(0) == Success([])
    ensures ValidCount(0, idx) == 0 && ValidSum(0, idx, vals) == 0.0
    ensures CountChecked([], idx) == [] && AddChecked([], idx, vals) == Success([])
    decreases |idx|
  {
    if |idx| > 0 {
      NoBins(idx[..|idx| - 1], vals[..|idx| - 1]);
    }
  }

  /** A repeated index counts every time it occurs, and an out-of-range one is dropped. */
  lemma DuplicatesAccumulate(data: seq<real>, b: nat)
    requires b < |data|
    ensures CountChecked(data, [b, b, |data|, -1])[b] == data[b] + 2.0
    ensures CountChecked(data, [b, b, |data|, -1]) == data[b := data[b] + 2.0]
  {
    var idx := [b, b, |data|, -1];
    assert multiset(idx)[b] == 2;
    var r := CountChecked(data, idx);
    forall j | 0 <= j < |data| && j != b
      ensures r[j] == data[j]
    {
      assert multiset(idx)[j] == 0;
    }
  }

  // ---------------------------------------------------------------------------------------
  // The accumulator object

  /** `_BinnedData` holding its bins in an array, updated in place. */
  class BinnedData {
    var data: array<real>

    constructor(n: nat)
      ensures fresh(data)
      ensures NBins() == n
      ensures data[..] == NewBins(n).value
    {
      data := new real[n](i => 0.0);
    }

    /** `n_bins()`. */
    function NBins(): nat
      reads this
    {
      data.Length
    }

    /** `cnt_n_chked(inds)` in place. */
    method CntNChked(idx: seq<int>)
      modifies data
      ensures data[..] == CountChecked(old(data[..]), idx)
    {
      ghost var d0 := data[..];
      var k := 0;
      while k < |idx|
        invariant 0 <= k <= |idx|
        invariant data[..] == Scatter(d0, idx[..k], Samples.Const(k, 1.0))
      {
        assert idx[..k + 1][..k] == idx[..k];
        assert Samples.Const(k + 1, 1.0)[..k] == Samples.Const(k, 1.0);
        var i := idx[k];
        if 0 <= i < data.Length {
          data[i] := data[i] + 1.0;
        }
        k := k + 1;
      }
      assert idx[..|idx|] == idx;
    }

    /** `add_n_chked(inds, vals)` in place; mismatched lengths leave the bins untouched. */
    method AddNChked(idx: seq<int>, vals: seq<real>) returns (r: Result<()>)
      modifies data
      ensures r.Success? <==> |vals| == |idx|
      ensures r.Success? ==> data[..] == AddChecked(old(data[..]), idx, vals).value
      ensures r.Failure? ==> data[..] == old(data[..])
    {
      if |vals| != |idx| {
        return Failure(ShapeMismatch);
      }
      ghost var d0 := data[..];
      var k := 0;
      while k < |idx|
        invariant 0 <= k <= |idx|
        invariant data[..] == Scatter(d0, idx[..k], vals[..k])
      {
        assert idx[..k + 1][..k] == idx[..k];
        assert vals[..k + 1][..k] == vals[..k];
        var i := idx[k];
        if 0 <= i < data.Length {
          data[i] := data[i] + vals[k];
        }
        k := k + 1;
      }
      assert idx[..|idx|] == idx && vals[..|vals|] == vals;
      r := Success(());
    }
  }

  /** `_BinnedData(n_bins)` as an object; a negative count is refused. */
  method NewBinnedData(n: int) returns (r: Result<BinnedData>)
    ensures r.Success? <==> n >= 0
    ensures r.Success? ==> fresh(r.value) && fresh(r.value.data)
    ensures r.Success? ==> r.value.data[..] == NewBins(n).value
  {
    if n < 0 {
      return Failure(InvalidArgument);
    }
    var b := new BinnedData(n);
    return Success(b);
  }

  /** The tests' pattern: a new accumulator, counted into once; its bins are the fresh
      bins counted by `CountChecked`, and a second accumulator made alongside is untouched. */
  method CountIntoNew(n: nat, idx: seq<int>) returns (bins: seq<real>, other: seq<real>)
    ensures bins == CountChecked(NewBins(n).value, idx)
    ensures other == NewBins(n).value
  {
    var a := new BinnedData(n);
    var b := new BinnedData(n);
    a.CntNChked(idx);
    bins := a.data[..];
    other := b.data[..];
  }
}
