/** Exact-arithmetic building blocks for one-dimensional samples: sums, weighted sums,
    normalisation, mean and population variance, sorting, `np.interp` and numpy's default
    ("linear") quantile. Floating-point rounding is not modelled: every number is a `real`.
 */
module Samples {

  // ---------------------------------------------------------------------------------------
  // Sums

  /** Σ xs. */
  function Sum(xs: seq<real>): real
  {
    if |xs| == 0 then 0.0 else Sum(xs[..|xs| - 1]) + xs[|xs| - 1]
  }

  lemma {:induction false} SumConcat(a: seq<real>, b: seq<real>)
    ensures Sum(a + b) == Sum(a) + Sum(b)
    decreases |b|
  {
    if |b| == 0 {
      assert a + b == a;
    } else {
      assert (a + b)[..|a + b| - 1] == a + b[..|b| - 1];
      SumConcat(a, b[..|b| - 1]);
    }
  }

  lemma SumPrefixStep(xs: seq<real>, i: nat)
    requires i < |xs|
    ensures Sum(xs[..i + 1]) == Sum(xs[..i]) + xs[i]
  {
    assert xs[..i + 1][..i] == xs[..i];
  }

  lemma {:induction false} SumNonNegative(xs: seq<real>)
    requires forall i :: 0 <= i < |xs| ==> 0.0 <= xs[i]
    ensures 0.0 <= Sum(xs)
    decreases |xs|
  {
    if |xs| > 0 {
      SumNonNegative(xs[..|xs| - 1]);
    }
  }

  /** Σ xs[i] * ws[i], numpy's `(x * w).sum()` for arrays of one shape. */
  function Dot(xs: seq<real>, ws: seq<real>): real
    requires |xs| == |ws|
  {
    if |xs| == 0 then 0.0
    else Dot(xs[..|xs| - 1], ws[..|ws| - 1]) + xs[|xs| - 1] * ws[|ws| - 1]
  }

  /** `ws / c`, element by element. */
  function Scale(ws: seq<real>, c: real): (r: seq<real>)
    requires c != 0.0
    ensures |r| == |ws|
  {
    seq(|ws|, i requires 0 <= i < |ws| => ws[i] / c)
  }

  /** A sequence of `n` copies of `c`. */
  function Const(n: nat, c: real): (r: seq<real>)
    ensures |r| == n
  {
    seq(n, i => c)
  }

  lemma {:induction false} SumScale(ws: seq<real>, c: real)
    requires c != 0.0
    ensures Sum(Scale(ws, c)) == Sum(ws) / c
    decreases |ws|
  {
    if |ws| > 0 {
      assert Scale(ws, c)[..|ws| - 1] == Scale(ws[..|ws| - 1], c);
      SumScale(ws[..|ws| - 1], c);
    }
  }

  lemma {:induction false} DotScale(xs: seq<real>, ws: seq<real>, c: real)
    requires |xs| == |ws| && c != 0.0
    ensures Dot(xs, Scale(ws, c)) == Dot(xs, ws) / c
    decreases |xs|
  {
    if |xs| > 0 {
      var n := |xs| - 1;
      assert Scale(ws, c)[..n] == Scale(ws[..n], c);
      DotScale(xs[..n], ws[..n], c);
      assert xs[n] * (ws[n] / c) == (xs[n] * ws[n]) / c;
    }
  }

  lemma {:induction false} SumConst(n: nat, c: real)
    ensures Sum(Const(n, c)) == n as real * c
    decreases n
  {
    if n > 0 {
      assert Const(n, c)[..n - 1] == Const(n - 1, c);
      SumConst(n - 1, c);
    }
  }

  lemma {:induction false} DotConst(xs: seq<real>, c: real)
    ensures Dot(xs, Const(|xs|, c)) == c * Sum(xs)
    decreases |xs|
  {
    if |xs| > 0 {
      assert Const(|xs|, c)[..|xs| - 1] == Const(|xs| - 1, c);
      DotConst(xs[..|xs| - 1], c);
    }
  }

  /** `w / w.sum()`: the weights rescaled so that they sum to one, each in proportion. */
  function Normalize(ws: seq<real>): (r: seq<real>)
    requires Sum(ws) != 0.0
    ensures |r| == |ws|
    ensures Sum(r) == 1.0
    ensures forall i :: 0 <= i < |ws| ==> r[i] * Sum(ws) == ws[i]
  {
    SumScale(ws, Sum(ws));
    assert Sum(ws) / Sum(ws) == 1.0;
    Scale(ws, Sum(ws))
  }

  /** Normalising is insensitive to a common positive factor on the weights. */
  lemma NormalizeScaleInvariant(ws: seq<real>, c: real)
    requires Sum(ws) != 0.0 && c != 0.0
    ensures Sum(Scale(ws, c)) != 0.0
    ensures Normalize(Scale(ws, c)) == Normalize(ws)
  {
    SumScale(ws, c);
    var a := Normalize(Scale(ws, c));
    var b := Normalize(ws);
    forall i | 0 <= i < |ws|
      ensures a[i] == b[i]
    {
      assert a[i] == (ws[i] / c) / (Sum(ws) / c);
    }
  }

  /** Normalising already normalised weights changes nothing. */
  lemma NormalizeIdempotent(ws: seq<real>)
    requires Sum(ws) != 0.0
    ensures Sum(Normalize(ws)) != 0.0
    ensures Normalize(Normalize(ws)) == Normalize(ws)
  {
    var a := Normalize(Normalize(ws));
    var b := Normalize(ws);
    forall i | 0 <= i < |ws|
      ensures a[i] == b[i]
    {
      assert a[i] == b[i] / 1.0;
    }
  }

  /** np.cumsum: entry i is the sum of the first i + 1 entries. */
  function CumSum(ws: seq<real>): (r: seq<real>)
    ensures |r| == |ws|
  {
    seq(|ws|, i requires 0 <= i < |ws| => Sum(ws[..i + 1]))
  }

  /** The running total starts at the first weight and adds one weight per entry. */
  lemma CumSumRecurrence(ws: seq<real>)
    ensures |ws| > 0 ==> CumSum(ws)[0] == ws[0]
    ensures forall i :: 0 < i < |ws| ==> CumSum(ws)[i] == CumSum(ws)[i - 1] + ws[i]
  {
    var c := CumSum(ws);
    if |ws| > 0 {
      SumPrefixStep(ws, 0);
      assert ws[..0] == [];
    }
    forall i | 0 < i < |ws|
      ensures c[i] == c[i - 1] + ws[i]
    {
      SumPrefixStep(ws, i);
    }
  }

  lemma CumSumLast(ws: seq<real>)
    requires |ws| > 0
    ensures CumSum(ws)[|ws| - 1] == Sum(ws)
  {
    assert ws[..|ws|] == ws;
  }

  lemma {:induction false} CumSumNonDecreasing(ws: seq<real>)
    requires forall i :: 0 <= i < |ws| ==> 0.0 <= ws[i]
    ensures NonDecreasing(CumSum(ws))
  {
    var c := CumSum(ws);
    forall i, j | 0 <= i < j < |c|
      ensures c[i] <= c[j]
    {
      assert ws[..j + 1] == ws[..i + 1] + ws[i + 1..j + 1];
      SumConcat(ws[..i + 1], ws[i + 1..j + 1]);
      SumNonNegative(ws[i + 1..j + 1]);
    }
  }

  // ---------------------------------------------------------------------------------------
  // Moments and extremes

  /** The arithmetic mean, numpy's `x.mean()`. */
  function Mean(xs: seq<real>): real
    requires |xs| > 0
  {
    Sum(xs) / |xs| as real
  }

  /** (x - m) ** 2, element by element. */
  function SquaredDeviations(xs: seq<real>, m: real): (r: seq<real>)
    ensures |r| == |xs|
    ensures forall i :: 0 <= i < |xs| ==> 0.0 <= r[i]
  {
    seq(|xs|, i requires 0 <= i < |xs| => Square(xs[i] - m))
  }

  function Square(x: real): (r: real)
    ensures 0.0 <= r
  {
    if x < 0.0 then (-x) * (-x) else x * x
  }

  /** The population variance (divide by N): the square of numpy's `x.std()`. */
  function PopVariance(xs: seq<real>): (v: real)
    requires |xs| > 0
    ensures 0.0 <= v
  {
    SumNonNegative(SquaredDeviations(xs, Mean(xs)));
    Mean(SquaredDeviations(xs, Mean(xs)))
  }

  /** A number known exactly, or as the non-negative square root of a known number: Dafny's
      reals have no square root, so numpy's `np.sqrt` is kept symbolic. */
  datatype Num = Exact(value: real) | Root(radicand: real)

  /** `n` stands for the real `r`. */
  ghost predicate Denotes(n: Num, r: real)
  {
    match n
    case Exact(v) => r == v
    case Root(v) => 0.0 <= r && r * r == v
  }

  /** The population standard deviation, numpy's `x.std()`. */
  function StdDev(xs: seq<real>): (r: Num)
    requires |xs| > 0
    ensures r.Root? && 0.0 <= r.radicand
    ensures forall s :: Denotes(r, s) ==> 0.0 <= s && s * s == PopVariance(xs)
  {
    Root(PopVariance(xs))
  }

  function Min(xs: seq<real>): (m: real)
    requires |xs| > 0
    ensures m in xs
    ensures forall i :: 0 <= i < |xs| ==> m <= xs[i]
  {
    if |xs| == 1 then xs[0]
    else
      var r := Min(xs[..|xs| - 1]);
      if xs[|xs| - 1] < r then xs[|xs| - 1] else r
  }

  function Max(xs: seq<real>): (m: real)
    requires |xs| > 0
    ensures m in xs
    ensures forall i :: 0 <= i < |xs| ==> xs[i] <= m
  {
    if |xs| == 1 then xs[0]
    else
      var r := Max(xs[..|xs| - 1]);
      if xs[|xs| - 1] > r then xs[|xs| - 1] else r
  }

  // ---------------------------------------------------------------------------------------
  // Sorting

  predicate NonDecreasing(s: seq<real>)
  {
    forall i, j :: 0 <= i < j < |s| ==> s[i] <= s[j]
  }

  predicate SortedBy<T>(key: T -> real, s: seq<T>)
  {
    forall i, j :: 0 <= i < j < |s| ==> key(s[i]) <= key(s[j])
  }

  /** Inserts `a` into the sorted `s`, in front of the first element whose key is not smaller. */
  function Insert<T>(key: T -> real, a: T, s: seq<T>): (r: seq<T>)
    requires SortedBy(key, s)
    ensures multiset(r) == multiset(s) + multiset{a}
    ensures SortedBy(key, r)
    ensures |s| > 0 ==> r[0] == a || r[0] == s[0]
    decreases |s|
  {
    if |s| == 0 then [a]
    else if key(a) <= key(s[0]) then [a] + s
    else
      assert s == [s[0]] + s[1..];
      [s[0]] + Insert(key, a, s[1..])
  }

  /** A stable insertion sort by `key`: a permutation of `s` in non-decreasing key order. */
  function SortBy<T>(key: T -> real, s: seq<T>): (r: seq<T>)
    ensures multiset(r) == multiset(s)
    ensures |r| == |s|
    ensures SortedBy(key, r)
    decreases |s|
  {
    if |s| == 0 then []
    else
      assert s == [s[0]] + s[1..];
      Insert(key, s[0], SortBy(key, s[1..]))
  }

  function Id(x: real): real
  {
    x
  }

  /** np.sort. */
  function Sort(xs: seq<real>): (r: seq<real>)
    ensures multiset(r) == multiset(xs)
    ensures |r| == |xs|
    ensures NonDecreasing(r)
  {
    var r := SortBy(Id, xs);
    assert forall i, j :: 0 <= i < j < |r| ==> Id(r[i]) <= Id(r[j]);
    r
  }

  /** Every entry of a rearrangement of `xs` lies between the extremes of `xs`. */
  lemma PermutationWithin(xs: seq<real>, r: seq<real>)
    requires |xs| > 0 && multiset(r) == multiset(xs)
    ensures forall i :: 0 <= i < |r| ==> Min(xs) <= r[i] <= Max(xs)
  {
    forall i | 0 <= i < |r|
      ensures Min(xs) <= r[i] <= Max(xs)
    {
      assert r[i] in multiset(r);
      assert r[i] in xs;
    }
  }

  // ---------------------------------------------------------------------------------------
  // Piecewise-linear interpolation (np.interp)

  /** The straight line through (x0, a) and (x1, b) evaluated at p, in numpy's slope form. */
  function Lerp(p: real, x0: real, x1: real, a: real, b: real): real
    requires x0 < x1
  {
    a + (b - a) / (x1 - x0) * (p - x0)
  }

  lemma MulNonNegative(x: real, y: real)
    requires 0.0 <= x && 0.0 <= y
    ensures 0.0 <= x * y
  {
  }

  lemma MulMono(s: real, u: real, v: real)
    requires 0.0 <= s && u <= v
    ensures s * u <= s * v
  {
    MulNonNegative(s, v - u);
  }

  lemma DivNonNegative(m: real, d: real)
    requires 0.0 <= m && 0.0 < d
    ensures 0.0 <= m / d
  {
  }

  lemma DivNonPositive(m: real, d: real)
    requires m <= 0.0 && 0.0 < d
    ensures m / d <= 0.0
  {
  }

  lemma MulAntitone(s: real, u: real, v: real)
    requires s <= 0.0 && u <= v
    ensures s * v <= s * u
  {
    MulNonNegative(-s, v - u);
  }

  lemma LerpBetween(p: real, x0: real, x1: real, a: real, b: real)
    requires x0 <= p <= x1 && x0 < x1
    ensures a <= b ==> a <= Lerp(p, x0, x1, a, b) <= b
    ensures b <= a ==> b <= Lerp(p, x0, x1, a, b) <= a
  {
    var s := (b - a) / (x1 - x0);
    assert s * (x1 - x0) == b - a;
    if a <= b {
      DivNonNegative(b - a, x1 - x0);
      MulMono(s, 0.0, p - x0);
      MulMono(s, p - x0, x1 - x0);
    } else {
      DivNonPositive(b - a, x1 - x0);
      MulAntitone(s, 0.0, p - x0);
      MulAntitone(s, p - x0, x1 - x0);
    }
  }

  lemma LerpMonotone(p1: real, p2: real, x0: real, x1: real, a: real, b: real)
    requires x0 < x1 && p1 <= p2 && a <= b
    ensures Lerp(p1, x0, x1, a, b) <= Lerp(p2, x0, x1, a, b)
  {
    DivNonNegative(b - a, x1 - x0);
    MulMono((b - a) / (x1 - x0), p1 - x0, p2 - x0);
  }

  /** The largest index j < k with xp[j] <= p, or -1 when there is none. */
  function LastAtMost(xp: seq<real>, p: real, k: nat): (j: int)
    requires k <= |xp|
    ensures -1 <= j < k
    ensures 0 <= j ==> xp[j] <= p
    ensures forall i :: j < i < k ==> p < xp[i]
  {
    if k == 0 then -1
    else if xp[k - 1] <= p then k - 1
    else LastAtMost(xp, p, k - 1)
  }

  lemma {:induction false} LastAtMostFound(xp: seq<real>, p: real, k: nat)
    requires 0 < k <= |xp| && xp[0] <= p
    ensures 0 <= LastAtMost(xp, p, k)
    decreases k
  {
    if xp[k - 1] > p {
      LastAtMostFound(xp, p, k - 1);
    }
  }

  /** np.interp(p, xp, fp) with numpy's default end values: fp[0] left of xp[0], fp[n - 1] at
      and right of xp[n - 1], and in between the line through the two sample points that
      bracket p. For increasing xp this is numpy's binary search; on a decreasing stretch
      numpy's choice of bracket is unspecified and the model takes the last one. */
  function Interp(p: real, xp: seq<real>, fp: seq<real>): (r: real)
    requires 0 < |xp| == |fp|
    ensures xp[0] <= xp[|xp| - 1] <= p ==> r == fp[|fp| - 1]
    ensures p < xp[0] <= xp[|xp| - 1] ==> r == fp[0]
  {
    var n := |xp|;
    if p > xp[n - 1] then fp[n - 1]
    else if p < xp[0] then fp[0]
    else if p == xp[n - 1] then fp[n - 1]
    else
      LastAtMostFound(xp, p, n - 1);
      var j := LastAtMost(xp, p, n - 1);
      Lerp(p, xp[j], xp[j + 1], fp[j], fp[j + 1])
  }

  /** An interpolated value never leaves the range of the sample values. */
  lemma InterpWithin(p: real, xp: seq<real>, fp: seq<real>, lo: real, hi: real)
    requires 0 < |xp| == |fp|
    requires forall i :: 0 <= i < |fp| ==> lo <= fp[i] <= hi
    ensures lo <= Interp(p, xp, fp) <= hi
  {
    var n := |xp|;
    if !(p > xp[n - 1]) && !(p < xp[0]) && p != xp[n - 1] {
      var j := LastAtMost(xp, p, n - 1);
      LerpBetween(p, xp[j], xp[j + 1], fp[j], fp[j + 1]);
    }
  }

  /** With non-decreasing sample values, the interpolant is non-decreasing in p. */
  lemma InterpMonotone(p1: real, p2: real, xp: seq<real>, fp: seq<real>)
    requires 0 < |xp| == |fp|
    requires NonDecreasing(fp)
    requires p1 <= p2
    ensures Interp(p1, xp, fp) <= Interp(p2, xp, fp)
  {
    var n := |xp|;
    InterpWithin(p1, xp, fp, fp[0], fp[n - 1]);
    InterpWithin(p2, xp, fp, fp[0], fp[n - 1]);
    if p1 > xp[n - 1] || p2 > xp[n - 1] || p2 == xp[n - 1] {
    } else if p1 < xp[0] {
    } else if p1 == xp[n - 1] {
    } else {
      var j1 := LastAtMost(xp, p1, n - 1);
      var j2 := LastAtMost(xp, p2, n - 1);
      assert j1 <= j2;
      if j1 == j2 {
        LerpMonotone(p1, p2, xp[j1], xp[j1 + 1], fp[j1], fp[j1 + 1]);
      } else {
        LerpBetween(p1, xp[j1], xp[j1 + 1], fp[j1], fp[j1 + 1]);
        LerpBetween(p2, xp[j2], xp[j2 + 1], fp[j2], fp[j2 + 1]);
      }
    }
  }

  // ---------------------------------------------------------------------------------------
  // Quantiles

  /** 0.0, 1.0, ..., n - 1: the positions of the order statistics. */
  function Iota(n: nat): (r: seq<real>)
    ensures |r| == n
  {
    seq(n, i => i as real)
  }

  /** The value of the sorted sample `s` at the fractional position h: linear interpolation
      between the order statistics s[floor(h)] and s[floor(h) + 1]. */
  function OrderStatistic(s: seq<real>, h: real): real
    requires |s| > 0 && 0.0 <= h <= (|s| - 1) as real
  {
    var lo := h.Floor;
    if lo + 1 < |s| then s[lo] + (h - lo as real) * (s[lo + 1] - s[lo]) else s[|s| - 1]
  }

  /** numpy's virtual index (n - 1) p for the "linear" method. */
  function VirtualIndex(n: nat, p: real): (h: real)
    requires 0 < n && 0.0 <= p <= 1.0
    ensures 0.0 <= h <= (n - 1) as real
  {
    MulNonNegative((n - 1) as real, p);
    MulMono((n - 1) as real, p, 1.0);
    (n - 1) as real * p
  }

  lemma VirtualIndexMonotone(n: nat, p1: real, p2: real)
    requires 0 < n && 0.0 <= p1 <= p2 <= 1.0
    ensures VirtualIndex(n, p1) <= VirtualIndex(n, p2)
  {
    MulMono((n - 1) as real, p1, p2);
  }

  /** numpy's default ("linear") quantile, np.quantile(xs, p). */
  function LinearQuantile(xs: seq<real>, p: real): (r: real)
    requires |xs| > 0 && 0.0 <= p <= 1.0
    ensures |xs| == 1 ==> r == xs[0]
  {
    if |xs| == 1 then
      assert Sort(xs)[0] in multiset(Sort(xs));
      OrderStatistic(Sort(xs), VirtualIndex(|xs|, p))
    else
      OrderStatistic(Sort(xs), VirtualIndex(|xs|, p))
  }

  /** The order-statistic formula is np.interp over the positions 0 .. n - 1. */
  lemma OrderStatisticIsInterp(s: seq<real>, h: real)
    requires |s| > 0 && 0.0 <= h <= (|s| - 1) as real
    ensures OrderStatistic(s, h) == Interp(h, Iota(|s|), s)
  {
    var n := |s|;
    var lo := h.Floor;
    var xp := Iota(n);
    if h != (n - 1) as real {
      LastAtMostFound(xp, h, n - 1);
      var j := LastAtMost(xp, h, n - 1);
      assert j <= lo;
      assert xp[lo] <= h;
      assert j == lo;
      assert xp[j + 1] - xp[j] == 1.0;
    }
  }

  /** A quantile lies between the sample's minimum and maximum. */
  lemma LinearQuantileWithin(xs: seq<real>, p: real)
    requires |xs| > 0 && 0.0 <= p <= 1.0
    ensures Min(xs) <= LinearQuantile(xs, p) <= Max(xs)
  {
    var h := VirtualIndex(|xs|, p);
    OrderStatisticIsInterp(Sort(xs), h);
    PermutationWithin(xs, Sort(xs));
    InterpWithin(h, Iota(|xs|), Sort(xs), Min(xs), Max(xs));
  }

  /** Quantiles are non-decreasing in the probability level. */
  lemma LinearQuantileMonotone(xs: seq<real>, p1: real, p2: real)
    requires |xs| > 0 && 0.0 <= p1 <= p2 <= 1.0
    ensures LinearQuantile(xs, p1) <= LinearQuantile(xs, p2)
  {
    var s := Sort(xs);
    var h1 := VirtualIndex(|xs|, p1);
    var h2 := VirtualIndex(|xs|, p2);
    VirtualIndexMonotone(|xs|, p1, p2);
    OrderStatisticIsInterp(s, h1);
    OrderStatisticIsInterp(s, h2);
    InterpMonotone(h1, h2, Iota(|xs|), s);
    assert LinearQuantile(xs, p1) == OrderStatistic(s, h1);
    assert LinearQuantile(xs, p2) == OrderStatistic(s, h2);
  }
}
