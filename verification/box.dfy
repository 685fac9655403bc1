/** The periodic cubic box of `pyhipp.field.cubic_box`: coordinates wrapped back into the
    box, or shifted by one box length towards a reference point.

    Both box classes apply the same rules element by element. An array of coordinates is
    given flat, in row-major order, together with the length k of its last axis (for a 1-D
    array, its length). A reference broadcasts against it as numpy does: a single value
    against anything, a point of shape (k,) against positions of shape (N, k), or equal
    shapes.
 */
module CubicBox {
  import opened Wrappers
  import Abc

  /** The jitted `_PeriodicBox` and the plain `PeriodicBox`; only the first has `shift_to`. */
  datatype Box = JitBox(lBox: real) | PyBox(lBox: real)

  /** `a` and `b` differ by at most one whole box length. */
  predicate OneWrap(a: real, b: real, l: real)
  {
    a - b == 0.0 || a - b == l || a - b == -l
  }

  // ---------------------------------------------------------------------------------------
  // ishift_in

  /** One coordinate after the two masked updates of `ishift_in`: `+l` where negative, then
      `-l` where (now) at least `l`. */
  function WrapIn(l: real, x: real): (y: real)
    ensures OneWrap(y, x, l)
    ensures 0.0 <= y < l <==> -l <= x < 2.0 * l
    ensures 0.0 <= x < l ==> y == x
  {
    var u := if x < 0.0 then x + l else x;
    if u >= l then u - l else u
  }

  /** The array contents after `ishift_in`'s two in-place updates, before its asserts. */
  function WrappedIn(l: real, xs: seq<real>): (ys: seq<real>)
    ensures |ys| == |xs|
    ensures forall i :: 0 <= i < |xs| ==> ys[i] == WrapIn(l, xs[i])
  {
    seq(|xs|, i requires 0 <= i < |xs| => WrapIn(l, xs[i]))
  }

  /** Every coordinate lies in [0, l). */
  predicate InBox(l: real, xs: seq<real>)
  {
    forall i :: 0 <= i < |xs| ==> 0.0 <= xs[i] < l
  }

  /** `box.ishift_in(x)`: the wrapped coordinates, or the failure of its closing asserts. */
  function ShiftIn(box: Box, xs: seq<real>): (r: Result<seq<real>>)
    ensures r.Success? <==> forall i :: 0 <= i < |xs| ==> -box.lBox <= xs[i] < 2.0 * box.lBox
    ensures r.Failure? ==> r.error == AssertionFailed
    ensures r.Success? ==> |r.value| == |xs| && InBox(box.lBox, r.value)
    ensures r.Success? ==> forall i :: 0 <= i < |xs| ==> OneWrap(r.value[i], xs[i], box.lBox)
    ensures r.Success? ==> forall i :: 0 <= i < |xs| && 0.0 <= xs[i] < box.lBox ==> r.value[i] == xs[i]
  {
    var ys := WrappedIn(box.lBox, xs);
    if InBox(box.lBox, ys) then Success(ys) else Failure(AssertionFailed)
  }

  // ---------------------------------------------------------------------------------------
  // ishift_to and shift_to

  /** `xs` holds an array whose last axis has length `k`, flattened in row-major order. */
  predicate LastAxis(xs: seq<real>, k: nat)
  {
    if k == 0 then |xs| == 0 else |xs| % k == 0
  }

  /** numpy's broadcasting of `x_ref` against `x` in `x - x_ref`: a single value, a point
      along the last axis of `x`, or the shape of `x` itself. */
  predicate Broadcasts(xs: seq<real>, k: nat, refs: seq<real>)
  {
    LastAxis(xs, k) && (|refs| == |xs| || |refs| == 1 || |refs| == k)
  }

  /** The flat layout a broadcast reference has: the same length, or rows of `|refs|`
      coordinates. */
  predicate RowMajorFits(xs: seq<real>, refs: seq<real>)
  {
    |refs| == |xs| || (|refs| > 0 && |xs| % |refs| == 0)
  }

  /** A reference that broadcasts fits the flat layout. */
  lemma BroadcastFits(xs: seq<real>, k: nat, refs: seq<real>)
    requires Broadcasts(xs, k, refs)
    ensures RowMajorFits(xs, refs)
  {
  }

  /** The reference entry flat coordinate `i` is compared with: the same position along the
      last axis. */
  function RefAt(xs: seq<real>, refs: seq<real>, i: nat): real
    requires RowMajorFits(xs, refs) && i < |xs|
  {
    refs[i % |refs|]
  }

  /** One coordinate after the two masked updates of `ishift_to`. Both masks test the offset
      taken before either update, so a coordinate moves at most once. */
  function WrapTo(l: real, x: real, ref: real): (y: real)
    ensures OneWrap(y, x, l)
    ensures -0.5 * l <= y - ref < 0.5 * l <==> -1.5 * l <= x - ref < 1.5 * l
    ensures -0.5 * l <= x - ref < 0.5 * l ==> y == x
  {
    var half := 0.5 * l;
    var dx := x - ref;
    var u := if dx < -half then x + l else x;
    if dx >= half then u - l else u
  }

  /** The array contents after `ishift_to`'s two in-place updates, before its asserts. */
  function WrappedTo(l: real, xs: seq<real>, refs: seq<real>): (ys: seq<real>)
    requires RowMajorFits(xs, refs)
    ensures |ys| == |xs|
    ensures forall i :: 0 <= i < |xs| ==> ys[i] == WrapTo(l, xs[i], RefAt(xs, refs, i))
  {
    seq(|xs|, i requires 0 <= i < |xs| => WrapTo(l, xs[i], RefAt(xs, refs, i)))
  }

  /** Every coordinate lies within half a box length of its reference, the upper end open. */
  predicate NearRef(l: real, xs: seq<real>, refs: seq<real>)
    requires RowMajorFits(xs, refs)
  {
    forall i :: 0 <= i < |xs| ==> -0.5 * l <= xs[i] - RefAt(xs, refs, i) < 0.5 * l
  }

  /** `box.ishift_to(x, x_ref)`: the shifted coordinates, or the failure of broadcasting or of
      the closing asserts. */
  function ShiftToRef(box: Box, xs: seq<real>, k: nat, refs: seq<real>): (r: Result<seq<real>>)
    requires LastAxis(xs, k)
    ensures !Broadcasts(xs, k, refs) ==> r == Failure(ShapeMismatch)
    ensures Broadcasts(xs, k, refs) ==> RowMajorFits(xs, refs)
    ensures Broadcasts(xs, k, refs) ==>
              (r.Success? <==> forall i :: 0 <= i < |xs| ==>
                 -1.5 * box.lBox <= xs[i] - RefAt(xs, refs, i) < 1.5 * box.lBox)
    ensures r.Success? ==> Broadcasts(xs, k, refs) && |r.value| == |xs| && NearRef(box.lBox, r.value, refs)
    ensures r.Success? ==> forall i :: 0 <= i < |xs| ==> OneWrap(r.value[i], xs[i], box.lBox)
    ensures r.Success? ==>
              forall i :: 0 <= i < |xs| && -0.5 * box.lBox <= xs[i] - RefAt(xs, refs, i) < 0.5 * box.lBox ==>
                r.value[i] == xs[i]
  {
    if !Broadcasts(xs, k, refs) then Failure(ShapeMismatch)
    else
      var ys := WrappedTo(box.lBox, xs, refs);
      assert forall i :: 0 <= i < |xs| ==> RefAt(ys, refs, i) == RefAt(xs, refs, i);
      if NearRef(box.lBox, ys, refs) then Success(ys) else Failure(AssertionFailed)
  }

  /** `box.shift_to(x, x_ref)`: `ishift_to` applied to a copy. `PeriodicBox` has no such
      method, so the attribute lookup fails there. */
  function ShiftTo(box: Box, xs: seq<real>, k: nat, refs: seq<real>): (r: Result<seq<real>>)
    requires LastAxis(xs, k)
    ensures box.PyBox? ==> r == Failure(NoAttribute("shift_to"))
    ensures box.JitBox? ==> r == ShiftToRef(box, xs, k, refs)
  {
    if box.PyBox? then Failure(NoAttribute("shift_to")) else ShiftToRef(box, xs, k, refs)
  }

  // ---------------------------------------------------------------------------------------
  // The in-place methods over arrays

  /** `ishift_in` over an array: the two masked updates, then the asserts. The array is left
      updated even when an assert fails. */
  method IShiftIn(box: Box, x: array<real>) returns (ok: bool)
    modifies x
    ensures x[..] == WrappedIn(box.lBox, old(x[..]))
    ensures ok <==> ShiftIn(box, old(x[..])).Success?
  {
    ghost var xs := x[..];
    var l := box.lBox;
    var i := 0;
    while i < x.Length
      invariant 0 <= i <= x.Length
      invariant forall k :: 0 <= k < i ==> x[k] == (if xs[k] < 0.0 then xs[k] + l else xs[k])
      invariant forall k :: i <= k < x.Length ==> x[k] == xs[k]
    {
      if x[i] < 0.0 {
        x[i] := x[i] + l;
      }
      i := i + 1;
    }
    i := 0;
    while i < x.Length
      invariant 0 <= i <= x.Length
      invariant forall k :: 0 <= k < i ==> x[k] == WrapIn(l, xs[k])
      invariant forall k :: i <= k < x.Length ==> x[k] == (if xs[k] < 0.0 then xs[k] + l else xs[k])
    {
      if x[i] >= l {
        x[i] := x[i] - l;
      }
      i := i + 1;
    }
    assert x[..] == WrappedIn(l, xs);
    ok := true;
    i := 0;
    while i < x.Length
      invariant 0 <= i <= x.Length
      invariant ok <==> forall k :: 0 <= k < i ==> 0.0 <= x[k] < l
    {
      ok := ok && 0.0 <= x[i] < l;
      i := i + 1;
    }
  }

  /** `ishift_to` over an array: both masks are computed from the offsets taken first, then the
      asserts check the new offsets. The array is left updated even when an assert fails. */
  method IShiftTo(box: Box, x: array<real>, k: nat, refs: seq<real>) returns (r: Result<()>)
    requires Broadcasts(x[..], k, refs)
    modifies x
    ensures RowMajorFits(old(x[..]), refs)
    ensures x[..] == WrappedTo(box.lBox, old(x[..]), refs)
    ensures r.Success? <==> ShiftToRef(box, old(x[..]), k, refs).Success?
  {
    ghost var xs := x[..];
    BroadcastFits(xs, k, refs);
    var l := box.lBox;
    var half := 0.5 * l;
    var i := 0;
    while i < x.Length
      invariant 0 <= i <= x.Length
      invariant forall k :: 0 <= k < i ==> x[k] == WrapTo(l, xs[k], RefAt(xs, refs, k))
      invariant forall k :: i <= k < x.Length ==> x[k] == xs[k]
    {
      var dx := x[i] - refs[i % |refs|];
      if dx < -half {
        x[i] := x[i] + l;
      }
      if dx >= half {
        x[i] := x[i] - l;
      }
      i := i + 1;
    }
    assert x[..] == WrappedTo(l, xs, refs);
    var ok := AllNear(l, x, refs);
    r := if ok then Success(()) else Failure(AssertionFailed);
  }

  /** The closing asserts of `ishift_to`: every offset from the reference is within half a
      box length. */
  method AllNear(l: real, x: array<real>, refs: seq<real>) returns (ok: bool)
    requires RowMajorFits(x[..], refs)
    ensures ok <==> NearRef(l, x[..], refs)
  {
    var half := 0.5 * l;
    ok := true;
    var i := 0;
    while i < x.Length
      invariant 0 <= i <= x.Length
      invariant ok <==> forall k :: 0 <= k < i ==> -half <= x[k] - RefAt(x[..], refs, k) < half
    {
      var d := x[i] - refs[i % |refs|];
      ok := ok && -half <= d && d < half;
      i := i + 1;
    }
  }

  /** `_PeriodicBox.shift_to` over an array: `ishift_to` on a fresh copy, so the caller's array
      is only read. */
  method ShiftToCopy(box: Box, x: array<real>, k: nat, refs: seq<real>) returns (y: array<real>, r: Result<()>)
    requires box.JitBox? && Broadcasts(x[..], k, refs)
    ensures fresh(y)
    ensures RowMajorFits(x[..], refs)
    ensures y[..] == WrappedTo(box.lBox, x[..], refs)
    ensures r.Success? <==> ShiftTo(box, x[..], k, refs).Success?
    ensures r.Success? ==> NearRef(box.lBox, y[..], refs)
  {
    y := new real[x.Length](i requires 0 <= i < x.Length reads x => x[i]);
    assert y[..] == x[..];
    r := IShiftTo(box, y, k, refs);
    ghost var ys := WrappedTo(box.lBox, x[..], refs);
    assert forall i :: 0 <= i < |ys| ==> RefAt(ys, refs, i) == RefAt(x[..], refs, i);
  }

  // ---------------------------------------------------------------------------------------
  // Properties

  /** Wrapping is idempotent: coordinates already in the box stay where they are. */
  lemma ShiftInIdempotent(box: Box, xs: seq<real>)
    requires ShiftIn(box, xs).Success?
    ensures ShiftIn(box, ShiftIn(box, xs).value) == ShiftIn(box, xs)
  {
    var ys := ShiftIn(box, xs).value;
    assert WrappedIn(box.lBox, ys) == ys;
  }

  /** The wrapped coordinate is the only point of [0, l) within one box length of the
      original: `ishift_in` picks the canonical image of each coordinate. */
  lemma ShiftInCanonical(box: Box, xs: seq<real>, ys: seq<real>)
    requires |ys| == |xs| && box.lBox > 0.0 && InBox(box.lBox, ys)
    requires forall i :: 0 <= i < |xs| ==> OneWrap(ys[i], xs[i], box.lBox)
    ensures ShiftIn(box, xs) == Success(ys)
  {
    var l := box.lBox;
    forall i | 0 <= i < |xs|
      ensures -l <= xs[i] < 2.0 * l && WrapIn(l, xs[i]) == ys[i]
    {
    }
    assert WrappedIn(l, xs) == ys;
  }

  /** Shifting towards a reference is idempotent. */
  lemma ShiftToRefIdempotent(box: Box, xs: seq<real>, k: nat, refs: seq<real>)
    requires LastAxis(xs, k) && ShiftToRef(box, xs, k, refs).Success?
    ensures LastAxis(ShiftToRef(box, xs, k, refs).value, k)
    ensures ShiftToRef(box, ShiftToRef(box, xs, k, refs).value, k, refs) == ShiftToRef(box, xs, k, refs)
  {
    var ys := ShiftToRef(box, xs, k, refs).value;
    assert forall i :: 0 <= i < |xs| ==> RefAt(ys, refs, i) == RefAt(xs, refs, i);
    assert WrappedTo(box.lBox, ys, refs) == ys;
  }

  /** Shifting towards the box centre is wrapping into the box: both accept exactly the same
      coordinates and produce the same result. */
  lemma ShiftToCentreIsShiftIn(box: Box, xs: seq<real>, k: nat)
    requires |xs| > 0 && LastAxis(xs, k)
    ensures ShiftToRef(box, xs, k, [0.5 * box.lBox]) == ShiftIn(box, xs)
  {
    var l := box.lBox;
    var refs := [0.5 * l];
    assert forall i :: 0 <= i < |xs| ==> RefAt(xs, refs, i) == 0.5 * l;
    if l > 0.0 {
      assert WrappedTo(l, xs, refs) == WrappedIn(l, xs);
    } else {
      assert !(-l <= xs[0] < 2.0 * l);
    }
  }

  /** The two box classes share their shifting rules; only `shift_to` tells them apart. This
      holds because the model gives both classes one definition: the bodies of
      `_PeriodicBox.ishift_in`/`ishift_to` and `PeriodicBox.ishift_in`/`ishift_to` are the same
      statements, which is read off the source rather than proved. */
  lemma BoxesAgree(l: real, xs: seq<real>, k: nat, refs: seq<real>)
    requires LastAxis(xs, k)
    ensures ShiftIn(JitBox(l), xs) == ShiftIn(PyBox(l), xs)
    ensures ShiftToRef(JitBox(l), xs, k, refs) == ShiftToRef(PyBox(l), xs, k, refs)
    ensures ShiftTo(JitBox(l), xs, k, refs) == ShiftToRef(PyBox(l), xs, k, refs)
    ensures ShiftTo(PyBox(l), xs, k, refs).Failure?
  {
  }

  /** The flat, row-major position of coordinate d of row n, in rows of k coordinates. */
  function RowMajor(n: nat, k: nat, d: nat): nat
  {
    if n == 0 then d else k + RowMajor(n - 1, k, d)
  }

  /** The row-major position is the familiar n * k + d. */
  lemma {:induction false} RowMajorIndex(n: nat, k: nat, d: nat)
    ensures RowMajor(n, k, d) == n * k + d
  {
    if n > 0 {
      RowMajorIndex(n - 1, k, d);
    }
  }

  /** Positions of shape (N, k) against a reference of shape (k,): coordinate d of row n is
      compared with entry d of the reference. */
  lemma RowBroadcast(xs: seq<real>, refs: seq<real>, n: nat, d: nat)
    requires 0 < |refs| && LastAxis(xs, |refs|)
    requires d < |refs| && RowMajor(n, |refs|, d) < |xs|
    ensures Broadcasts(xs, |refs|, refs) && RowMajorFits(xs, refs)
    ensures RefAt(xs, refs, RowMajor(n, |refs|, d)) == refs[d]
  {
    RowRemainder(n, |refs|, d);
  }

  /** Coordinate d of row n, in rows of length k, sits at position d of its row. */
  lemma RowRemainder(n: nat, k: nat, d: nat)
    requires d < k
    ensures RowMajor(n, k, d) % k == d
  {
    RowMajorIndex(n, k, d);
    Abc.ModUnique(n * k + d, k, n, d);
  }

  /** Shifting positions of shape (N, k) towards one point of shape (k,) shifts every row
      towards that point: coordinate d of row n moves by the rule of `WrapTo` with entry d
      of the point as its reference. */
  lemma ShiftRowsTowardsPoint(box: Box, xs: seq<real>, refs: seq<real>, n: nat, d: nat)
    requires 0 < |refs| && LastAxis(xs, |refs|)
    requires d < |refs| && RowMajor(n, |refs|, d) < |xs|
    requires ShiftToRef(box, xs, |refs|, refs).Success?
    ensures ShiftToRef(box, xs, |refs|, refs).value[RowMajor(n, |refs|, d)] == WrapTo(box.lBox, xs[RowMajor(n, |refs|, d)], refs[d])
    ensures -0.5 * box.lBox <= ShiftToRef(box, xs, |refs|, refs).value[RowMajor(n, |refs|, d)] - refs[d] < 0.5 * box.lBox
  {
    RowBroadcast(xs, refs, n, d);
  }

  /** For a 1-D `x`, numpy broadcasts only a single value or a reference of the same length;
      any other length is refused before `x` is touched. */
  lemma OneDimensionalBroadcast(box: Box, xs: seq<real>, refs: seq<real>)
    ensures LastAxis(xs, |xs|)
    ensures Broadcasts(xs, |xs|, refs) <==> |refs| == |xs| || |refs| == 1
    ensures !(|refs| == |xs| || |refs| == 1) ==> ShiftToRef(box, xs, |xs|, refs) == Failure(ShapeMismatch)
  {
  }

  /** Six coordinates against a point of three: accepted as shape (2, 3), refused as shape
      (6,), and refused against a point of two as shape (2, 3). */
  lemma ShapeDecidesBroadcast()
    ensures Broadcasts([1.0, 2.0, 3.0, 4.0, 5.0, 6.0], 3, [1.0, 2.0, 3.0])
    ensures ShiftToRef(JitBox(10.0), [1.0, 2.0, 3.0, 4.0, 5.0, 6.0], 6, [1.0, 2.0, 3.0]) == Failure(ShapeMismatch)
    ensures ShiftToRef(JitBox(10.0), [1.0, 2.0, 3.0, 4.0, 5.0, 6.0], 3, [0.0, 0.0]) == Failure(ShapeMismatch)
  {
  }
}
