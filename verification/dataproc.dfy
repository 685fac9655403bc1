/** `pyhipp.core.dataproc.Num.bound(x, lo=None, hi=None, copy=True)`: clamping of a number
    or of an array, element by element.

    The lower bound is applied as a maximum and the upper bound as a minimum, in that order,
    so a lower bound above the upper one yields the upper bound. A Python scalar comes back
    as the same object exactly when no bound moved it. An array is copied before clamping
    unless `copy=False`, in which case it is clamped in place and returned itself. A 0-d
    array behaves as an array of one element.
 */
module DataProc {
  import opened Wrappers

  /** An optional lower and upper bound. */
  datatype Bounds = Bounds(lo: Option<real>, hi: Option<real>)

  const NoBounds: Bounds := Bounds(None, None)

  /** x lies within every bound that is given. */
  predicate Within(b: Bounds, x: real)
  {
    (b.lo.None? || b.lo.value <= x) && (b.hi.None? || x <= b.hi.value)
  }

  /** The bounds admit some value. */
  predicate Consistent(b: Bounds)
  {
    b.lo.None? || b.hi.None? || b.lo.value <= b.hi.value
  }

  /** One number clamped: max with `lo`, then min with `hi`. */
  function Clamp(b: Bounds, x: real): (y: real)
    ensures b.hi.Some? ==> y <= b.hi.value
    ensures Consistent(b) ==> Within(b, y)
    ensures Within(b, x) ==> y == x
    ensures y == x || (b.lo.Some? && y == b.lo.value) || (b.hi.Some? && y == b.hi.value)
  {
    var y := if b.lo.Some? && x < b.lo.value then b.lo.value else x;
    if b.hi.Some? && b.hi.value < y then b.hi.value else y
  }

  /** A Python scalar result: its value, and whether it is the argument object itself. */
  datatype Scalar = Scalar(value: real, isArg: bool)

  /** `Num.bound` on a Python scalar. */
  function BoundScalar(b: Bounds, x: real): (r: Scalar)
    ensures r.value == Clamp(b, x)
    ensures r.isArg <==> r.value == x
  {
    var y := Clamp(b, x);
    Scalar(y, y == x)
  }

  /** `Num.bound` on an array's contents. */
  function BoundAll(b: Bounds, xs: seq<real>): (r: seq<real>)
    ensures |r| == |xs|
    ensures forall i :: 0 <= i < |xs| ==> r[i] == Clamp(b, xs[i])
  {
    seq(|xs|, i requires 0 <= i < |xs| => Clamp(b, xs[i]))
  }

  // ---------------------------------------------------------------------------------------
  // Properties of clamping

  /** Within consistent bounds, the clamped value is the nearest admissible value to x. */
  lemma ClampIsNearest(b: Bounds, x: real, z: real)
    requires Consistent(b) && Within(b, z)
    ensures Within(b, Clamp(b, x))
    ensures Dist(Clamp(b, x), x) <= Dist(z, x)
  {
  }

  function Dist(a: real, b: real): real
  {
    if a < b then b - a else a - b
  }

  /** Clamping a second time with the same bounds changes nothing. */
  lemma ClampIdempotent(b: Bounds, x: real)
    ensures Clamp(b, Clamp(b, x)) == Clamp(b, x)
  {
  }

  /** Clamping preserves order. */
  lemma ClampMonotone(b: Bounds, x: real, y: real)
    requires x <= y
    ensures Clamp(b, x) <= Clamp(b, y)
  {
  }

  /** Applying `lo` and then, in a second call, `hi` is the same as applying both at once. */
  lemma {:induction false} BoundInSteps(lo: Option<real>, hi: Option<real>, xs: seq<real>)
    ensures BoundAll(Bounds(None, hi), BoundAll(Bounds(lo, None), xs)) == BoundAll(Bounds(lo, hi), xs)
  {
    var a := BoundAll(Bounds(None, hi), BoundAll(Bounds(lo, None), xs));
    var c := BoundAll(Bounds(lo, hi), xs);
    forall i | 0 <= i < |xs|
      ensures a[i] == c[i]
    {
    }
  }

  /** Without bounds nothing changes, and a scalar comes back as itself. */
  lemma NoBoundsIdentity(x: real, xs: seq<real>)
    ensures BoundScalar(NoBounds, x) == Scalar(x, true)
    ensures BoundAll(NoBounds, xs) == xs
  {
  }

  /** Clamping the array 0, 1, ..., 9 from below at 4, then from above at 7. */
  lemma ArangeExample()
    ensures BoundAll(Bounds(Some(4.0), None), [0.0, 1.0, 2.0, 3.0, 4.0, 5.0, 6.0, 7.0, 8.0, 9.0])
            == [4.0, 4.0, 4.0, 4.0, 4.0, 5.0, 6.0, 7.0, 8.0, 9.0]
    ensures BoundAll(Bounds(Some(4.0), Some(7.0)), [0.0, 1.0, 2.0, 3.0, 4.0, 5.0, 6.0, 7.0, 8.0, 9.0])
            == [4.0, 4.0, 4.0, 4.0, 4.0, 5.0, 6.0, 7.0, 7.0, 7.0]
  {
  }

  /** The scalar 3: raised to 5 and lowered to 1 as new objects, kept as itself within [1, 4]. */
  lemma ScalarExample()
    ensures BoundScalar(Bounds(Some(5.0), None), 3.0) == Scalar(5.0, false)
    ensures BoundScalar(Bounds(None, Some(1.0)), 3.0) == Scalar(1.0, false)
    ensures BoundScalar(Bounds(Some(1.0), Some(4.0)), 3.0) == Scalar(3.0, true)
  {
  }

  // ---------------------------------------------------------------------------------------
  // Arrays: copy or in place

  /** `Num.bound` on an array. With `copy` the result is a new array and the argument is left
      alone; without it the argument is clamped in place and returned. */
  method BoundArray(a: array<real>, b: Bounds, copy: bool) returns (r: array<real>)
    modifies if copy then {} else {a}
    ensures copy ==> fresh(r) && a[..] == old(a[..])
    ensures !copy ==> r == a
    ensures r[..] == BoundAll(b, old(a[..]))
  {
    if copy {
      r := new real[a.Length](i => 0.0);
    } else {
      r := a;
    }
    var i := 0;
    while i < a.Length
      invariant 0 <= i <= a.Length
      invariant copy ==> a[..] == old(a[..])
      invariant forall k :: 0 <= k < i ==> r[k] == Clamp(b, old(a[k]))
      invariant forall k :: i <= k < a.Length ==> a[k] == old(a[k])
    {
      r[i] := Clamp(b, a[i]);
      i := i + 1;
    }
  }
}
