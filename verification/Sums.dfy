/** Finite sums of real-valued terms: the exact arithmetic that every kernel model is stated in. */
module Sums {

  /** f(lo) + f(lo + 1) + ... + f(hi - 1); zero when the range is empty. */
  function Sum(f: int -> real, lo: int, hi: int): real
    decreases hi - lo
  {
    if hi <= lo then 0.0 else Sum(f, lo, hi - 1) + f(hi - 1)
  }

  lemma {:induction false} SumCongruent(f: int -> real, g: int -> real, lo: int, hi: int)
    requires forall i :: lo <= i < hi ==> f(i) == g(i)
    ensures Sum(f, lo, hi) == Sum(g, lo, hi)
    decreases hi - lo
  {
    if lo < hi { SumCongruent(f, g, lo, hi - 1); }
  }

  lemma {:induction false} SumSplit(f: int -> real, lo: int, mid: int, hi: int)
    requires lo <= mid <= hi
    ensures Sum(f, lo, hi) == Sum(f, lo, mid) + Sum(f, mid, hi)
    decreases hi - mid
  {
    if mid < hi { SumSplit(f, lo, mid, hi - 1); }
  }

  lemma {:induction false} SumZero(f: int -> real, lo: int, hi: int)
    requires forall i :: lo <= i < hi ==> f(i) == 0.0
    ensures Sum(f, lo, hi) == 0.0
    decreases hi - lo
  {
    if lo < hi { SumZero(f, lo, hi - 1); }
  }

  /** Term i of g is c times term i of f. */
  ghost predicate Scales(f: int -> real, g: int -> real, c: real, i: int) {
    g(i) == c * f(i)
  }

  lemma {:induction false} SumScale(f: int -> real, g: int -> real, c: real, lo: int, hi: int)
    requires forall i :: lo <= i < hi ==> Scales(f, g, c, i)
    ensures Sum(g, lo, hi) == c * Sum(f, lo, hi)
    decreases hi - lo
  {
    if lo < hi {
      SumScale(f, g, c, lo, hi - 1);
      assert Scales(f, g, c, hi - 1);
    }
  }

  lemma {:induction false} SumAdd(f: int -> real, g: int -> real, h: int -> real, lo: int, hi: int)
    requires forall i :: lo <= i < hi ==> h(i) == f(i) + g(i)
    ensures Sum(h, lo, hi) == Sum(f, lo, hi) + Sum(g, lo, hi)
    decreases hi - lo
  {
    if lo < hi { SumAdd(f, g, h, lo, hi - 1); }
  }

  /** Re-indexing: summing g over a range is summing f over the range moved by k. */
  lemma {:induction false} SumShift(f: int -> real, g: int -> real, k: int, lo: int, hi: int)
    requires forall i :: lo <= i < hi ==> g(i) == f(i + k)
    ensures Sum(g, lo, hi) == Sum(f, lo + k, hi + k)
    decreases hi - lo
  {
    if lo < hi { SumShift(f, g, k, lo, hi - 1); }
  }

  /** Term j of g is term j + k of f. */
  ghost predicate ShiftAt(f: int -> real, g: int -> real, k: int, j: int) { g(j) == f(j + k) }

  lemma SumShiftAt(f: int -> real, g: int -> real, k: int, n: int)
    requires forall j :: 0 <= j < n ==> ShiftAt(f, g, k, j)
    ensures Sum(g, 0, n) == Sum(f, k, k + n)
  {
    forall j | 0 <= j < n ensures g(j) == f(j + k) { assert ShiftAt(f, g, k, j); }
    SumShift(f, g, k, 0, n);
  }

  /** Double sums may be taken in either order. */
  lemma {:induction false} SumSwap(f: (int, int) -> real, a: int, b: int, c: int, d: int)
    ensures Sum(i => Sum(j => f(i, j), c, d), a, b) == Sum(j => Sum(i => f(i, j), a, b), c, d)
    decreases b - a
  {
    var inner := (i: int) => Sum(j => f(i, j), c, d);
    var outer := (j: int) => Sum(i => f(i, j), a, b);
    if b <= a {
      SumZero(outer, c, d);
    } else {
      SumSwap(f, a, b - 1, c, d);
      var outer' := (j: int) => Sum(i => f(i, j), a, b - 1);
      forall j | c <= j < d
        ensures outer(j) == outer'(j) + f(b - 1, j)
      {
        var col := (i: int) => f(i, j);
        assert Sum(col, a, b) == Sum(col, a, b - 1) + col(b - 1);
        SumCongruent(col, (i: int) => f(i, j), a, b);
        SumCongruent(col, (i: int) => f(i, j), a, b - 1);
      }
      SumAdd(outer', (j: int) => f(b - 1, j), outer, c, d);
      assert Sum(inner, a, b) == Sum(inner, a, b - 1) + inner(b - 1);
    }
  }

  /** The law of the exponential, one instance; IsExp asks for all of them. */
  ghost predicate ExpLaw(E: real -> real, x: real, y: real) {
    E(x + y) == E(x) * E(y)
  }

  /** What the kernels rely on of exp: positive, and sums become products. */
  ghost predicate IsExp(E: real -> real) {
    && (forall x :: E(x) > 0.0)
    && (forall x, y :: ExpLaw(E, x, y))
  }

  /** Moving the reference point of an exponential from b to a. */
  lemma ExpShift(E: real -> real, a: real, b: real)
    requires IsExp(E)
    ensures E(a - b) * E(b) == E(a) && E(b) > 0.0
  {
    assert ExpLaw(E, a - b, b);
    assert (a - b) + b == a;
  }

  lemma ExpPositive(E: real -> real, x: real)
    requires IsExp(E)
    ensures E(x) > 0.0
  {
  }
}
