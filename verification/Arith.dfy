/** Division and remainder by a symbolic divisor, the few facts that index arithmetic rests on. */
module Arith {

  lemma MulFar(e: int, d: int)
    requires d > 0
    ensures e >= 1 ==> e * d >= d
    ensures e <= -1 ==> e * d <= -d
  {
  }

  /** Quotient and remainder are the only ones. */
  lemma DivModUnique(x: int, d: int, q: int, r: int)
    requires d > 0 && x == q * d + r && 0 <= r < d
    ensures x / d == q && x % d == r
  {
    MulFar(x / d - q, d);
    assert (x / d - q) * d == r - x % d;
  }

  lemma DivModLaw(x: int, d: int)
    requires d > 0
    ensures x == x / d * d + x % d && 0 <= x % d < d
  {
  }

  lemma QuotientBelow(x: int, d: int, k: int, q: int, r: int)
    requires x == q * d + r && 0 <= r < d
    ensures x < k * d <==> q < k
    ensures 0 <= x <==> 0 <= q
  {
    MulNext(q, d);
    if q < k { MulMono(q + 1, k, d); } else { MulMono(k, q, d); }
    if 0 <= q { MulMono(0, q, d); } else { MulMono(q, -1, d); }
  }
  lemma MulNext(q: int, d: int)
    ensures (q + 1) * d == q * d + d
  {
  }
  /** A quotient is below k exactly when the dividend is below k * d. */
  lemma DivBelow(x: int, d: int, k: int)
    requires d > 0
    ensures x < k * d <==> x / d < k
    ensures 0 <= x <==> 0 <= x / d
  {
    DivModLaw(x, d);
    QuotientBelow(x, d, k, x / d, x % d);
  }

  lemma MulMono(a: int, b: int, d: int)
    requires a <= b && d >= 0
    ensures a * d <= b * d
  {
    assert (b - a) * d >= 0;
  }

  /** Row r, column c of a table of rows x cols, numbered row by row. */
  lemma TableAt(r: int, c: int, rows: int, cols: int)
    requires 0 <= r < rows && 0 <= c < cols
    ensures 0 <= r * cols + c < rows * cols && (r * cols + c) / cols == r && (r * cols + c) % cols == c
  {
    MulMono(0, r, cols);
    MulMono(r + 1, rows, cols);
    DivModUnique(r * cols + c, cols, r, c);
  }

  /** A point lies in one stripe of width d only. */
  lemma StripesApart(p: int, q: int, d: int, x: int)
    requires d > 0 && p * d <= x < p * d + d && q * d <= x < q * d + d
    ensures p == q
  {
    DivModUnique(x, d, p, x - p * d);
    DivModUnique(x, d, q, x - q * d);
  }
}
