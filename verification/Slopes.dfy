/** Derivatives of real functions by their definition, and the rules by which they compose. */
module Slopes {
  import opened Sums

  type Curve = real -> real

  function Abs(x: real): real { if x >= 0.0 then x else -x }

  // ----- continuity

  ghost predicate Close(q: Curve, x: real, eps: real, y: real) { Abs(q(y) - q(x)) <= eps }
  ghost predicate Near(q: Curve, x: real, eps: real, delta: real) {
    delta > 0.0 && forall y {:trigger Close(q, x, eps, y)} :: Abs(y - x) < delta ==> Close(q, x, eps, y)
  }
  ghost predicate Tends(q: Curve, x: real, eps: real) { exists delta :: Near(q, x, eps, delta) }
  ghost predicate Continuous(q: Curve, x: real) { forall eps :: eps > 0.0 ==> Tends(q, x, eps) }

  lemma AbsMul(a: real, b: real)
    ensures Abs(a * b) == Abs(a) * Abs(b)
  {
    if a >= 0.0 {
      if b >= 0.0 { assert a * b >= 0.0; } else { assert a * -b >= 0.0; }
    } else {
      if b >= 0.0 { assert -a * b >= 0.0; } else { assert -a * -b >= 0.0; }
    }
  }
  lemma MulLe(a: real, b: real, c: real, d: real)
    requires 0.0 <= a <= c && 0.0 <= b <= d
    ensures 0.0 <= a * b <= c * d
  {
    assert a * b >= 0.0;
    assert (c - a) * b >= 0.0;
    assert c * (d - b) >= 0.0;
  }
  function Least(a: real, b: real): real { if a <= b then a else b }

  lemma ContinuousSame(q: Curve, r: Curve, x: real)
    requires Continuous(q, x) && forall y :: q(y) == r(y)
    ensures Continuous(r, x)
  {
    forall eps | eps > 0.0 ensures Tends(r, x, eps) {
      assert Tends(q, x, eps);
      var delta :| Near(q, x, eps, delta);
      forall y | Abs(y - x) < delta ensures Close(r, x, eps, y) { assert Close(q, x, eps, y); }
      assert Near(r, x, eps, delta);
    }
  }
  lemma ContinuousConstant(a: real, x: real)
    ensures Continuous(Line(a, 0.0), x) && Continuous(Line(-x, 1.0), x)
  {
    var k, away := Line(a, 0.0), Line(-x, 1.0);
    forall eps | eps > 0.0 ensures Tends(k, x, eps) { assert Near(k, x, eps, 1.0); }
    forall eps | eps > 0.0 ensures Tends(away, x, eps) { assert Near(away, x, eps, eps); }
  }
  /** Where q and r are within e, z is within eps. */
  lemma Joined(q: Curve, r: Curve, z: Curve, x: real, e: real, eps: real)
    requires Continuous(q, x) && Continuous(r, x) && e > 0.0
    requires forall y :: Close(q, x, e, y) && Close(r, x, e, y) ==> Close(z, x, eps, y)
    ensures Tends(z, x, eps)
  {
    assert Tends(q, x, e) && Tends(r, x, e);
    var d1 :| Near(q, x, e, d1);
    var d2 :| Near(r, x, e, d2);
    var delta := Least(d1, d2);
    forall y | Abs(y - x) < delta ensures Close(z, x, eps, y) { assert Close(q, x, e, y) && Close(r, x, e, y); }
    assert Near(z, x, eps, delta);
  }
  lemma ContinuousAdd(q: Curve, r: Curve, x: real)
    requires Continuous(q, x) && Continuous(r, x)
    ensures Continuous(Added(q, r), x)
  {
    forall eps | eps > 0.0 ensures Tends(Added(q, r), x, eps) { Joined(q, r, Added(q, r), x, eps / 2.0, eps); }
  }
  lemma TermBound(a: real, q: real, top: real)
    requires Abs(q) <= top
    ensures Abs(a * q) <= Abs(a) * top
  {
    AbsMul(a, q);
    MulLe(Abs(a), Abs(q), Abs(a), top);
  }
  /** Scaled down by k, an error is within eps. */
  lemma Small(k: real, eps: real) returns (e: real)
    requires k > 0.0 && eps > 0.0
    ensures 0.0 < e <= 1.0 && k * e <= eps
  {
    e := Least(1.0, eps / k);
    assert k * (eps / k) == eps;
    MulLe(k, e, k, eps / k);
  }
  function Scaled(a: real, r: Curve): Curve { (y: real) => a * r(y) }
  lemma ScaledClose(a: real, r: real, b: real, e: real, eps: real)
    requires Abs(r - b) <= e && (Abs(a) + 1.0) * e <= eps
    ensures Abs(a * r - a * b) <= eps
  {
    TermBound(a, r - b, e);
    MulLe(Abs(a), e, Abs(a) + 1.0, e);
    assert a * r - a * b == a * (r - b);
  }
  ghost predicate ScaledWithin(a: real, b: real, eps: real, r: real) { Abs(a * r - a * b) <= eps }
  lemma ScaledWindow(a: real, b: real, eps: real) returns (e: real)
    requires eps > 0.0
    ensures e > 0.0 && forall r :: Abs(r - b) <= e ==> ScaledWithin(a, b, eps, r)
  {
    e := Small(Abs(a) + 1.0, eps);
    forall r | Abs(r - b) <= e ensures ScaledWithin(a, b, eps, r) { ScaledClose(a, r, b, e, eps); }
  }
  lemma ScaledTo(a: real, r: Curve, x: real, eps: real, y: real)
    requires ScaledWithin(a, r(x), eps, r(y))
    ensures Close(Scaled(a, r), x, eps, y)
  {
  }
  lemma ContinuousScaled(a: real, r: Curve, x: real)
    requires Continuous(r, x)
    ensures Continuous(Scaled(a, r), x)
  {
    var z := Scaled(a, r);
    forall eps | eps > 0.0 ensures Tends(z, x, eps) {
      var e := ScaledWindow(a, r(x), eps);
      forall y | Close(r, x, e, y) ensures Close(z, x, eps, y) {
        assert ScaledWithin(a, r(x), eps, r(y));
        ScaledTo(a, r, x, eps, y);
      }
      Joined(r, r, z, x, e, eps);
    }
  }
  function Less(q: Curve, a: real): Curve { (y: real) => q(y) - a }
  lemma VanishingClose(n: real, r: real, b: real, e: real, eps: real)
    requires 0.0 < e <= 1.0 && Abs(n) <= e && Abs(r - b) <= e && (Abs(b) + 1.0) * e <= eps
    ensures Abs(n * r) <= eps
  {
    AbsMul(n, r);
    MulLe(Abs(n), Abs(r), e, Abs(b) + 1.0);
  }
  ghost predicate ProductWithin(eps: real, n: real, r: real) { Abs(n * r) <= eps }
  lemma VanishingWindow(b: real, eps: real) returns (e: real)
    requires eps > 0.0
    ensures e > 0.0 && forall n, r :: Abs(n) <= e && Abs(r - b) <= e ==> ProductWithin(eps, n, r)
  {
    e := Small(Abs(b) + 1.0, eps);
    forall n, r | Abs(n) <= e && Abs(r - b) <= e ensures ProductWithin(eps, n, r) { VanishingClose(n, r, b, e, eps); }
  }
  /** A factor that vanishes at x takes the product with it. */
  lemma ContinuousVanishing(n: Curve, r: Curve, x: real)
    requires Continuous(n, x) && n(x) == 0.0 && Continuous(r, x)
    ensures Continuous(Times(n, r), x)
  {
    var z := Times(n, r);
    assert z(x) == 0.0;
    forall eps | eps > 0.0 ensures Tends(z, x, eps) {
      var e := VanishingWindow(r(x), eps);
      forall y | Close(n, x, e, y) && Close(r, x, e, y) ensures Close(z, x, eps, y) {
        assert ProductWithin(eps, n(y), r(y));
      }
      Joined(n, r, z, x, e, eps);
    }
  }
  lemma ContinuousTimes(q: Curve, r: Curve, x: real)
    requires Continuous(q, x) && Continuous(r, x)
    ensures Continuous(Times(q, r), x)
  {
    var a := q(x);
    var n := Less(q, a);
    ContinuousConstant(-a, x);
    ContinuousAdd(q, Line(-a, 0.0), x);
    ContinuousSame(Added(q, Line(-a, 0.0)), n, x);
    ContinuousVanishing(n, r, x);
    ContinuousScaled(a, r, x);
    ContinuousAdd(Times(n, r), Scaled(a, r), x);
    forall y ensures Added(Times(n, r), Scaled(a, r))(y) == Times(q, r)(y) { Distribute(q(y), a, r(y)); }
    ContinuousSame(Added(Times(n, r), Scaled(a, r)), Times(q, r), x);
  }
  lemma Distribute(q: real, a: real, r: real)
    ensures (q - a) * r + a * r == q * r
  {
  }
  lemma ContinuousAfter(q: Curve, g: Curve, x: real)
    requires Continuous(q, g(x)) && Continuous(g, x)
    ensures Continuous(After(q, g), x)
  {
    forall eps | eps > 0.0 ensures Tends(After(q, g), x, eps) {
      assert Tends(q, g(x), eps);
      var d1 :| Near(q, g(x), eps, d1);
      assert Tends(g, x, d1 / 2.0);
      var delta :| Near(g, x, d1 / 2.0, delta);
      forall y | Abs(y - x) < delta ensures Close(After(q, g), x, eps, y) {
        assert Close(g, x, d1 / 2.0, y);
        assert Close(q, g(x), eps, g(y));
      }
      assert Near(After(q, g), x, eps, delta);
    }
  }

  // ----- derivatives

  function Climb(q: real, x: real, y: real): real { q * (y - x) }
  /** From x to y the function f rises by q(y) per unit. */
  ghost predicate Rises(f: Curve, x: real, q: Curve, y: real) { f(y) - f(x) == Climb(q(y), x, y) }
  ghost predicate AllRise(f: Curve, x: real, q: Curve) { forall y :: Rises(f, x, q, y) }
  ghost predicate SlopeBy(f: Curve, x: real, m: real, q: Curve) { Continuous(q, x) && q(x) == m && AllRise(f, x, q) }
  /** f has derivative m at x: its difference quotient extends to a function continuous at x with value m there. */
  ghost predicate Slope(f: Curve, x: real, m: real) { exists q :: SlopeBy(f, x, m, q) }

  function Line(a: real, b: real): Curve { (s: real) => a + s * b }
  function Added(f: Curve, g: Curve): Curve { (s: real) => f(s) + g(s) }
  function Times(f: Curve, g: Curve): Curve { (s: real) => f(s) * g(s) }
  function After(f: Curve, g: Curve): Curve { (s: real) => f(g(s)) }

  /** The difference quotient of f at x, with m in the gap. */
  function Quotient(f: Curve, x: real, m: real): Curve { (y: real) => if y == x then m else (f(y) - f(x)) / (y - x) }
  lemma QuotientRises(f: Curve, x: real, m: real, y: real)
    ensures Rises(f, x, Quotient(f, x, m), y)
  {
    if y != x { assert (f(y) - f(x)) / (y - x) * (y - x) == f(y) - f(x); }
  }
  lemma RiseIsQuotient(f: Curve, x: real, m: real, q: Curve, y: real)
    requires q(x) == m && Rises(f, x, q, y)
    ensures q(y) == Quotient(f, x, m)(y)
  {
    if y != x { Divided(f(y) - f(x), q(y), y - x); }
  }
  lemma Divided(a: real, b: real, h: real)
    requires h != 0.0 && a == b * h
    ensures a / h == b
  {
    assert (a / h - b) * h == 0.0;
  }
  /** The derivative is the limit of the difference quotients. */
  lemma SlopeIsLimit(f: Curve, x: real, m: real)
    ensures Slope(f, x, m) <==> Continuous(Quotient(f, x, m), x)
  {
    var z := Quotient(f, x, m);
    if Continuous(z, x) {
      forall y ensures Rises(f, x, z, y) { QuotientRises(f, x, m, y); }
      assert SlopeBy(f, x, m, z);
    }
    if Slope(f, x, m) {
      var q :| SlopeBy(f, x, m, q);
      forall y ensures q(y) == z(y) {
        assert Rises(f, x, q, y);
        RiseIsQuotient(f, x, m, q, y);
      }
      ContinuousSame(q, z, x);
    }
  }

  lemma SlopeSame(f: Curve, g: Curve, x: real, m: real)
    requires Slope(f, x, m) && forall y :: f(y) == g(y)
    ensures Slope(g, x, m)
  {
    var q :| SlopeBy(f, x, m, q);
    forall y ensures Rises(g, x, q, y) { assert Rises(f, x, q, y); }
    assert SlopeBy(g, x, m, q);
  }
  lemma SlopeLine(a: real, b: real, x: real)
    ensures Slope(Line(a, b), x, b)
  {
    var f, q := Line(a, b), Line(b, 0.0);
    ContinuousConstant(b, x);
    forall y ensures Rises(f, x, q, y) { assert y * b - x * b == b * (y - x); }
    assert SlopeBy(f, x, b, q);
  }
  lemma RisesAdded(f: Curve, g: Curve, x: real, q: Curve, r: Curve, y: real)
    requires Rises(f, x, q, y) && Rises(g, x, r, y)
    ensures Rises(Added(f, g), x, Added(q, r), y)
  {
    assert (q(y) + r(y)) * (y - x) == q(y) * (y - x) + r(y) * (y - x);
  }
  lemma SlopeAdd(f: Curve, g: Curve, x: real, a: real, b: real, m: real)
    requires Slope(f, x, a) && Slope(g, x, b) && m == a + b
    ensures Slope(Added(f, g), x, m)
  {
    var q :| SlopeBy(f, x, a, q);
    var r :| SlopeBy(g, x, b, r);
    ContinuousAdd(q, r, x);
    forall y ensures Rises(Added(f, g), x, Added(q, r), y) {
      assert Rises(f, x, q, y) && Rises(g, x, r, y);
      RisesAdded(f, g, x, q, r, y);
    }
    assert SlopeBy(Added(f, g), x, m, Added(q, r));
  }
  /** A function with a derivative is continuous. */
  lemma SlopeContinuous(g: Curve, x: real, b: real, r: Curve)
    requires SlopeBy(g, x, b, r)
    ensures Continuous(g, x)
  {
    var step, k := Times(r, Line(-x, 1.0)), Line(g(x), 0.0);
    ContinuousConstant(g(x), x);
    ContinuousTimes(r, Line(-x, 1.0), x);
    ContinuousAdd(step, k, x);
    forall y ensures Added(step, k)(y) == g(y) {
      assert Rises(g, x, r, y);
      assert Line(-x, 1.0)(y) == y - x && k(y) == g(x);
    }
    ContinuousSame(Added(step, k), g, x);
  }
  lemma ProductSplit(f0: real, f1: real, g0: real, g1: real, q: real, r: real, h: real)
    requires f1 - f0 == q * h && g1 - g0 == r * h
    ensures f1 * g1 - f0 * g0 == (q * g1 + f0 * r) * h
  {
    assert f1 * g1 - f0 * g0 == (f1 - f0) * g1 + f0 * (g1 - g0);
    assert q * h * g1 == q * g1 * h && f0 * (r * h) == f0 * r * h;
  }
  /** The quotient of a product. */
  function TimesQuotient(f0: real, g: Curve, q: Curve, r: Curve): Curve { Added(Times(q, g), Times(Line(f0, 0.0), r)) }
  lemma RisesTimes(f: Curve, g: Curve, x: real, q: Curve, r: Curve, y: real)
    requires Rises(f, x, q, y) && Rises(g, x, r, y)
    ensures Rises(Times(f, g), x, TimesQuotient(f(x), g, q, r), y)
  {
    ProductSplit(f(x), f(y), g(x), g(y), q(y), r(y), y - x);
    assert Line(f(x), 0.0)(y) == f(x);
  }
  lemma ContinuousQuotient(f0: real, g: Curve, q: Curve, r: Curve, x: real)
    requires Continuous(g, x) && Continuous(q, x) && Continuous(r, x)
    ensures Continuous(TimesQuotient(f0, g, q, r), x)
  {
    ContinuousConstant(f0, x);
    ContinuousTimes(q, g, x);
    ContinuousTimes(Line(f0, 0.0), r, x);
    ContinuousAdd(Times(q, g), Times(Line(f0, 0.0), r), x);
  }
  lemma SlopeTimes(f: Curve, g: Curve, x: real, a: real, b: real, m: real)
    requires Slope(f, x, a) && Slope(g, x, b) && m == a * g(x) + f(x) * b
    ensures Slope(Times(f, g), x, m)
  {
    var q :| SlopeBy(f, x, a, q);
    var r :| SlopeBy(g, x, b, r);
    TimesBy(f, g, x, a, b, m, q, r);
  }
  lemma TimesBy(f: Curve, g: Curve, x: real, a: real, b: real, m: real, q: Curve, r: Curve)
    requires SlopeBy(f, x, a, q) && SlopeBy(g, x, b, r) && m == a * g(x) + f(x) * b
    ensures Slope(Times(f, g), x, m)
  {
    SlopeContinuous(g, x, b, r);
    ContinuousQuotient(f(x), g, q, r, x);
    AllRiseTimes(f, g, x, q, r);
    TimesQuotientAt(f(x), g, q, r, x, a, b, m);
    SlopeFrom(Times(f, g), x, m, TimesQuotient(f(x), g, q, r));
  }
  lemma SlopeFrom(f: Curve, x: real, m: real, q: Curve)
    requires Continuous(q, x) && q(x) == m && AllRise(f, x, q)
    ensures Slope(f, x, m)
  {
    assert SlopeBy(f, x, m, q);
  }
  lemma TimesQuotientAt(f0: real, g: Curve, q: Curve, r: Curve, y: real, a: real, b: real, m: real)
    requires q(y) == a && r(y) == b && m == a * g(y) + f0 * b
    ensures TimesQuotient(f0, g, q, r)(y) == m
  {
    assert Line(f0, 0.0)(y) == f0;
  }
  lemma AllRiseTimes(f: Curve, g: Curve, x: real, q: Curve, r: Curve)
    requires AllRise(f, x, q) && AllRise(g, x, r)
    ensures AllRise(Times(f, g), x, TimesQuotient(f(x), g, q, r))
  {
    forall y ensures Rises(Times(f, g), x, TimesQuotient(f(x), g, q, r), y) {
      assert Rises(f, x, q, y) && Rises(g, x, r, y);
      RisesTimes(f, g, x, q, r, y);
    }
  }
  lemma RisesScaled(a: real, f: Curve, x: real, q: Curve, y: real)
    requires Rises(f, x, q, y)
    ensures Rises(Scaled(a, f), x, Scaled(a, q), y)
  {
    ScaleRise(a, f(x), f(y), q(y), x, y);
    assert Scaled(a, f)(y) == a * f(y) && Scaled(a, f)(x) == a * f(x) && Scaled(a, q)(y) == a * q(y);
  }
  lemma ScaleRise(a: real, f0: real, f1: real, q: real, x: real, y: real)
    requires f1 - f0 == Climb(q, x, y)
    ensures a * f1 - a * f0 == Climb(a * q, x, y)
  {
    var h := y - x;
    assert a * f1 - a * f0 == a * (f1 - f0);
    assert a * (q * h) == a * q * h;
  }
  lemma SlopeScaled(a: real, f: Curve, x: real, m: real, k: real)
    requires Slope(f, x, m) && k == a * m
    ensures Slope(Scaled(a, f), x, k)
  {
    var q :| SlopeBy(f, x, m, q);
    ContinuousScaled(a, q, x);
    forall y ensures Rises(Scaled(a, f), x, Scaled(a, q), y) {
      assert Rises(f, x, q, y);
      RisesScaled(a, f, x, q, y);
    }
    SlopeFrom(Scaled(a, f), x, k, Scaled(a, q));
  }
  lemma RisesAfter(f: Curve, g: Curve, x: real, q: Curve, r: Curve, y: real)
    requires Rises(g, x, r, y) && Rises(f, g(x), q, g(y))
    ensures Rises(After(f, g), x, Times(After(q, g), r), y)
  {
    var a, b := q(g(y)), r(y);
    AfterAt(q, g, r, y, a, b, a * b);
    ChainValue(f(g(y)) - f(g(x)), g(x), g(y), a, b, x, y);
  }
  lemma ChainValue(w: real, gx: real, gy: real, a: real, b: real, x: real, y: real)
    requires w == Climb(a, gx, gy) && gy - gx == Climb(b, x, y)
    ensures w == Climb(a * b, x, y)
  {
    var u, h := gy - gx, y - x;
    assert a * (b * h) == a * b * h;
  }
  lemma SlopeAfter(f: Curve, g: Curve, x: real, k: real, m: real, km: real)
    requires Slope(f, g(x), k) && Slope(g, x, m) && km == k * m
    ensures Slope(After(f, g), x, km)
  {
    var q :| SlopeBy(f, g(x), k, q);
    var r :| SlopeBy(g, x, m, r);
    AfterBy(f, g, x, k, m, km, q, r);
  }
  lemma AfterBy(f: Curve, g: Curve, x: real, k: real, m: real, km: real, q: Curve, r: Curve)
    requires SlopeBy(f, g(x), k, q) && SlopeBy(g, x, m, r) && km == k * m
    ensures Slope(After(f, g), x, km)
  {
    AfterContinuous(q, g, r, x, m);
    AllRiseAfter(f, g, x, q, r);
    AfterAt(q, g, r, x, k, m, km);
    SlopeFrom(After(f, g), x, km, Times(After(q, g), r));
  }
  lemma AfterContinuous(q: Curve, g: Curve, r: Curve, x: real, m: real)
    requires Continuous(q, g(x)) && SlopeBy(g, x, m, r)
    ensures Continuous(Times(After(q, g), r), x)
  {
    SlopeContinuous(g, x, m, r);
    ContinuousAfter(q, g, x);
    ContinuousTimes(After(q, g), r, x);
  }
  lemma AfterAt(q: Curve, g: Curve, r: Curve, x: real, k: real, m: real, km: real)
    requires q(g(x)) == k && r(x) == m && km == k * m
    ensures Times(After(q, g), r)(x) == km
  {
  }
  lemma AllRiseAfter(f: Curve, g: Curve, x: real, q: Curve, r: Curve)
    requires AllRise(g, x, r) && AllRise(f, g(x), q)
    ensures AllRise(After(f, g), x, Times(After(q, g), r))
  {
    forall y ensures Rises(After(f, g), x, Times(After(q, g), r), y) {
      assert Rises(g, x, r, y) && Rises(f, g(x), q, g(y));
      RisesAfter(f, g, x, q, r, y);
    }
  }
  /** Term i of a family of curves, and the curve of their sums. */
  function TermAt(F: int -> Curve, s: real): int -> real { (i: int) => F(i)(s) }
  function Total(F: int -> Curve, lo: int, hi: int): Curve { (s: real) => Sum(TermAt(F, s), lo, hi) }
  ghost predicate SlopeAt(F: int -> Curve, M: int -> real, x: real, i: int) { Slope(F(i), x, M(i)) }
  lemma {:induction false} SlopeSum(F: int -> Curve, M: int -> real, lo: int, hi: int, x: real)
    requires forall i :: lo <= i < hi ==> SlopeAt(F, M, x, i)
    ensures Slope(Total(F, lo, hi), x, Sum(M, lo, hi))
    decreases hi - lo
  {
    if hi <= lo {
      SlopeLine(0.0, 0.0, x);
      SlopeSame(Line(0.0, 0.0), Total(F, lo, hi), x, 0.0);
    } else {
      SlopeSum(F, M, lo, hi - 1, x);
      assert SlopeAt(F, M, x, hi - 1);
      SlopeAdd(Total(F, lo, hi - 1), F(hi - 1), x, Sum(M, lo, hi - 1), M(hi - 1), Sum(M, lo, hi));
      SlopeSame(Added(Total(F, lo, hi - 1), F(hi - 1)), Total(F, lo, hi), x, Sum(M, lo, hi));
    }
  }
}
