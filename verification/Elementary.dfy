/** The derivatives of the two scalar functions that the engram kernels take from the hardware, from what those
    functions are: the logistic function of an exponential, and the reciprocal square root. */
module Elementary {
  import opened Sums
  import opened Slopes

  // ----- near a point

  ghost predicate NearEqual(q: Curve, r: Curve, x: real, delta: real) {
    delta > 0.0 && forall y {:trigger EqualAt(q, r, y)} :: Abs(y - x) < delta ==> EqualAt(q, r, y)
  }
  ghost predicate EqualAt(q: Curve, r: Curve, y: real) { q(y) == r(y) }
  /** Continuity is a matter of values near the point. */
  lemma ContinuousNear(q: Curve, r: Curve, x: real, delta: real)
    requires Continuous(q, x) && NearEqual(q, r, x, delta)
    ensures Continuous(r, x)
  {
    forall eps | eps > 0.0 ensures Tends(r, x, eps) {
      assert Tends(q, x, eps);
      var d :| Near(q, x, eps, d);
      var e := Least(d, delta);
      assert EqualAt(q, r, x);
      forall y | Abs(y - x) < e ensures Close(r, x, eps, y) { assert Close(q, x, eps, y) && EqualAt(q, r, y); }
      assert Near(r, x, eps, e);
    }
  }

  // ----- reciprocals

  ghost predicate InverseAt(g: Curve, z: Curve, y: real) { z(y) * g(y) == 1.0 }
  ghost predicate Inverses(g: Curve, z: Curve, x: real, delta: real) {
    delta > 0.0 && forall y {:trigger InverseAt(g, z, y)} :: Abs(y - x) < delta ==> InverseAt(g, z, y)
  }
  lemma PositiveInverse(b: real, a: real)
    requires a > 0.0 && b * a == 1.0
    ensures b > 0.0
  {
    assert b * b >= 0.0;
    MulLe(0.0, 0.0, b * b, a);
    assert b * b * a == b * (b * a);
  }
  lemma InverseBound(g: real, z: real, a: real, b: real)
    requires b * a == 1.0 && z * g == 1.0 && a > 0.0 && g >= a / 2.0
    ensures 0.0 < z <= 2.0 * b && b > 0.0 && z - b == z * b * (a - g)
  {
    PositiveInverse(b, a);
    PositiveInverse(z, g);
    assert z * (g - a / 2.0) >= 0.0;
    assert z * a <= 2.0;
    assert z * a * b <= 2.0 * b by { MulLe(z * a, b, 2.0, b); }
    assert z * a * b == z * (b * a);
    assert z * b * (a - g) == z * (b * a) - b * (z * g);
  }
  lemma InverseClose(g: real, z: real, a: real, b: real, e: real)
    requires b * a == 1.0 && z * g == 1.0 && a > 0.0 && Abs(g - a) <= e && e <= a / 2.0
    ensures Abs(z - b) <= Factor(b) * e
  {
    InverseBound(g, z, a, b);
    AbsMul(z * b, a - g);
    MulLe(z, b, 2.0 * b, b);
    assert 2.0 * b * b == 2.0 * (b * b);
    MulLe(z * b, Abs(a - g), Factor(b), e);
  }
  function Factor(b: real): real { 2.0 * (b * b) + 1.0 }
  lemma FactorPositive(b: real)
    ensures Factor(b) > 0.0
  {
    assert b * b >= 0.0;
  }
  lemma Shrunk(k: real, top: real, eps: real) returns (e: real)
    requires k > 0.0 && top > 0.0 && eps > 0.0
    ensures 0.0 < e <= top && k * e <= eps
  {
    e := Least(top, eps / k);
    assert k * (eps / k) == eps;
    MulLe(k, e, k, eps / k);
  }
  /** How close g has to be for its reciprocal to be within eps. */
  lemma InverseWindow(a: real, b: real, eps: real) returns (e: real)
    requires a > 0.0 && b > 0.0 && eps > 0.0
    ensures 0.0 < e <= a / 2.0 && Factor(b) * e <= eps
  {
    FactorPositive(b);
    e := Shrunk(Factor(b), a / 2.0, eps);
  }
  lemma ContinuousInverse(g: Curve, z: Curve, x: real, delta: real)
    requires Continuous(g, x) && g(x) > 0.0 && Inverses(g, z, x, delta)
    ensures Continuous(z, x)
  {
    var a, b := g(x), z(x);
    assert InverseAt(g, z, x);
    InverseBound(a, b, a, b);
    forall eps | eps > 0.0 ensures Tends(z, x, eps) {
      var e := InverseWindow(a, b, eps);
      assert Tends(g, x, e);
      var d :| Near(g, x, e, d);
      var top := Least(d, delta);
      forall y | Abs(y - x) < top ensures Close(z, x, eps, y) {
        assert Close(g, x, e, y) && InverseAt(g, z, y);
        InverseClose(g(y), z(y), a, b, e);
      }
      assert Near(z, x, eps, top);
    }
  }
  lemma InverseRise(g0: real, g1: real, z0: real, z1: real, q: real, h: real)
    requires z0 * g0 == 1.0 && z1 * g1 == 1.0 && g1 - g0 == q * h
    ensures z1 - z0 == -z0 * (z1 * q) * h
  {
    assert z1 - z0 == -(z0 * z1 * (g1 - g0)) by {
      assert z0 * z1 * (g1 - g0) == z0 * (z1 * g1) - z1 * (z0 * g0);
    }
    assert z0 * z1 * (q * h) == z0 * (z1 * q) * h;
  }
  ghost predicate AllInverse(g: Curve, z: Curve) { forall y :: InverseAt(g, z, y) }
  function InverseQuotient(z0: real, z: Curve, q: Curve): Curve { Times(Line(-z0, 0.0), Times(z, q)) }
  lemma InverseQuotientAt(z0: real, z: Curve, q: Curve, y: real)
    ensures InverseQuotient(z0, z, q)(y) == -z0 * (z(y) * q(y))
  {
    assert Line(-z0, 0.0)(y) == -z0;
  }
  lemma InverseQuotientContinuous(z0: real, z: Curve, q: Curve, x: real)
    requires Continuous(z, x) && Continuous(q, x)
    ensures Continuous(InverseQuotient(z0, z, q), x)
  {
    ContinuousConstant(-z0, x);
    ContinuousTimes(z, q, x);
    ContinuousTimes(Line(-z0, 0.0), Times(z, q), x);
  }
  lemma InverseRises(g: Curve, z: Curve, x: real, q: Curve, y: real)
    requires InverseAt(g, z, x) && InverseAt(g, z, y) && Rises(g, x, q, y)
    ensures Rises(z, x, InverseQuotient(z(x), z, q), y)
  {
    InverseRise(g(x), g(y), z(x), z(y), q(y), y - x);
    InverseQuotientAt(z(x), z, q, y);
  }
  lemma AllInverseRise(g: Curve, z: Curve, x: real, q: Curve)
    requires AllInverse(g, z) && AllRise(g, x, q)
    ensures AllRise(z, x, InverseQuotient(z(x), z, q))
  {
    forall y ensures Rises(z, x, InverseQuotient(z(x), z, q), y) {
      assert InverseAt(g, z, x) && InverseAt(g, z, y) && Rises(g, x, q, y);
      InverseRises(g, z, x, q, y);
    }
  }
  /** The derivative of 1 / g. */
  lemma SlopeInverse(g: Curve, z: Curve, x: real, m: real, k: real)
    requires Slope(g, x, m) && g(x) > 0.0 && AllInverse(g, z) && k == -z(x) * (z(x) * m)
    ensures Slope(z, x, k)
  {
    var q :| SlopeBy(g, x, m, q);
    SlopeContinuous(g, x, m, q);
    ContinuousInverse(g, z, x, 1.0);
    InverseQuotientContinuous(z(x), z, q, x);
    AllInverseRise(g, z, x, q);
    InverseQuotientAt(z(x), z, q, x);
    SlopeFrom(z, x, k, InverseQuotient(z(x), z, q));
  }

  // ----- the logistic function

  /** E is the exponential: a homomorphism with derivative 1 at 0. */
  ghost predicate IsExponential(E: Curve) { IsExp(E) && Slope(E, 0.0, 1.0) }
  function Ahead(x: real): Curve { (y: real) => y - x }
  lemma MovedSlope(f: Curve, x: real, m: real)
    requires Slope(f, 0.0, m)
    ensures Slope(After(f, Ahead(x)), x, m)
  {
    SlopeLine(-x, 1.0, x);
    SlopeSame(Line(-x, 1.0), Ahead(x), x, 1.0);
    assert Ahead(x)(x) == 0.0;
    SlopeAfter(f, Ahead(x), x, m, 1.0, m);
  }
  lemma ExpFactor(E: Curve, x: real, y: real)
    requires IsExp(E)
    ensures Scaled(E(x), After(E, Ahead(x)))(y) == E(y)
  {
    ExpShift(E, y, x);
    assert E(x) * E(y - x) == E(y);
    ScaledMoved(E(x), E, x, y, E(y - x), E(y));
  }
  lemma ScaledMoved(e: real, f: Curve, x: real, y: real, v: real, w: real)
    requires v == f(y - x) && e * v == w
    ensures Scaled(e, After(f, Ahead(x)))(y) == w
  {
    AheadAt(f, x, y);
    ScaledAt(e, After(f, Ahead(x)), y, v, w);
  }
  lemma AheadAt(f: Curve, x: real, y: real)
    ensures After(f, Ahead(x))(y) == f(y - x)
  {
  }
  lemma ScaledAt(e: real, g: Curve, y: real, v: real, w: real)
    requires g(y) == v && e * v == w
    ensures Scaled(e, g)(y) == w
  {
  }
  lemma ExpFactors(E: Curve, x: real)
    requires IsExp(E)
    ensures forall y :: Scaled(E(x), After(E, Ahead(x)))(y) == E(y)
  {
    forall y ensures Scaled(E(x), After(E, Ahead(x)))(y) == E(y) { ExpFactor(E, x, y); }
  }
  lemma ExpSlopeFrom(E: Curve, x: real, e: real)
    requires Slope(E, 0.0, 1.0) && forall y :: Scaled(e, After(E, Ahead(x)))(y) == E(y)
    ensures Slope(E, x, e)
  {
    var moved := After(E, Ahead(x));
    MovedSlope(E, x, 1.0);
    SlopeScaled(e, moved, x, 1.0, e);
    SlopeSame(Scaled(e, moved), E, x, e);
  }
  lemma ExpSlope(E: Curve, x: real)
    requires IsExponential(E)
    ensures Slope(E, x, E(x))
  {
    ExpFactors(E, x);
    ExpSlopeFrom(E, x, E(x));
  }
  /** 1 + E(-x). */
  function Denominator(E: Curve): Curve { (x: real) => 1.0 + E(-x) }
  lemma DenominatorSlope(f: Curve, x: real, m: real)
    requires Slope(f, -x, m)
    ensures Slope(Denominator(f), x, -m)
  {
    var neg, one := Line(0.0, -1.0), Line(1.0, 0.0);
    SlopeLine(0.0, -1.0, x);
    assert neg(x) == -x;
    SlopeAfter(f, neg, x, m, -1.0, -m);
    SlopeLine(1.0, 0.0, x);
    SlopeAdd(one, After(f, neg), x, 0.0, -m, -m);
    forall y ensures Added(one, After(f, neg))(y) == Denominator(f)(y) { assert neg(y) == -y && one(y) == 1.0; }
    SlopeSame(Added(one, After(f, neg)), Denominator(f), x, -m);
  }
  lemma LogisticValue(z: real, e: real)
    requires z * (1.0 + e) == 1.0
    ensures -z * (z * -e) == z * (1.0 - z)
  {
    assert z * e == 1.0 - z;
    assert -z * (z * -e) == z * (z * e);
  }
  lemma LogisticFrom(g: Curve, sigmoid: Curve, x: real, e: real, k: real)
    requires Slope(g, x, -e) && g(x) == 1.0 + e && e > 0.0 && AllInverse(g, sigmoid)
    requires k == sigmoid(x) * (1.0 - sigmoid(x))
    ensures Slope(sigmoid, x, k)
  {
    assert InverseAt(g, sigmoid, x);
    LogisticValue(sigmoid(x), e);
    SlopeInverse(g, sigmoid, x, -e, k);
  }
  /** sigmoid(x) = 1 / (1 + exp(-x)) has derivative sigmoid(x) (1 - sigmoid(x)). */
  lemma LogisticSlope(E: Curve, sigmoid: Curve, x: real)
    requires IsExponential(E) && AllInverse(Denominator(E), sigmoid)
    ensures Slope(sigmoid, x, sigmoid(x) * (1.0 - sigmoid(x)))
  {
    ExpSlope(E, -x);
    ExpPositive(E, -x);
    DenominatorSlope(E, x, E(-x));
    LogisticFrom(Denominator(E), sigmoid, x, E(-x), sigmoid(x) * (1.0 - sigmoid(x)));
  }

  // ----- the reciprocal square root

  /** r(y) > 0 and r(y)^2 y = 1. */
  ghost predicate RootAt(r: Curve, y: real) { Rooted(r(y), y) }
  ghost predicate IsRsqrt(r: Curve) { forall y :: y > 0.0 ==> RootAt(r, y) }

  function RootFactor(r: real, s: real, i: real): real { -(r * r) * (s * s * i) }
  /** r(y) - r(x) = -r(x)^2 r(y)^2 (y - x) / (r(x) + r(y)). */
  lemma RootRise(r: real, s: real, x: real, y: real, i: real)
    requires r * r * x == 1.0 && s * s * y == 1.0 && i * (r + s) == 1.0
    ensures s - r == Climb(RootFactor(r, s, i), x, y)
  {
    var a, b := r * r, s * s;
    assert b - a == -(a * b * (y - x)) by {
      assert a * b * (y - x) == a * (b * y) - b * (a * x);
    }
    assert b - a == (s - r) * (r + s);
    assert s - r == (s - r) * (i * (r + s));
    assert (s - r) * (i * (r + s)) == (s - r) * (r + s) * i;
    assert -(a * b * (y - x)) * i == -a * (b * i) * (y - x);
  }
  /** Away from 0 the root is bounded: at y >= x / 4 it is at most twice that at x. */
  lemma RootBound(r: real, s: real, x: real, y: real)
    requires x > 0.0 && y >= x / 4.0 && r > 0.0 && s > 0.0 && r * r * x == 1.0 && s * s * y == 1.0
    ensures s <= 2.0 * r
  {
    assert s * s >= 0.0 && r * r >= 0.0;
    MulLe(s * s, x / 4.0, s * s, y);
    assert s * s * x <= 4.0;
    if s > 2.0 * r { SquareGap(r, s, x); }
  }
  lemma SquareGap(r: real, s: real, x: real)
    requires x > 0.0 && r > 0.0 && s > 2.0 * r
    ensures (s * s - 4.0 * (r * r)) * x > 0.0
  {
    var u := s - 2.0 * r;
    assert s * s - 4.0 * (r * r) == u * (s + 2.0 * r);
    assert u * (s + 2.0 * r) > 0.0;
  }
  /** The rise of the root from x to y is at most Slack(r) per unit. */
  lemma RootStep(r: real, s: real, x: real, y: real) returns (k: real)
    requires x > 0.0 && y >= x / 4.0 && r > 0.0 && s > 0.0 && r * r * x == 1.0 && s * s * y == 1.0
    ensures s - r == Climb(k, x, y) && Abs(k) <= Slack(r)
  {
    var i := Invert(r + s);
    k := RootFactor(r, s, i);
    RootRise(r, s, x, y, i);
    RootStepBound(r, s, x, y, i);
  }
  lemma RootStepBound(r: real, s: real, x: real, y: real, i: real)
    requires x > 0.0 && y >= x / 4.0 && r > 0.0 && s > 0.0 && r * r * x == 1.0 && s * s * y == 1.0
    requires i * (r + s) == 1.0
    ensures Abs(RootFactor(r, s, i)) <= Slack(r)
  {
    RootBound(r, s, x, y);
    PositiveInverse(i, r + s);
    RootFactorBound(r, s, i);
  }
  ghost predicate StepOk(top: real, r: real, x: real, y: real, s: real) { Abs(s - r) <= top * Abs(y - x) }
  ghost predicate Rooted(s: real, y: real) { s > 0.0 && s * s * y == 1.0 }
  lemma RootTop(r: real, x: real) returns (top: real)
    requires x > 0.0 && Rooted(r, x)
    ensures top > 0.0 && forall y, s :: y >= x / 4.0 && Rooted(s, y) ==> StepOk(top, r, x, y, s)
  {
    top := Slack(r);
    SlackPositive(r);
    forall y, s | y >= x / 4.0 && Rooted(s, y) ensures StepOk(top, r, x, y, s) { StepIsOk(r, s, x, y, top); }
  }
  lemma StepIsOk(r: real, s: real, x: real, y: real, top: real)
    requires x > 0.0 && y >= x / 4.0 && Rooted(r, x) && Rooted(s, y) && top == Slack(r)
    ensures StepOk(top, r, x, y, s)
  {
    var k := RootStep(r, s, x, y);
    BoundBy(r, s, k, x, y, top);
  }
  lemma BoundBy(r: real, s: real, k: real, x: real, y: real, top: real)
    requires s - r == Climb(k, x, y) && Abs(k) <= top
    ensures StepOk(top, r, x, y, s)
  {
    AbsMul(k, y - x);
    MulLe(Abs(k), Abs(y - x), top, Abs(y - x));
  }
  function Slack(r: real): real { 2.0 * (r * r * r) + 1.0 }
  lemma RootFactorBound(r: real, s: real, i: real)
    requires r > 0.0 && 0.0 < s <= 2.0 * r && i > 0.0 && i * (r + s) == 1.0
    ensures Abs(RootFactor(r, s, i)) <= Slack(r)
  {
    assert i * r > 0.0;
    assert i * s <= 1.0;
    assert s * s * i == s * (i * s);
    MulLe(s, i * s, 2.0 * r, 1.0) by { assert i * s >= 0.0; }
    assert r * r >= 0.0;
    MulLe(r * r, s * s * i, r * r, 2.0 * r);
    assert r * r * (2.0 * r) == 2.0 * (r * r * r);
    assert -(r * r) * (s * s * i) == -(r * r * (s * s * i));
  }
  lemma SlackPositive(r: real)
    requires r > 0.0
    ensures Slack(r) > 0.0
  {
    assert r * r > 0.0;
    assert r * r * r > 0.0;
  }
  lemma StepWithin(d: real, top: real, h: real, delta: real, eps: real)
    requires d <= top * h && 0.0 <= h <= delta && top > 0.0 && top * delta <= eps
    ensures d <= eps
  {
    MulLe(top, h, top, delta);
  }
  lemma RootContinuous(r: Curve, x: real)
    requires IsRsqrt(r) && x > 0.0
    ensures Continuous(r, x)
  {
    assert RootAt(r, x);
    var top := RootTop(r(x), x);
    forall eps | eps > 0.0 ensures Tends(r, x, eps) {
      var delta := Shrunk(top, 0.75 * x, eps);
      forall y | Abs(y - x) < delta ensures Close(r, x, eps, y) {
        assert RootAt(r, y);
        assert StepOk(top, r(x), x, y, r(y));
        StepWithin(Abs(r(y) - r(x)), top, Abs(y - x), delta, eps);
      }
      assert Near(r, x, eps, delta);
    }
  }
  lemma Invert(a: real) returns (i: real)
    requires a > 0.0
    ensures i * a == 1.0
  {
    i := 1.0 / a;
  }
  /** 1 / (r(x) + r(y)), and with it the difference quotient of r near x. */
  function RootSum(r: Curve, x: real): Curve { Added(Line(r(x), 0.0), r) }
  function Halving(r: Curve, x: real): Curve {
    (y: real) => if RootSum(r, x)(y) == 0.0 then 0.0 else 1.0 / RootSum(r, x)(y)
  }
  lemma HalvingAt(r: Curve, x: real, y: real)
    requires r(x) + r(y) > 0.0
    ensures InverseAt(RootSum(r, x), Halving(r, x), y) && RootSum(r, x)(y) == r(x) + r(y)
  {
    assert Line(r(x), 0.0)(y) == r(x);
  }
  function RootQuotient(r: Curve, x: real): Curve { Scaled(-(r(x) * r(x)), Times(Times(r, r), Halving(r, x))) }
  lemma RootQuotientAt(r: Curve, x: real, y: real)
    ensures RootQuotient(r, x)(y) == RootFactor(r(x), r(y), Halving(r, x)(y))
  {
    var z := Times(Times(r, r), Halving(r, x));
    assert z(y) == r(y) * r(y) * Halving(r, x)(y);
  }
  lemma RootQuotientContinuous(r: Curve, x: real)
    requires IsRsqrt(r) && x > 0.0
    ensures Continuous(RootQuotient(r, x), x)
  {
    var h := Halving(r, x);
    assert RootAt(r, x);
    RootContinuous(r, x);
    ContinuousConstant(r(x), x);
    ContinuousAdd(Line(r(x), 0.0), r, x);
    HalvingAt(r, x, x);
    forall y | Abs(y - x) < x ensures InverseAt(RootSum(r, x), h, y) {
      assert RootAt(r, y);
      HalvingAt(r, x, y);
    }
    assert Inverses(RootSum(r, x), h, x, x);
    ContinuousInverse(RootSum(r, x), h, x, x);
    ContinuousTimes(r, r, x);
    ContinuousTimes(Times(r, r), h, x);
    ContinuousScaled(-(r(x) * r(x)), Times(Times(r, r), h), x);
  }
  lemma RootRises(r: Curve, x: real, y: real)
    requires x > 0.0 && y > 0.0 && RootAt(r, x) && RootAt(r, y)
    ensures Rises(r, x, RootQuotient(r, x), y)
  {
    var i := Halving(r, x)(y);
    HalvingAt(r, x, y);
    RootRise(r(x), r(y), x, y, i);
    RootQuotientAt(r, x, y);
  }
  lemma HalfCubeIs(r: real, i: real)
    requires i * (r + r) == 1.0
    ensures RootFactor(r, r, i) == -0.5 * (r * r * r)
  {
    assert r * i == 0.5;
    assert -(r * r) * (r * r * i) == -(r * r * r) * (r * i);
  }
  /** 1 / sqrt(x) has derivative -(1 / sqrt(x))^3 / 2. */
  lemma RsqrtSlope(r: Curve, x: real)
    requires IsRsqrt(r) && x > 0.0
    ensures Slope(r, x, -0.5 * (r(x) * r(x) * r(x)))
  {
    var m, q := -0.5 * (r(x) * r(x) * r(x)), RootQuotient(r, x);
    assert RootAt(r, x);
    HalvingAt(r, x, x);
    RootQuotientAt(r, x, x);
    HalfCubeIs(r(x), Halving(r, x)(x));
    RootQuotientContinuous(r, x);
    forall y | Abs(y - x) < x ensures EqualAt(q, Quotient(r, x, m), y) {
      assert RootAt(r, y);
      RootRises(r, x, y);
      RiseIsQuotient(r, x, m, q, y);
    }
    ContinuousNear(q, Quotient(r, x, m), x, x);
    SlopeIsLimit(r, x, m);
  }
}
