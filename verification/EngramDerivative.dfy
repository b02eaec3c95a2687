/** The three backward passes together compute the derivative of the forward pass: along every direction of every input
    and weight, the loss starts off at the speed that the gradients say. */
module EngramDerivative {
  import opened Sums
  import opened Slopes
  import E = Engram
  import B = EngramBackward
  import T = EngramTangent
  import G = EngramGradient
  import P = EngramPasses
  import L = Elementary

  type Vec = int -> real
  type Grid = (int, int) -> real
  type Tensor = (int, int, int) -> real

  // ----- the scalar functions of a layer and their derivatives

  function Cube(r: real): real { r * r * r }
  /** The derivatives of the logistic function and of 1 / sqrt, from their values. */
  function Logistic(): Curve { (v: real) => v * (1.0 - v) }
  function HalfCube(): Curve { (r: real) => -0.5 * Cube(r) }
  ghost predicate SigmoidSlope(c: E.Layer, y: real) { Slope(c.sigmoid, y, Logistic()(c.sigmoid(y))) }
  ghost predicate RsqrtSlope(c: E.Layer, y: real) { Slope(c.rsqrt, y, HalfCube()(c.rsqrt(y))) }

  function Inverse(b: real): real { if b == 0.0 then 0.0 else 1.0 / b }
  lemma RatioIs(a: real, b: real)
    ensures E.Ratio(a, b) == a * Inverse(b)
  {
    if b != 0.0 { assert (a * (1.0 / b) - a / b) * b == 0.0; }
  }
  function RatioBy(b: real): Curve { (a: real) => E.Ratio(a, b) }
  lemma RatioSlope(b: real, y: real)
    ensures Slope(RatioBy(b), y, Inverse(b))
  {
    var inv := Inverse(b);
    SlopeLine(0.0, inv, y);
    forall a ensures Line(0.0, inv)(a) == RatioBy(b)(a) { RatioIs(a, b); }
    SlopeSame(Line(0.0, inv), RatioBy(b), y, inv);
  }
  function Mean(c: E.Layer): Curve
    requires c.d > 0.0
  {
    (y: real) => y / c.d + c.eps
  }
  lemma MeanSlope(c: E.Layer, y: real)
    requires c.d > 0.0
    ensures Slope(Mean(c), y, Inverse(c.d))
  {
    RatioSlope(c.d, y);
    SlopeLine(c.eps, 0.0, y);
    SlopeAdd(RatioBy(c.d), Line(c.eps, 0.0), y, Inverse(c.d), 0.0, Inverse(c.d));
    SlopeSame(Added(RatioBy(c.d), Line(c.eps, 0.0)), Mean(c), y, Inverse(c.d));
  }

  /** A sum of squares to its reciprocal root mean square; a dot product to the gate; the activation. */
  function RootOf(c: E.Layer): Curve
    requires c.d > 0.0
  {
    (y: real) => c.rsqrt(y / c.d + c.eps)
  }
  function RootRate(c: E.Layer): Curve
    requires c.d > 0.0
  {
    OwnRate(HalfCube(), RootOf(c), Inverse(c.d))
  }
  function GateOf(c: E.Layer): Curve { (a: real) => c.sigmoid(E.Ratio(a, c.sqrt(c.d))) }
  function GateRate(c: E.Layer): Curve { OwnRate(Logistic(), GateOf(c), Inverse(c.sqrt(c.d))) }
  function ActOf(c: E.Layer): Curve { (y: real) => E.Silu(c, y) }
  function ActRate(c: E.Layer): Curve { (y: real) => B.SiluRate(c.sigmoid, y) }

  /** The derivative of z, f after a line of slope m, when that of f is known from its value. */
  function OwnRate(own: Curve, z: Curve, m: real): Curve { (y: real) => T.Chained(own, z(y), m) }
  lemma ChainSlope(f: Curve, g: Curve, z: Curve, own: Curve, m: real, y: real, v: real)
    requires v == f(g(y)) && Slope(f, g(y), own(v)) && Slope(g, y, m) && forall s :: z(s) == f(g(s))
    ensures Slope(z, y, T.Chained(own, v, m))
  {
    SlopeAfter(f, g, y, own(v), m, T.Chained(own, v, m));
    SlopeSame(After(f, g), z, y, T.Chained(own, v, m));
  }
  lemma ChainRate(f: Curve, g: Curve, z: Curve, own: Curve, m: real, y: real)
    requires Slope(f, g(y), own(f(g(y)))) && Slope(g, y, m) && forall s :: z(s) == f(g(s))
    ensures T.Rate(z, OwnRate(own, z, m), y)
  {
    ChainSlope(f, g, z, own, m, y, z(y));
  }
  lemma RootIsAfter(c: E.Layer)
    requires c.d > 0.0
    ensures forall y :: RootOf(c)(y) == c.rsqrt(Mean(c)(y))
  {
  }
  lemma RootSlope(c: E.Layer, y: real)
    requires c.d > 0.0 && RsqrtSlope(c, Mean(c)(y))
    ensures T.Rate(RootOf(c), RootRate(c), y)
  {
    MeanSlope(c, y);
    RootIsAfter(c);
    ChainRate(c.rsqrt, Mean(c), RootOf(c), HalfCube(), Inverse(c.d), y);
  }
  lemma GateSlope(c: E.Layer, a: real)
    requires SigmoidSlope(c, RatioBy(c.sqrt(c.d))(a))
    ensures T.Rate(GateOf(c), GateRate(c), a)
  {
    RatioSlope(c.sqrt(c.d), a);
    ChainRate(c.sigmoid, RatioBy(c.sqrt(c.d)), GateOf(c), Logistic(), Inverse(c.sqrt(c.d)), a);
  }
  lemma SiluTerm(y: real, l: real, s: real)
    requires l == y
    ensures 1.0 * s + l * (s * (1.0 - s)) == s * (1.0 + y * (1.0 - s))
  {
    assert y * (s * (1.0 - s)) == s * (y * (1.0 - s));
  }
  /** What the backward pass multiplies dY with is the derivative of the activation of the forward pass. */
  lemma SiluSlope(c: E.Layer, y: real)
    requires SigmoidSlope(c, y)
    ensures Slope(ActOf(c), y, B.SiluRate(c.sigmoid, y))
  {
    var line, s := Line(0.0, 1.0), c.sigmoid(y);
    SlopeLine(0.0, 1.0, y);
    SiluTerm(y, line(y), s);
    assert Logistic()(s) == s * (1.0 - s);
    SlopeTimes(line, c.sigmoid, y, 1.0, s * (1.0 - s), B.SiluRate(c.sigmoid, y));
    forall x ensures Times(line, c.sigmoid)(x) == ActOf(c)(x) { assert line(x) == x; }
    SlopeSame(Times(line, c.sigmoid), ActOf(c), y, B.SiluRate(c.sigmoid, y));
  }

  function OpsOf(c: E.Layer, ks: int, size: int): T.Ops
    requires c.d > 0.0
  {
    T.Ops(c.dPad, ks, size, RootOf(c), RootRate(c), GateOf(c), GateRate(c), ActOf(c), ActRate(c))
  }
  /** o are the scalar functions of c and their derivatives. */
  ghost predicate IsOps(c: E.Layer, o: T.Ops)
    requires c.d > 0.0
  {
    && o.n == c.dPad && o.root == RootOf(c) && o.rootRate == RootRate(c) && o.gate == GateOf(c)
    && o.gateRate == GateRate(c) && o.act == ActOf(c) && o.actRate == ActRate(c)
  }

  // ----- the forward pass as the tangent module states it

  /** The scalar functions o are those of the layer c. */
  ghost predicate RootAt(c: E.Layer, o: T.Ops, x: Vec)
    requires c.d > 0.0
  {
    o.root(Sum(E.Squares(x), 0, c.dPad)) == E.Rrms(c, x)
  }
  ghost predicate GateAt(c: E.Layer, o: T.Ops, h: Vec, k: Vec)
    requires c.d > 0.0
  {
    o.gate(Sum(E.GateTerms(c, h, k), 0, c.dPad)) == E.Alpha(c, h, k)
  }
  ghost predicate ActAt(c: E.Layer, o: T.Ops, y: real) { o.act(y) == E.Silu(c, y) }
  ghost predicate Fits(c: E.Layer, o: T.Ops)
    requires c.d > 0.0
  {
    o.n == c.dPad && (forall x :: RootAt(c, o, x)) && (forall h, k :: GateAt(c, o, h, k)) && forall y :: ActAt(c, o, y)
  }
  /** c2 differs from c in its weights only. */
  ghost predicate SameOps(c: E.Layer, c2: E.Layer) {
    c2 == c.(rmsH := c2.rmsH, rmsV := c2.rmsV, convW := c2.convW)
  }
  lemma RootFit(c: E.Layer, c2: E.Layer, o: T.Ops, x: Vec)
    requires c.d > 0.0 && SameOps(c, c2) && o.root == RootOf(c)
    ensures RootAt(c2, o, x)
  {
  }
  lemma GateFit(c: E.Layer, c2: E.Layer, o: T.Ops, h: Vec, k: Vec)
    requires c.d > 0.0 && SameOps(c, c2) && o.gate == GateOf(c)
    ensures GateAt(c2, o, h, k)
  {
  }
  lemma ActFit(c: E.Layer, c2: E.Layer, o: T.Ops, y: real)
    requires SameOps(c, c2) && o.act == ActOf(c)
    ensures ActAt(c2, o, y)
  {
  }
  lemma OpsFit(c: E.Layer, c2: E.Layer, o: T.Ops)
    requires c.d > 0.0 && SameOps(c, c2) && IsOps(c, o)
    ensures Fits(c2, o)
  {
    forall x ensures RootAt(c2, o, x) { RootFit(c, c2, o, x); }
    forall h, k ensures GateAt(c2, o, h, k) { GateFit(c, c2, o, h, k); }
    forall y ensures ActAt(c2, o, y) { ActFit(c, c2, o, y); }
  }
  lemma RootIs(c: E.Layer, o: T.Ops, x: Vec, y: Vec)
    requires c.d > 0.0 && Fits(c, o) && T.Same(x, y)
    ensures T.Root(o, x) == E.Rrms(c, y)
  {
    EnergyIs(x, y, c.dPad);
    assert RootAt(c, o, y);
  }
  lemma ScaledSame(x: Vec, w: Vec, y: Vec, v: Vec, r: real)
    requires T.Same(x, y) && T.Same(w, v)
    ensures T.Same(T.Scaled(x, r, w), T.Scaled(y, r, v))
  {
  }
  lemma NormIs(c: E.Layer, o: T.Ops, x: Vec, w: Vec, y: Vec, v: Vec, r: real)
    requires c.d > 0.0 && Fits(c, o) && T.Same(x, y) && T.Same(w, v) && r == E.Rrms(c, y)
    ensures T.Same(T.Norm(o, x, w), T.Scaled(y, r, v))
  {
    RootIs(c, o, x, y);
    ScaledSame(x, w, y, v, r);
  }
  lemma GateTermsAre(c: E.Layer, h: Vec, k: Vec, rh: real, rk: real)
    requires c.d > 0.0 && rh == E.Rrms(c, h) && rk == E.Rrms(c, k)
    ensures T.Same(E.GateTerms(c, h, k), T.Product(T.Scaled(h, rh, c.rmsH), T.Scaled(k, rk, c.rmsH)))
  {
  }
  lemma NormedIs(c: E.Layer, x: Vec, r: real)
    requires c.d > 0.0 && r == E.Rrms(c, x)
    ensures T.Same(E.Normed(c, x), T.Scaled(x, r, c.rmsV))
  {
  }
  /** x holds the token's vectors and weight. */
  ghost predicate Holds(c: E.Layer, h: Vec, k: Vec, v: Vec, x: T.Parts) {
    T.Same(x.h, h) && T.Same(x.k, k) && T.Same(x.v, v) && T.Same(x.w, c.rmsH)
  }
  lemma DotIs(c: E.Layer, o: T.Ops, h: Vec, k: Vec, v: Vec, x: T.Parts, rh: real, rk: real)
    requires c.d > 0.0 && Fits(c, o) && Holds(c, h, k, v, x) && rh == E.Rrms(c, h) && rk == E.Rrms(c, k)
    ensures T.Dot(o, x) == Sum(E.GateTerms(c, h, k), 0, c.dPad)
  {
    var hn, kn := T.Scaled(h, rh, c.rmsH), T.Scaled(k, rk, c.rmsH);
    NormIs(c, o, x.h, x.w, h, c.rmsH, rh);
    NormIs(c, o, x.k, x.w, k, c.rmsH, rk);
    T.ProductSame(T.HNorm(o, x), T.KNorm(o, x), hn, kn, h, h, c.dPad);
    GateTermsAre(c, h, k, rh, rk);
    SumCongruent(E.GateTerms(c, h, k), T.Product(hn, kn), 0, c.dPad);
  }
  lemma MultipleSame(a: real, x: Vec, y: Vec)
    requires T.Same(x, y)
    ensures T.Same(T.Multiple(a, x), T.Multiple(a, y))
  {
  }
  lemma SameTrans(x: Vec, y: Vec, z: Vec)
    requires T.Same(x, y) && T.Same(z, y)
    ensures T.Same(x, z)
  {
  }
  lemma AlphaIs(c: E.Layer, o: T.Ops, h: Vec, k: Vec, v: Vec, x: T.Parts)
    requires c.d > 0.0 && Fits(c, o) && Holds(c, h, k, v, x)
    ensures T.Alpha(o, x) == E.Alpha(c, h, k)
  {
    DotIs(c, o, h, k, v, x, E.Rrms(c, h), E.Rrms(c, k));
    assert GateAt(c, o, h, k);
  }
  lemma GatedMultiple(c: E.Layer, h: Vec, k: Vec, v: Vec)
    requires c.d > 0.0
    ensures T.Same(E.Gated(c, h, k, v), T.Multiple(E.Alpha(c, h, k), v))
  {
  }
  lemma GatedIs(c: E.Layer, o: T.Ops, h: Vec, k: Vec, v: Vec, x: T.Parts)
    requires c.d > 0.0 && Fits(c, o) && Holds(c, h, k, v, x)
    ensures T.Same(T.Gated(o, x), E.Gated(c, h, k, v))
  {
    AlphaIs(c, o, h, k, v, x);
    GatedMultiple(c, h, k, v);
    MultipleSame(T.Alpha(o, x), x.v, v);
    SameTrans(T.Gated(o, x), T.Multiple(E.Alpha(c, h, k), v), E.Gated(c, h, k, v));
  }

  /** One row of the batch: its tokens. */
  datatype Inputs = Inputs(h: int -> Vec, k: int -> Vec, v: int -> Vec)
  function TapRow(c: E.Layer, p: int): Vec { (j: int) => c.convW(p, j) }
  ghost predicate HoldsAt(c: E.Layer, a: Inputs, x: T.Rates, t: int) { Holds(c, a.h(t), a.k(t), a.v(t), x.token(t)) }
  ghost predicate TapHolds(c: E.Layer, x: T.Rates, p: int) { T.Same(x.taps(p), TapRow(c, p)) }
  ghost predicate RowHolds(c: E.Layer, a: Inputs, x: T.Rates) {
    (forall t :: HoldsAt(c, a, x, t)) && T.Same(x.w, c.rmsV) && forall p :: TapHolds(c, x, p)
  }
  function Gates(c: E.Layer, a: Inputs): int -> Vec
    requires c.d > 0.0
  {
    (t: int) => E.Gated(c, a.h(t), a.k(t), a.v(t))
  }
  lemma RowGatedIs(c: E.Layer, o: T.Ops, a: Inputs, x: T.Rates, t: int)
    requires c.d > 0.0 && Fits(c, o) && RowHolds(c, a, x)
    ensures T.Same(T.Gated(o, x.token(t)), Gates(c, a)(t))
  {
    assert HoldsAt(c, a, x, t);
    GatedIs(c, o, a.h(t), a.k(t), a.v(t), x.token(t));
  }
  lemma RowNormedIs(c: E.Layer, o: T.Ops, a: Inputs, x: T.Rates, t: int, g: Vec)
    requires c.d > 0.0 && Fits(c, o) && RowHolds(c, a, x) && g == Gates(c, a)(t)
    ensures T.Same(T.Normed(o, x, t), E.Normed(c, g))
  {
    RowGatedIs(c, o, a, x, t);
    NormIs(c, o, T.Gated(o, x.token(t)), x.w, g, c.rmsV, E.Rrms(c, g));
    NormedIs(c, g, E.Rrms(c, g));
    SameTrans(T.Normed(o, x, t), T.Scaled(g, E.Rrms(c, g), c.rmsV), E.Normed(c, g));
  }
  ghost predicate HistoryAt(n: int -> Vec, m: Grid, t: int) { forall j :: n(t)(j) == m(t, j) }
  lemma RowHistoryIs(c: E.Layer, o: T.Ops, a: Inputs, x: T.Rates)
    requires c.d > 0.0 && Fits(c, o) && RowHolds(c, a, x)
    ensures forall t :: HistoryAt(T.NormedRows(o, x), E.History(c, Gates(c, a)), t)
  {
    forall t ensures HistoryAt(T.NormedRows(o, x), E.History(c, Gates(c, a)), t) {
      var g := Gates(c, a)(t);
      RowNormedIs(c, o, a, x, t, g);
      HistoryFrom(c, T.NormedRows(o, x), Gates(c, a), t, T.Normed(o, x, t));
    }
  }
  lemma HistoryFrom(c: E.Layer, n: int -> Vec, g: int -> Vec, t: int, z: Vec)
    requires c.d > 0.0 && n(t) == z && T.Same(z, E.Normed(c, g(t)))
    ensures HistoryAt(n, E.History(c, g), t)
  {
    forall j ensures n(t)(j) == E.History(c, g)(t, j) { assert E.History(c, g)(t, j) == E.Normed(c, g(t))(j); }
  }
  /** The convolution of rows that hold the taps and the history of the layer. */
  lemma ConvIs(c: E.Layer, taps: int -> Vec, n: int -> Vec, m: Grid, ks: int, size: int, t: int, j: int)
    requires 0 <= t < size && (forall p :: T.Same(taps(p), TapRow(c, p))) && forall q :: HistoryAt(n, m, q)
    ensures T.Conv(taps, n, ks, size, t, j) == E.Conv(c, ks, 1, m, t, j)
  {
    var f, g := T.Product(T.Column(taps, j), T.History(n, ks, size, t, j)), E.ConvTerms(c, ks, 1, m, t, j);
    forall p | 0 <= p < ks ensures f(p) == g(p) {
      assert T.Same(taps(p), TapRow(c, p));
      var q := T.Source(ks, t, p);
      assert HistoryAt(n, m, q) && q == t - E.Lag(ks, 1, p);
      assert T.Column(taps, j)(p) == c.convW(p, j) && T.History(n, ks, size, t, j)(p) == E.Past(m, q, j);
    }
    SumCongruent(f, g, 0, ks);
  }
  lemma OutputIs(c: E.Layer, o: T.Ops, a: Inputs, x: T.Rates, t: int)
    requires c.d > 0.0 && Fits(c, o) && RowHolds(c, a, x) && 0 <= t < o.size
    ensures T.Same(T.Output(o, x, t), E.Output(c, o.ks, 1, Gates(c, a), t))
  {
    var n, m := T.NormedRows(o, x), E.History(c, Gates(c, a));
    RowHistoryIs(c, o, a, x);
    RowGatedIs(c, o, a, x, t);
    forall p ensures T.Same(x.taps(p), TapRow(c, p)) { assert TapHolds(c, x, p); }
    forall j ensures T.Output(o, x, t)(j) == E.Output(c, o.ks, 1, Gates(c, a), t)(j) {
      ConvIs(c, x.taps, n, m, o.ks, o.size, t, j);
      ActivatedIs(c, o, T.ConvRow(o, x, t), T.Gated(o, x.token(t)), j, E.Conv(c, o.ks, 1, m, t, j), Gates(c, a)(t)(j));
    }
  }
  lemma ActivatedIs(c: E.Layer, o: T.Ops, y: Vec, g: Vec, j: int, b: real, v: real)
    requires c.d > 0.0 && Fits(c, o) && y(j) == b && g(j) == v
    ensures T.Activated(o.act, y, g)(j) == E.Silu(c, b) + v
  {
    assert ActAt(c, o, b);
  }
  /** The loss of a row: the outputs of the forward pass weighted by dY. */
  function WeightedBy(d: Vec, y: Vec): Vec { (j: int) => d(j) * y(j) }
  function TokenLoss(c: E.Layer, ks: int, a: Inputs, dy: int -> Vec, t: int): real
    requires c.d > 0.0
  {
    Sum(WeightedBy(dy(t), E.Output(c, ks, 1, Gates(c, a), t)), 0, c.dPad)
  }
  function TokenLosses(c: E.Layer, ks: int, a: Inputs, dy: int -> Vec): Vec
    requires c.d > 0.0
  {
    (t: int) => TokenLoss(c, ks, a, dy, t)
  }
  function RowLoss(c: E.Layer, ks: int, size: int, a: Inputs, dy: int -> Vec): real
    requires c.d > 0.0
  {
    Sum(TokenLosses(c, ks, a, dy), 0, size)
  }
  lemma TokenLossIs(c: E.Layer, o: T.Ops, a: Inputs, x: T.Rates, dy: int -> Vec, t: int)
    requires c.d > 0.0 && Fits(c, o) && RowHolds(c, a, x) && 0 <= t < o.size
    ensures T.TokenLoss(o, x, dy)(t) == TokenLoss(c, o.ks, a, dy, t)
  {
    OutputIs(c, o, a, x, t);
    TermsAre(dy(t), T.Output(o, x, t), E.Output(c, o.ks, 1, Gates(c, a), t), c.dPad);
  }
  lemma RowLossIs(c: E.Layer, o: T.Ops, a: Inputs, x: T.Rates, dy: int -> Vec)
    requires c.d > 0.0 && Fits(c, o) && RowHolds(c, a, x)
    ensures T.Loss(o, x, dy) == RowLoss(c, o.ks, o.size, a, dy)
  {
    var f, g := T.TokenLoss(o, x, dy), TokenLosses(c, o.ks, a, dy);
    forall t | 0 <= t < o.size ensures f(t) == g(t) { TokenLossIs(c, o, a, x, dy, t); }
    SumCongruent(f, g, 0, o.size);
  }
  lemma TermsAre(d: Vec, x: Vec, y: Vec, n: int)
    requires T.Same(x, y)
    ensures Sum(T.Product(d, x), 0, n) == Sum(WeightedBy(d, y), 0, n)
  {
    SumCongruent(T.Product(d, x), WeightedBy(d, y), 0, n);
  }

  // ----- the whole launch and its directions

  datatype Problem = Problem(c: E.Layer, ks: nat, batch: nat, size: nat, h: Tensor, k: Tensor, v: Tensor, dy: Tensor)
  datatype Direction = Direction(rmsH: Vec, rmsV: Vec, convW: Grid, h: Tensor, k: Tensor, v: Tensor)

  function MovedVec(x: Vec, u: Vec, s: real): Vec { (j: int) => x(j) + s * u(j) }
  function MovedGrid(x: Grid, u: Grid, s: real): Grid { (p: int, j: int) => x(p, j) + s * u(p, j) }
  function MovedTensor(x: Tensor, u: Tensor, s: real): Tensor {
    (b: int, t: int, j: int) => x(b, t, j) + s * u(b, t, j)
  }
  /** The launch with every input and weight moved by s along the direction. */
  function Moved(p: Problem, u: Direction, s: real): Problem {
    p.(c := p.c.(rmsH := MovedVec(p.c.rmsH, u.rmsH, s), rmsV := MovedVec(p.c.rmsV, u.rmsV, s),
                 convW := MovedGrid(p.c.convW, u.convW, s)),
       h := MovedTensor(p.h, u.h, s), k := MovedTensor(p.k, u.k, s), v := MovedTensor(p.v, u.v, s))
  }
  function Rows(x: Tensor, b: int): int -> Vec { (t: int) => P.RowAt(x, b, t) }
  function InputsOf(p: Problem, b: int): Inputs { Inputs(Rows(p.h, b), Rows(p.k, b), Rows(p.v, b)) }
  function RowLosses(p: Problem): Vec
    requires p.c.d > 0.0
  {
    (b: int) => RowLoss(p.c, p.ks, p.size, InputsOf(p, b), Rows(p.dy, b))
  }
  /** The outputs of the forward pass on the whole batch, weighted by dY: what dY is the gradient of. */
  function Loss(p: Problem): real
    requires p.c.d > 0.0
  {
    Sum(RowLosses(p), 0, p.batch)
  }
  function LossAlong(p: Problem, u: Direction): Curve
    requires p.c.d > 0.0
  {
    (s: real) => Loss(Moved(p, u, s))
  }

  function Lines(x: Vec, u: Vec): T.Moving { (j: int) => Line(x(j), u(j)) }
  function TokenOf(p: Problem, u: Direction, b: int, t: int): T.Token {
    T.Token(Lines(P.RowAt(p.h, b, t), P.RowAt(u.h, b, t)), Lines(P.RowAt(p.k, b, t), P.RowAt(u.k, b, t)),
            Lines(P.RowAt(p.v, b, t), P.RowAt(u.v, b, t)), Lines(p.c.rmsH, u.rmsH))
  }
  function SpeedOf(u: Direction, b: int, t: int): T.Parts {
    T.Parts(P.RowAt(u.h, b, t), P.RowAt(u.k, b, t), P.RowAt(u.v, b, t), u.rmsH)
  }
  function TapsOf(x: Grid, p: int): Vec { (j: int) => x(p, j) }
  function NetOf(p: Problem, u: Direction, b: int): T.Net {
    T.Net((t: int) => TokenOf(p, u, b, t), Lines(p.c.rmsV, u.rmsV),
          (q: int) => Lines(TapsOf(p.c.convW, q), TapsOf(u.convW, q)))
  }
  function RatesOf(u: Direction, b: int): T.Rates {
    T.Rates((t: int) => SpeedOf(u, b, t), u.rmsV, (q: int) => TapsOf(u.convW, q))
  }
  lemma LinesMove(x: Vec, u: Vec)
    ensures T.Moves(Lines(x, u), u)
  {
    forall j ensures SlopeAt(Lines(x, u), u, 0.0, j) { SlopeLine(x(j), u(j), 0.0); }
  }
  lemma LinesAt(x: Vec, u: Vec, s: real, y: Vec)
    requires forall j :: y(j) == x(j) + s * u(j)
    ensures T.Same(TermAt(Lines(x, u), s), y)
  {
  }
  lemma TokenMoves(p: Problem, u: Direction, b: int, t: int)
    ensures T.TokenAt(NetOf(p, u, b), RatesOf(u, b), t)
  {
    LinesMove(P.RowAt(p.h, b, t), P.RowAt(u.h, b, t));
    LinesMove(P.RowAt(p.k, b, t), P.RowAt(u.k, b, t));
    LinesMove(P.RowAt(p.v, b, t), P.RowAt(u.v, b, t));
    LinesMove(p.c.rmsH, u.rmsH);
  }
  lemma NetMoves(p: Problem, u: Direction, b: int)
    ensures T.NetMoves(NetOf(p, u, b), RatesOf(u, b))
  {
    forall t ensures T.TokenAt(NetOf(p, u, b), RatesOf(u, b), t) { TokenMoves(p, u, b, t); }
    LinesMove(p.c.rmsV, u.rmsV);
    forall q ensures T.TapAt(NetOf(p, u, b), RatesOf(u, b), q) { LinesMove(TapsOf(p.c.convW, q), TapsOf(u.convW, q)); }
  }
  lemma TokenHolds(p: Problem, u: Direction, b: int, s: real, t: int)
    ensures HoldsAt(Moved(p, u, s).c, InputsOf(Moved(p, u, s), b), T.NetAt(NetOf(p, u, b), s), t)
  {
    var q := Moved(p, u, s);
    LinesAt(P.RowAt(p.h, b, t), P.RowAt(u.h, b, t), s, P.RowAt(q.h, b, t));
    LinesAt(P.RowAt(p.k, b, t), P.RowAt(u.k, b, t), s, P.RowAt(q.k, b, t));
    LinesAt(P.RowAt(p.v, b, t), P.RowAt(u.v, b, t), s, P.RowAt(q.v, b, t));
    LinesAt(p.c.rmsH, u.rmsH, s, q.c.rmsH);
    assert T.NetAt(NetOf(p, u, b), s).token(t) == T.At(TokenOf(p, u, b, t), s);
  }
  lemma NetHolds(p: Problem, u: Direction, b: int, s: real)
    ensures RowHolds(Moved(p, u, s).c, InputsOf(Moved(p, u, s), b), T.NetAt(NetOf(p, u, b), s))
  {
    var q, x := Moved(p, u, s), T.NetAt(NetOf(p, u, b), s);
    forall t ensures HoldsAt(q.c, InputsOf(q, b), x, t) { TokenHolds(p, u, b, s, t); }
    LinesAt(p.c.rmsV, u.rmsV, s, q.c.rmsV);
    forall i ensures TapHolds(q.c, x, i) {
      LinesAt(TapsOf(p.c.convW, i), TapsOf(u.convW, i), s, TapRow(q.c, i));
      assert x.taps(i) == TermAt(Lines(TapsOf(p.c.convW, i), TapsOf(u.convW, i)), s);
    }
  }
  lemma TokenHoldsHere(p: Problem, u: Direction, b: int, t: int)
    ensures HoldsAt(p.c, InputsOf(p, b), T.NetAt(NetOf(p, u, b), 0.0), t)
  {
    LinesAt(P.RowAt(p.h, b, t), P.RowAt(u.h, b, t), 0.0, P.RowAt(p.h, b, t));
    LinesAt(P.RowAt(p.k, b, t), P.RowAt(u.k, b, t), 0.0, P.RowAt(p.k, b, t));
    LinesAt(P.RowAt(p.v, b, t), P.RowAt(u.v, b, t), 0.0, P.RowAt(p.v, b, t));
    LinesAt(p.c.rmsH, u.rmsH, 0.0, p.c.rmsH);
    assert T.NetAt(NetOf(p, u, b), 0.0).token(t) == T.At(TokenOf(p, u, b, t), 0.0);
  }
  /** At parameter 0 the row is the given one. */
  lemma NetHoldsHere(p: Problem, u: Direction, b: int)
    ensures RowHolds(p.c, InputsOf(p, b), T.NetAt(NetOf(p, u, b), 0.0))
  {
    var x := T.NetAt(NetOf(p, u, b), 0.0);
    forall t ensures HoldsAt(p.c, InputsOf(p, b), x, t) { TokenHoldsHere(p, u, b, t); }
    LinesAt(p.c.rmsV, u.rmsV, 0.0, p.c.rmsV);
    forall i ensures TapHolds(p.c, x, i) {
      LinesAt(TapsOf(p.c.convW, i), TapsOf(u.convW, i), 0.0, TapRow(p.c, i));
      assert x.taps(i) == TermAt(Lines(TapsOf(p.c.convW, i), TapsOf(u.convW, i)), 0.0);
    }
  }

  // ----- where the scalar functions need their derivatives

  function MeanSquare(c: E.Layer, x: Vec): real
    requires c.d > 0.0
  {
    Sum(E.Squares(x), 0, c.dPad) / c.d + c.eps
  }
  ghost predicate SmoothToken(c: E.Layer, a: Inputs, t: int)
    requires c.d > 0.0
  {
    && RsqrtSlope(c, MeanSquare(c, a.h(t))) && RsqrtSlope(c, MeanSquare(c, a.k(t)))
    && RsqrtSlope(c, MeanSquare(c, Gates(c, a)(t)))
  }
  /** sigmoid has its derivative everywhere, rsqrt at the mean squares that occur. */
  ghost predicate Differentiable(p: Problem)
    requires p.c.d > 0.0
  {
    && (forall y :: SigmoidSlope(p.c, y))
    && forall b, t :: 0 <= b < p.batch && 0 <= t < p.size ==> SmoothToken(p.c, InputsOf(p, b), t)
  }
  /** sigmoid is 1 / (1 + exp(-x)), rsqrt is 1 / sqrt(x). */
  ghost predicate RealFunctions(c: E.Layer, exp: Curve) {
    L.IsExponential(exp) && L.AllInverse(L.Denominator(exp), c.sigmoid) && L.IsRsqrt(c.rsqrt)
  }
  lemma {:induction false} SquaresNonNegative(x: Vec, n: int)
    ensures Sum(E.Squares(x), 0, n) >= 0.0
    decreases n
  {
    if n > 0 {
      SquaresNonNegative(x, n - 1);
      assert x(n - 1) * x(n - 1) >= 0.0;
    }
  }
  lemma MeanPositive(c: E.Layer, x: Vec)
    requires c.d > 0.0 && c.eps > 0.0
    ensures MeanSquare(c, x) > 0.0
  {
    SquaresNonNegative(x, c.dPad);
    QuotientNonNegative(Sum(E.Squares(x), 0, c.dPad), c.d);
  }
  lemma QuotientNonNegative(a: real, d: real)
    requires a >= 0.0 && d > 0.0
    ensures a / d >= 0.0
  {
  }
  lemma RsqrtAt(c: E.Layer, x: Vec)
    requires c.d > 0.0 && c.eps > 0.0 && L.IsRsqrt(c.rsqrt)
    ensures RsqrtSlope(c, MeanSquare(c, x))
  {
    MeanPositive(c, x);
    RsqrtOf(c, MeanSquare(c, x));
  }
  lemma RsqrtOf(c: E.Layer, y: real)
    requires y > 0.0 && L.IsRsqrt(c.rsqrt)
    ensures RsqrtSlope(c, y)
  {
    L.RsqrtSlope(c.rsqrt, y);
    assert HalfCube()(c.rsqrt(y)) == -0.5 * (c.rsqrt(y) * c.rsqrt(y) * c.rsqrt(y));
  }
  lemma SigmoidOf(c: E.Layer, exp: Curve, y: real)
    requires RealFunctions(c, exp)
    ensures SigmoidSlope(c, y)
  {
    L.LogisticSlope(exp, c.sigmoid, y);
    assert Logistic()(c.sigmoid(y)) == c.sigmoid(y) * (1.0 - c.sigmoid(y));
  }
  /** With the real functions and a positive eps every launch is differentiable. */
  lemma AlwaysDifferentiable(p: Problem, exp: Curve)
    requires p.c.d > 0.0 && p.c.eps > 0.0 && RealFunctions(p.c, exp)
    ensures Differentiable(p)
  {
    forall y ensures SigmoidSlope(p.c, y) { SigmoidOf(p.c, exp, y); }
    forall b, t | 0 <= b < p.batch && 0 <= t < p.size ensures SmoothToken(p.c, InputsOf(p, b), t) {
      var a := InputsOf(p, b);
      RsqrtAt(p.c, a.h(t));
      RsqrtAt(p.c, a.k(t));
      RsqrtAt(p.c, Gates(p.c, a)(t));
    }
  }
  lemma EnergySlope(c: E.Layer, o: T.Ops, x: Vec, y: Vec)
    requires c.d > 0.0 && IsOps(c, o) && T.Same(x, y) && RsqrtSlope(c, MeanSquare(c, y))
    ensures T.Rate(o.root, o.rootRate, T.Energy(o, x))
  {
    EnergyIs(x, y, c.dPad);
    SquaresSlope(c, y);
  }
  lemma EnergyIs(x: Vec, y: Vec, n: int)
    requires T.Same(x, y)
    ensures Sum(T.Product(x, x), 0, n) == Sum(E.Squares(y), 0, n)
  {
    SumCongruent(T.Product(x, x), E.Squares(y), 0, n);
  }
  lemma SquaresSlope(c: E.Layer, y: Vec)
    requires c.d > 0.0 && RsqrtSlope(c, MeanSquare(c, y))
    ensures T.Rate(RootOf(c), RootRate(c), Sum(E.Squares(y), 0, c.dPad))
  {
    MeanIs(c, y);
    RootSlope(c, Sum(E.Squares(y), 0, c.dPad));
  }
  lemma MeanIs(c: E.Layer, y: Vec)
    requires c.d > 0.0
    ensures Mean(c)(Sum(E.Squares(y), 0, c.dPad)) == MeanSquare(c, y)
  {
  }
  lemma RowSmoothAt(c: E.Layer, o: T.Ops, a: Inputs, x: T.Rates, t: int)
    requires c.d > 0.0 && IsOps(c, o) && RowHolds(c, a, x) && SmoothToken(c, a, t)
    requires forall y :: SigmoidSlope(c, y)
    ensures T.SmoothAt(o, x, t)
  {
    assert HoldsAt(c, a, x, t);
    OpsFit(c, c, o);
    RowGatedIs(c, o, a, x, t);
    EnergySlope(c, o, x.token(t).h, a.h(t));
    EnergySlope(c, o, x.token(t).k, a.k(t));
    EnergySlope(c, o, T.Gated(o, x.token(t)), Gates(c, a)(t));
    var y := T.Dot(o, x.token(t));
    assert SigmoidSlope(c, RatioBy(c.sqrt(c.d))(y));
    GateSlope(c, y);
  }
  ghost predicate Suits(p: Problem, o: T.Ops)
    requires p.c.d > 0.0
  {
    IsOps(p.c, o) && o.ks == p.ks && o.size == p.size
  }
  lemma RowSmooth(p: Problem, u: Direction, b: int, o: T.Ops)
    requires p.c.d > 0.0 && Suits(p, o) && 0 <= b < p.batch && Differentiable(p)
    ensures T.Smooth(o, T.NetAt(NetOf(p, u, b), 0.0))
  {
    var x, a := T.NetAt(NetOf(p, u, b), 0.0), InputsOf(p, b);
    NetHoldsHere(p, u, b);
    forall t | 0 <= t < o.size ensures T.SmoothAt(o, x, t) {
      assert SmoothToken(p.c, a, t);
      RowSmoothAt(p.c, o, a, x, t);
    }
    forall y ensures T.Rate(o.act, o.actRate, y) {
      assert SigmoidSlope(p.c, y);
      SiluSlope(p.c, y);
    }
  }

  // ----- the loss of the batch along a direction

  function RowCurves(p: Problem, u: Direction, o: T.Ops): T.Moving {
    (b: int) => T.LossOf(o, NetOf(p, u, b), Rows(p.dy, b))
  }
  function RowTangents(p: Problem, u: Direction, o: T.Ops): Vec {
    (b: int) => T.LossTangent(o, T.NetAt(NetOf(p, u, b), 0.0), RatesOf(u, b), Rows(p.dy, b))
  }
  ghost predicate FitsAt(p: Problem, u: Direction, o: T.Ops, s: real)
    requires p.c.d > 0.0
  {
    Fits(Moved(p, u, s).c, o) && o.ks == p.ks && o.size == p.size
  }
  lemma RowCurveIs(p: Problem, u: Direction, o: T.Ops, b: int, s: real)
    requires p.c.d > 0.0 && FitsAt(p, u, o, s)
    ensures RowCurves(p, u, o)(b)(s) == RowLosses(Moved(p, u, s))(b)
  {
    var q := Moved(p, u, s);
    T.LossHere(o, NetOf(p, u, b), Rows(p.dy, b), s);
    NetHolds(p, u, b, s);
    RowLossIs(q.c, o, InputsOf(q, b), T.NetAt(NetOf(p, u, b), s), Rows(p.dy, b));
  }
  lemma LossIs(p: Problem, u: Direction, o: T.Ops, s: real)
    requires p.c.d > 0.0 && FitsAt(p, u, o, s)
    ensures Total(RowCurves(p, u, o), 0, p.batch)(s) == LossAlong(p, u)(s)
  {
    var q := Moved(p, u, s);
    forall b ensures TermAt(RowCurves(p, u, o), s)(b) == RowLosses(q)(b) { RowCurveIs(p, u, o, b, s); }
    SumCongruent(TermAt(RowCurves(p, u, o), s), RowLosses(q), 0, p.batch);
  }
  lemma RowSlope(o: T.Ops, x: T.Net, u: T.Rates, dy: int -> Vec, F: T.Moving, m: Vec, b: int)
    requires T.NetMoves(x, u) && T.Smooth(o, T.NetAt(x, 0.0)) && F(b) == T.LossOf(o, x, dy)
    requires m(b) == T.LossTangent(o, T.NetAt(x, 0.0), u, dy)
    ensures SlopeAt(F, m, 0.0, b)
  {
    T.LossSlope(o, x, u, dy);
  }
  ghost predicate SmoothRow(p: Problem, u: Direction, o: T.Ops, b: int) { T.Smooth(o, T.NetAt(NetOf(p, u, b), 0.0)) }
  lemma CurvesMove(p: Problem, u: Direction, o: T.Ops)
    requires forall b :: 0 <= b < p.batch ==> SmoothRow(p, u, o, b)
    ensures Slope(Total(RowCurves(p, u, o), 0, p.batch), 0.0, Sum(RowTangents(p, u, o), 0, p.batch))
  {
    var F, m := RowCurves(p, u, o), RowTangents(p, u, o);
    forall b | 0 <= b < p.batch ensures SlopeAt(F, m, 0.0, b) {
      NetMoves(p, u, b);
      assert SmoothRow(p, u, o, b);
      RowSlope(o, NetOf(p, u, b), RatesOf(u, b), Rows(p.dy, b), F, m, b);
    }
    SlopeSum(F, m, 0, p.batch, 0.0);
  }
  lemma CurvesAre(p: Problem, u: Direction, o: T.Ops)
    requires p.c.d > 0.0 && Suits(p, o)
    ensures forall s :: Total(RowCurves(p, u, o), 0, p.batch)(s) == LossAlong(p, u)(s)
  {
    forall s ensures Total(RowCurves(p, u, o), 0, p.batch)(s) == LossAlong(p, u)(s) {
      OpsFit(p.c, Moved(p, u, s).c, o);
      LossIs(p, u, o, s);
    }
  }
  lemma LossSlope(p: Problem, u: Direction, o: T.Ops)
    requires p.c.d > 0.0 && Suits(p, o) && Differentiable(p)
    ensures Slope(LossAlong(p, u), 0.0, Sum(RowTangents(p, u, o), 0, p.batch))
  {
    forall b | 0 <= b < p.batch ensures SmoothRow(p, u, o, b) { RowSmooth(p, u, b, o); }
    CurvesMove(p, u, o);
    CurvesAre(p, u, o);
    SlopeSame(Total(RowCurves(p, u, o), 0, p.batch), LossAlong(p, u), 0.0, Sum(RowTangents(p, u, o), 0, p.batch));
  }
}
