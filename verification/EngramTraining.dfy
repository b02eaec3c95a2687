/** The backward pass as launched: from what the forward pass saved, the three launches compute gradients whose pairing
    with any direction of the inputs and weights is the derivative of the loss along it. */
module EngramTraining {
  import opened Sums
  import opened Slopes
  import E = Engram
  import B = EngramBackward
  import T = EngramTangent
  import G = EngramGradient
  import P = EngramPasses
  import opened EngramDerivative

  // ----- equal arguments give equal gradients

  ghost predicate SameTo(x: Vec, y: Vec, n: int) { forall i :: 0 <= i < n ==> x(i) == y(i) }
  lemma ConvSame(ks: int, w: Vec, w2: Vec, x: Vec, x2: Vec, size: int, t: int)
    requires t < size && SameTo(w, w2, ks) && SameTo(x, x2, size)
    ensures B.Conv(ks, w, x, t) == B.Conv(ks, w2, x2, t)
  {
    SumCongruent(B.ConvTerms(ks, w, x, t), B.ConvTerms(ks, w2, x2, t), 0, ks);
  }
  lemma BackConvSame(ks: int, w: Vec, w2: Vec, d: Vec, d2: Vec, size: int, t: int)
    requires SameTo(w, w2, ks) && SameTo(d, d2, size)
    ensures B.BackConv(ks, w, d, size, t) == B.BackConv(ks, w2, d2, size, t)
  {
    SumCongruent(B.BackTerms(ks, w, d, size, t), B.BackTerms(ks, w2, d2, size, t), 0, ks);
  }
  lemma TapGradSame(ks: int, x: Vec, x2: Vec, d: Vec, d2: Vec, size: int, p: int)
    requires p < ks && SameTo(x, x2, size) && SameTo(d, d2, size)
    ensures B.TapGrad(ks, x, d, size, p) == B.TapGrad(ks, x2, d2, size, p)
  {
    SumCongruent(B.TapTerms(ks, x, d, p), B.TapTerms(ks, x2, d2, p), 0, size);
  }
  lemma WeightedSame(x: Vec, w: Vec, g: Vec, x2: Vec, w2: Vec, g2: Vec, n: int)
    requires T.Same(x, x2) && T.Same(w, w2) && T.Same(g, g2)
    ensures Sum(G.Weighted(x, w, g), 0, n) == Sum(G.Weighted(x2, w2, g2), 0, n)
  {
    SumCongruent(G.Weighted(x, w, g), G.Weighted(x2, w2, g2), 0, n);
  }
  lemma NormBackSame(x: Vec, w: Vec, g: Vec, x2: Vec, w2: Vec, g2: Vec, r: real, k: real)
    requires T.Same(x, x2) && T.Same(w, w2) && T.Same(g, g2)
    ensures T.Same(G.NormBack(x, w, g, r, k), G.NormBack(x2, w2, g2, r, k))
    ensures T.Same(G.WeightBack(x, g, r), G.WeightBack(x2, g2, r))
  {
  }

  // ----- the rates of the layer are the factors of the kernels

  lemma OwnRateAt(own: Curve, z: Curve, m: real, y: real, v: real)
    requires v == z(y)
    ensures OwnRate(own, z, m)(y) == T.Chained(own, v, m)
  {
  }
  lemma PullFactor(r: real, s: real, d: real, rate: real)
    requires d > 0.0 && rate == T.Chained(HalfCube(), r, Inverse(d))
    ensures G.Twofold(rate, s) == P.Pull(r, s, d)
  {
    var inv := Inverse(d);
    assert rate == -0.5 * Cube(r) * inv;
    RatioIs(s, d);
    HalfTwice(Cube(r), inv, s);
  }
  lemma HalfTwice(r3: real, inv: real, s: real)
    ensures 2.0 * (-0.5 * r3 * inv) * s == -(r3 * (s * inv))
  {
  }
  /** The rate of the root mean square, as a factor. */
  lemma PullIs(c: E.Layer, y: real, r: real, s: real, rate: real)
    requires c.d > 0.0 && r == RootOf(c)(y) && rate == RootRate(c)(y)
    ensures G.Twofold(rate, s) == P.Pull(r, s, c.d)
  {
    OwnRateAt(HalfCube(), RootOf(c), Inverse(c.d), y, r);
    PullFactor(r, s, c.d, rate);
  }
  lemma GateFactor(m: real, v: real, s: real, rate: real)
    requires rate == T.Chained(Logistic(), v, Inverse(s))
    ensures G.Through(m, rate) == P.GatePull(m, v, s)
  {
    var l := v * (1.0 - v);
    assert rate == l * Inverse(s);
    RatioIs(m * l, s);
    assert m * (l * Inverse(s)) == m * l * Inverse(s);
  }
  lemma GateIs(c: E.Layer, y: real, v: real, m: real, rate: real)
    requires v == GateOf(c)(y) && rate == GateRate(c)(y)
    ensures G.Through(m, rate) == P.GatePull(m, v, c.sqrt(c.d))
  {
    OwnRateAt(Logistic(), GateOf(c), Inverse(c.sqrt(c.d)), y, v);
    GateFactor(m, v, c.sqrt(c.d), rate);
  }
  /** Back through a normalisation, in the kernels' terms. */
  lemma PullSame(c: E.Layer, o: T.Ops, x: Vec, w: Vec, g: Vec, x2: Vec, w2: Vec, g2: Vec, r: real)
    requires c.d > 0.0 && IsOps(c, o) && T.Same(x, x2) && T.Same(w, w2) && T.Same(g, g2) && r == T.Root(o, x)
    ensures G.PullOf(o, x, w, g) == P.PullBack(x2, w2, g2, r, c.d, c.dPad)
  {
    var s := Sum(G.Weighted(x, w, g), 0, c.dPad);
    var rate := RateOf(c, o, T.Energy(o, x), r, s);
    WeightedSame(x, w, g, x2, w2, g2, c.dPad);
    PullFrom(o, x, w, g, x2, w2, g2, r, c.d, rate, s);
  }
  lemma RateOf(c: E.Layer, o: T.Ops, y: real, r: real, s: real) returns (rate: real)
    requires c.d > 0.0 && IsOps(c, o) && r == o.root(y)
    ensures rate == o.rootRate(y) && G.Twofold(rate, s) == P.Pull(r, s, c.d)
  {
    rate := o.rootRate(y);
    PullIs(c, y, r, s, rate);
  }
  lemma PullFrom(o: T.Ops, x: Vec, w: Vec, g: Vec, x2: Vec, w2: Vec, g2: Vec, r: real, d: real, rate: real, s: real)
    requires d > 0.0 && rate == o.rootRate(T.Energy(o, x)) && G.Twofold(rate, s) == P.Pull(r, s, d)
    requires s == Sum(G.Weighted(x, w, g), 0, o.n) && s == Sum(G.Weighted(x2, w2, g2), 0, o.n)
    ensures G.PullOf(o, x, w, g) == P.PullBack(x2, w2, g2, r, d, o.n)
  {
  }
  lemma NormGradIs(c: E.Layer, o: T.Ops, x: Vec, w: Vec, g: Vec, x2: Vec, w2: Vec, g2: Vec, r: real)
    requires c.d > 0.0 && IsOps(c, o) && T.Same(x, x2) && T.Same(w, w2) && T.Same(g, g2) && r == T.Root(o, x)
    ensures T.Same(G.NormGrad(o, x, w, g), P.NormGradient(x2, w2, g2, r, c.d, c.dPad))
    ensures T.Same(G.WeightBack(x, g, r), G.WeightBack(x2, g2, r))
  {
    PullSame(c, o, x, w, g, x2, w2, g2, r);
    NormBackSame(x, w, g, x2, w2, g2, r, G.PullOf(o, x, w, g));
  }

  // ----- pass 3 at one token

  /** The kernel's data are those of the token. */
  ghost predicate TokenGiven(c: E.Layer, o: T.Ops, z: T.Parts, g: P.Gate, b: int, t: int) {
    && T.Same(z.h, P.RowAt(g.h, b, t)) && T.Same(z.k, P.RowAt(g.k, b, t)) && T.Same(z.v, P.RowAt(g.v, b, t))
    && T.Same(z.w, g.w) && g.alpha(b, t) == T.Alpha(o, z) && g.rrmsH(b, t) == T.Root(o, z.h)
    && g.rrmsK(b, t) == T.Root(o, z.k) && g.n == c.dPad && g.d == c.d && g.sqrtD == c.sqrt(c.d)
  }
  lemma DotGradIs(c: E.Layer, o: T.Ops, z: T.Parts, d: Vec, g: P.Gate, b: int, t: int)
    requires c.d > 0.0 && IsOps(c, o) && TokenGiven(c, o, z, g, b, t) && T.Same(d, P.RowAt(g.dvhat, b, t))
    ensures G.DotGrad(o, z, d) == P.DDot(g, b, t)
  {
    var y := T.Dot(o, z);
    G.InnerSame(d, z.v, P.RowAt(g.dvhat, b, t), P.RowAt(g.v, b, t), c.dPad);
    GateIs(c, y, T.Alpha(o, z), G.Inner(d, z.v, c.dPad), o.gateRate(y));
  }
  lemma MultipleOfScaled(e: real, x: Vec, w: Vec, x2: Vec, w2: Vec, r: real)
    requires T.Same(x, x2) && T.Same(w, w2)
    ensures T.Same(T.Multiple(e, T.Scaled(x, r, w)), T.Multiple(e, T.Scaled(x2, r, w2)))
  {
    ScaledSame(x, w, x2, w2, r);
    MultipleSame(e, T.Scaled(x, r, w), T.Scaled(x2, r, w2));
  }
  lemma ToSides(c: E.Layer, o: T.Ops, z: T.Parts, d: Vec, g: P.Gate, b: int, t: int)
    requires c.d > 0.0 && IsOps(c, o) && TokenGiven(c, o, z, g, b, t) && T.Same(d, P.RowAt(g.dvhat, b, t))
    ensures T.Same(T.Multiple(G.DotGrad(o, z, d), T.KNorm(o, z)), P.ToH(g, b, t))
    ensures T.Same(T.Multiple(G.DotGrad(o, z, d), T.HNorm(o, z)), P.ToK(g, b, t))
  {
    DotGradIs(c, o, z, d, g, b, t);
    var e := P.DDot(g, b, t);
    MultipleOfScaled(e, z.k, z.w, P.RowAt(g.k, b, t), g.w, g.rrmsK(b, t));
    MultipleOfScaled(e, z.h, z.w, P.RowAt(g.h, b, t), g.w, g.rrmsH(b, t));
  }
  lemma RowFrom(D: Tensor, b: int, t: int, x: Vec, y: Vec)
    requires T.Same(x, y) && forall j :: D(b, t, j) == y(j)
    ensures T.Same(x, P.RowAt(D, b, t))
  {
  }
  lemma SideGradsAre(c: E.Layer, o: T.Ops, z: T.Parts, d: Vec, g: P.Gate, b: int, t: int)
    requires c.d > 0.0 && IsOps(c, o) && TokenGiven(c, o, z, g, b, t) && T.Same(d, P.RowAt(g.dvhat, b, t))
    ensures T.Same(G.HGrad(o, z, d), P.RowAt(P.DH(g), b, t)) && T.Same(G.KGrad(o, z, d), P.RowAt(P.DK(g), b, t))
  {
    var h, k, rh, rk := P.RowAt(g.h, b, t), P.RowAt(g.k, b, t), g.rrmsH(b, t), g.rrmsK(b, t);
    var toH, toK, e := P.ToH(g, b, t), P.ToK(g, b, t), G.DotGrad(o, z, d);
    ToSides(c, o, z, d, g, b, t);
    NormGradIs(c, o, z.h, z.w, T.Multiple(e, T.KNorm(o, z)), h, g.w, toH, rh);
    NormGradIs(c, o, z.k, z.w, T.Multiple(e, T.HNorm(o, z)), k, g.w, toK, rk);
    RowFrom(P.DH(g), b, t, G.HGrad(o, z, d), P.NormGradient(h, g.w, toH, rh, c.d, c.dPad));
    RowFrom(P.DK(g), b, t, G.KGrad(o, z, d), P.NormGradient(k, g.w, toK, rk, c.d, c.dPad));
  }
  lemma VGradIs(o: T.Ops, z: T.Parts, d: Vec, g: P.Gate, b: int, t: int)
    requires g.alpha(b, t) == T.Alpha(o, z) && T.Same(d, P.RowAt(g.dvhat, b, t))
    ensures T.Same(G.VGrad(o, z, d), P.RowAt(P.DV(g), b, t))
  {
    MultipleSame(T.Alpha(o, z), d, P.RowAt(g.dvhat, b, t));
    DVRow(g, b, t);
    RowFrom(P.DV(g), b, t, G.VGrad(o, z, d), T.Multiple(T.Alpha(o, z), P.RowAt(g.dvhat, b, t)));
  }
  lemma DVRow(g: P.Gate, b: int, t: int)
    ensures forall j :: P.DV(g)(b, t, j) == T.Multiple(g.alpha(b, t), P.RowAt(g.dvhat, b, t))(j)
  {
  }
  lemma WGradIs(c: E.Layer, o: T.Ops, z: T.Parts, d: Vec, g: P.Gate, b: int, t: int)
    requires c.d > 0.0 && IsOps(c, o) && TokenGiven(c, o, z, g, b, t) && T.Same(d, P.RowAt(g.dvhat, b, t))
    ensures T.Same(G.WGrad(o, z, d), P.RowAt(P.GateShare(g), b, t))
  {
    var h, k, rh, rk := P.RowAt(g.h, b, t), P.RowAt(g.k, b, t), g.rrmsH(b, t), g.rrmsK(b, t);
    var toH, toK, e := P.ToH(g, b, t), P.ToK(g, b, t), G.DotGrad(o, z, d);
    var eh, ek := T.Multiple(e, T.KNorm(o, z)), T.Multiple(e, T.HNorm(o, z));
    ToSides(c, o, z, d, g, b, t);
    NormBackSame(z.h, z.w, eh, h, g.w, toH, rh, 0.0);
    NormBackSame(z.k, z.w, ek, k, g.w, toK, rk, 0.0);
    var a1, a2 := G.WeightBack(h, toH, rh), G.WeightBack(k, toK, rk);
    PlusSame(G.WeightBack(z.h, eh, rh), G.WeightBack(z.k, ek, rk), a1, a2);
    ShareRow(g, b, t);
    RowFrom(P.GateShare(g), b, t, G.WGrad(o, z, d), G.Plus(a1, a2));
  }
  lemma ShareRow(g: P.Gate, b: int, t: int)
    ensures var a1 := G.WeightBack(P.RowAt(g.h, b, t), P.ToH(g, b, t), g.rrmsH(b, t));
      var a2 := G.WeightBack(P.RowAt(g.k, b, t), P.ToK(g, b, t), g.rrmsK(b, t));
      forall j :: P.GateShare(g)(b, t, j) == G.Plus(a1, a2)(j)
  {
  }
  lemma PlusSame(x: Vec, y: Vec, x2: Vec, y2: Vec)
    requires T.Same(x, x2) && T.Same(y, y2)
    ensures T.Same(G.Plus(x, y), G.Plus(x2, y2))
  {
  }

  // ----- what the forward pass saved

  datatype Saved = Saved(vhat: Tensor, alpha: Grid, rrmsH: Grid, rrmsK: Grid, rrmsV: Grid)
  ghost predicate SavedAt(c: E.Layer, a: Inputs, f: Saved, b: int, t: int)
    requires c.d > 0.0
  {
    && T.Same(P.RowAt(f.vhat, b, t), Gates(c, a)(t)) && f.rrmsV(b, t) == E.Rrms(c, Gates(c, a)(t))
    && f.alpha(b, t) == E.Alpha(c, a.h(t), a.k(t))
    && f.rrmsH(b, t) == E.Rrms(c, a.h(t)) && f.rrmsK(b, t) == E.Rrms(c, a.k(t))
  }
  ghost predicate SavedRow(p: Problem, f: Saved, b: int)
    requires p.c.d > 0.0
  {
    forall t :: 0 <= t < p.size ==> SavedAt(p.c, InputsOf(p, b), f, b, t)
  }
  function BwdOf(p: Problem, f: Saved): B.Bwd {
    B.Bwd(p.c.dPad, p.c.d, p.ks, p.size, p.c.convW, f.vhat, f.rrmsV, p.c.rmsV, p.dy, p.c.sigmoid)
  }
  function GateFor(p: Problem, f: Saved, dvhat: Tensor): P.Gate {
    P.Gate(p.size, p.c.dPad, p.c.d, p.c.sqrt(p.c.d), p.c.rmsH, p.h, p.k, p.v, dvhat, f.alpha, f.rrmsH, f.rrmsK)
  }

  // ----- passes 1 and 2 on one row

  lemma NormedLink(p: Problem, o: T.Ops, x: T.Rates, f: Saved, b: int, t: int, j: int)
    requires p.c.d > 0.0 && Fits(p.c, o) && RowHolds(p.c, InputsOf(p, b), x)
    requires SavedAt(p.c, InputsOf(p, b), f, b, t)
    ensures T.NormedRows(o, x)(t)(j) == B.Normed(BwdOf(p, f), j)(b, t)
  {
    var c, g := p.c, Gates(p.c, InputsOf(p, b))(t);
    RowNormedIs(c, o, InputsOf(p, b), x, t, g);
    NormedIs(c, g, f.rrmsV(b, t));
    ScaledSame(P.RowAt(f.vhat, b, t), c.rmsV, g, c.rmsV, f.rrmsV(b, t));
    NormedAt(p, f, b, t, j, T.Scaled(P.RowAt(f.vhat, b, t), f.rrmsV(b, t), c.rmsV)(j));
  }
  lemma NormedAt(p: Problem, f: Saved, b: int, t: int, j: int, v: real)
    requires v == T.Scaled(P.RowAt(f.vhat, b, t), f.rrmsV(b, t), p.c.rmsV)(j)
    ensures B.Normed(BwdOf(p, f), j)(b, t) == v
  {
  }
  /** Channel j of the row, in both forms. */
  ghost predicate ChannelLinked(p: Problem, o: T.Ops, x: T.Rates, f: Saved, b: int, j: int) {
    && SameTo(G.Channel(T.NormedRows(o, x), j), B.RowOf(B.Normed(BwdOf(p, f), j), b), p.size)
    && SameTo(T.Column(x.taps, j), B.Taps(BwdOf(p, f), j), p.ks)
  }
  lemma ChannelLinks(p: Problem, o: T.Ops, x: T.Rates, f: Saved, b: int, j: int)
    requires p.c.d > 0.0 && Fits(p.c, o) && RowHolds(p.c, InputsOf(p, b), x) && SavedRow(p, f, b)
    ensures ChannelLinked(p, o, x, f, b, j)
  {
    var n, m := G.Channel(T.NormedRows(o, x), j), B.RowOf(B.Normed(BwdOf(p, f), j), b);
    forall t | 0 <= t < p.size ensures n(t) == m(t) {
      assert SavedAt(p.c, InputsOf(p, b), f, b, t);
      NormedLink(p, o, x, f, b, t, j);
    }
    forall q | 0 <= q < p.ks ensures T.Column(x.taps, j)(q) == B.Taps(BwdOf(p, f), j)(q) {
      assert TapHolds(p.c, x, q);
    }
  }
  lemma ConvLink(p: Problem, o: T.Ops, x: T.Rates, f: Saved, b: int, t: int, j: int)
    requires ChannelLinked(p, o, x, f, b, j) && 0 <= t < p.size && o.ks == p.ks && o.size == p.size
    ensures T.ConvRow(o, x, t)(j) == B.Conv(p.ks, B.Taps(BwdOf(p, f), j), B.RowOf(B.Normed(BwdOf(p, f), j), b), t)
  {
    G.ConvIs(x.taps, T.NormedRows(o, x), p.ks, p.size, t, j);
    ConvSame(p.ks, T.Column(x.taps, j), B.Taps(BwdOf(p, f), j), G.Channel(T.NormedRows(o, x), j),
             B.RowOf(B.Normed(BwdOf(p, f), j), b), p.size, t);
  }
  lemma ActGradIs(p: Problem, o: T.Ops, x: T.Rates, f: Saved, b: int, t: int, j: int)
    requires ChannelLinked(p, o, x, f, b, j) && 0 <= t < p.size && o.ks == p.ks && o.size == p.size
    requires o.actRate == ActRate(p.c)
    ensures G.ActGrad(o, x, Rows(p.dy, b))(t)(j) == B.DSilus(BwdOf(p, f))(b, t, j)
  {
    ConvLink(p, o, x, f, b, t, j);
    var y := T.ConvRow(o, x, t)(j);
    var rate := RateHere(p.c, o, y);
    ActGradAt(o, x, Rows(p.dy, b), t, j, y, p.dy(b, t, j), rate);
    DSiluAt(BwdOf(p, f), b, t, j, y, rate);
  }
  lemma RateHere(c: E.Layer, o: T.Ops, y: real) returns (rate: real)
    requires o.actRate == ActRate(c)
    ensures rate == o.actRate(y) && rate == B.SiluRate(c.sigmoid, y)
  {
    rate := o.actRate(y);
  }
  lemma ActGradAt(o: T.Ops, x: T.Rates, dy: int -> Vec, t: int, j: int, y: real, v: real, rate: real)
    requires y == T.ConvRow(o, x, t)(j) && v == dy(t)(j) && rate == o.actRate(y)
    ensures G.ActGrad(o, x, dy)(t)(j) == G.Through(v, rate)
  {
  }
  lemma DSiluAt(c: B.Bwd, b: int, t: int, j: int, y: real, rate: real)
    requires y == B.Conv(c.ks, B.Taps(c, j), B.RowOf(B.Normed(c, j), b), t) && rate == B.SiluRate(c.sigmoid, y)
    ensures B.DSilus(c)(b, t, j) == G.Through(c.dy(b, t, j), rate)
  {
    assert B.DSilus(c)(b, t, j) == B.DSilu(c, j)(b, t);
  }
  /** What pass 1 leaves of row b in its buffer. */
  ghost predicate BufferHolds(p: Problem, f: Saved, din: Tensor, b: int) {
    forall t, j :: 0 <= t < p.size ==> din(b, t, j) == B.DSilus(BwdOf(p, f))(b, t, j)
  }
  lemma GradChannels(p: Problem, o: T.Ops, x: T.Rates, f: Saved, din: Tensor, b: int, j: int)
    requires ChannelLinked(p, o, x, f, b, j) && o.ks == p.ks && o.size == p.size && o.actRate == ActRate(p.c)
    requires BufferHolds(p, f, din, b)
    ensures SameTo(G.Channel(G.ActGrad(o, x, Rows(p.dy, b)), j), B.Channel(din, b, j), p.size)
    ensures SameTo(G.Channel(G.ActGrad(o, x, Rows(p.dy, b)), j), B.RowOf(B.DSilu(BwdOf(p, f), j), b), p.size)
  {
    var d := G.Channel(G.ActGrad(o, x, Rows(p.dy, b)), j);
    forall t | 0 <= t < p.size ensures d(t) == B.Channel(din, b, j)(t) == B.RowOf(B.DSilu(BwdOf(p, f), j), b)(t) {
      ActGradIs(p, o, x, f, b, t, j);
    }
  }
  lemma InputGradIs(p: Problem, o: T.Ops, x: T.Rates, f: Saved, din: Tensor, b: int, t: int, j: int)
    requires ChannelLinked(p, o, x, f, b, j) && o.ks == p.ks && o.size == p.size && o.actRate == ActRate(p.c)
    requires BufferHolds(p, f, din, b)
    ensures G.InputGrad(o, x.taps, G.ActGrad(o, x, Rows(p.dy, b)))(t)(j) == P.Vnorm(BwdOf(p, f), din, b, t)(j)
  {
    GradChannels(p, o, x, f, din, b, j);
    BackConvSame(p.ks, T.Column(x.taps, j), B.Taps(BwdOf(p, f), j), G.Channel(G.ActGrad(o, x, Rows(p.dy, b)), j),
                 B.Channel(din, b, j), p.size, t);
  }
  function TapShare(p: Problem, f: Saved, b: int, j: int): Vec {
    (q: int) => B.TapGrad(p.ks, B.RowOf(B.Normed(BwdOf(p, f), j), b), B.RowOf(B.DSilu(BwdOf(p, f), j), b), p.size, q)
  }
  lemma TapShareIs(p: Problem, o: T.Ops, x: T.Rates, f: Saved, din: Tensor, b: int, j: int)
    requires ChannelLinked(p, o, x, f, b, j) && o.ks == p.ks && o.size == p.size && o.actRate == ActRate(p.c)
    requires BufferHolds(p, f, din, b)
    ensures SameTo(T.Column(G.TapGrad(o, T.NormedRows(o, x), G.ActGrad(o, x, Rows(p.dy, b))), j),
                   TapShare(p, f, b, j), p.ks)
  {
    var d := G.ActGrad(o, x, Rows(p.dy, b));
    GradChannels(p, o, x, f, din, b, j);
    forall q | 0 <= q < p.ks
      ensures T.Column(G.TapGrad(o, T.NormedRows(o, x), d), j)(q) == TapShare(p, f, b, j)(q)
    {
      TapGradSame(p.ks, G.Channel(T.NormedRows(o, x), j), B.RowOf(B.Normed(BwdOf(p, f), j), b), G.Channel(d, j),
                  B.RowOf(B.DSilu(BwdOf(p, f), j), b), p.size, q);
    }
  }

  lemma GatedLink(p: Problem, o: T.Ops, x: T.Rates, f: Saved, b: int, t: int)
    requires p.c.d > 0.0 && Fits(p.c, o) && RowHolds(p.c, InputsOf(p, b), x)
    requires SavedAt(p.c, InputsOf(p, b), f, b, t)
    ensures T.Same(T.Gated(o, x.token(t)), P.RowAt(f.vhat, b, t))
    ensures f.rrmsV(b, t) == T.Root(o, T.Gated(o, x.token(t)))
  {
    var g := Gates(p.c, InputsOf(p, b))(t);
    RowGatedIs(p.c, o, InputsOf(p, b), x, t);
    RootIs(p.c, o, T.Gated(o, x.token(t)), g);
    SameTrans(T.Gated(o, x.token(t)), g, P.RowAt(f.vhat, b, t));
  }
  lemma DVhatRow(c: B.Bwd, din: Tensor, b: int, t: int)
    requires c.d > 0.0
    ensures var z := P.NormGradient(P.RowAt(c.vhat, b, t), c.rmsV, P.Vnorm(c, din, b, t), c.rrms(b, t), c.d, c.n);
      forall j :: P.DVhat(c, din)(b, t, j) == G.Plus(z, P.RowAt(c.dy, b, t))(j)
    ensures var z := G.WeightBack(P.RowAt(c.vhat, b, t), P.Vnorm(c, din, b, t), c.rrms(b, t));
      forall j :: P.RmsShare(c, din)(b, t, j) == z(j)
  {
  }
  lemma GatedGradIs(p: Problem, o: T.Ops, x: T.Rates, f: Saved, din: Tensor, g: int -> Vec, b: int, t: int)
    requires p.c.d > 0.0 && IsOps(p.c, o) && RowHolds(p.c, InputsOf(p, b), x)
    requires SavedAt(p.c, InputsOf(p, b), f, b, t) && T.Same(g(t), P.Vnorm(BwdOf(p, f), din, b, t))
    ensures T.Same(G.GatedGrad(o, x, Rows(p.dy, b), g, t), P.RowAt(P.DVhat(BwdOf(p, f), din), b, t))
    ensures T.Same(G.OuterGrad(o, x, g, t), P.RowAt(P.RmsShare(BwdOf(p, f), din), b, t))
  {
    var c, bw, y, r := p.c, BwdOf(p, f), T.Gated(o, x.token(t)), f.rrmsV(b, t);
    var y2, g2, dy := P.RowAt(f.vhat, b, t), P.Vnorm(bw, din, b, t), P.RowAt(p.dy, b, t);
    OpsFit(c, c, o);
    GatedLink(p, o, x, f, b, t);
    NormGradIs(c, o, y, x.w, g(t), y2, c.rmsV, g2, r);
    DVhatRow(bw, din, b, t);
    PlusSame(G.NormGrad(o, y, x.w, g(t)), dy, P.NormGradient(y2, c.rmsV, g2, r, c.d, c.dPad), dy);
    RowFrom(P.DVhat(bw, din), b, t, G.GatedGrad(o, x, Rows(p.dy, b), g, t),
            G.Plus(P.NormGradient(y2, c.rmsV, g2, r, c.d, c.dPad), dy));
    RowFrom(P.RmsShare(bw, din), b, t, G.OuterGrad(o, x, g, t), G.WeightBack(y2, g2, r));
  }
  lemma GivenFor(p: Problem, o: T.Ops, x: T.Rates, f: Saved, dvhat: Tensor, b: int, t: int)
    requires p.c.d > 0.0 && Fits(p.c, o) && RowHolds(p.c, InputsOf(p, b), x) && SavedAt(p.c, InputsOf(p, b), f, b, t)
    ensures TokenGiven(p.c, o, x.token(t), GateFor(p, f, dvhat), b, t)
  {
    var a := InputsOf(p, b);
    assert HoldsAt(p.c, a, x, t);
    AlphaIs(p.c, o, a.h(t), a.k(t), a.v(t), x.token(t));
    RootIs(p.c, o, x.token(t).h, a.h(t));
    RootIs(p.c, o, x.token(t).k, a.k(t));
  }

  // ----- the gradients paired with a direction

  /** Token (b, t): the inputs' gradients, and its shares of the two weights', each paired with its direction. */
  function InputPair(u: Direction, g: P.Out, n: int, b: int, t: int): real {
    G.Inner(P.RowAt(u.v, b, t), P.RowAt(g.v, b, t), n) + G.Inner(P.RowAt(u.h, b, t), P.RowAt(g.h, b, t), n) +
    G.Inner(P.RowAt(u.k, b, t), P.RowAt(g.k, b, t), n)
  }
  function PairAt(u: Direction, g: P.Out, wh: Tensor, wv: Tensor, n: int, b: int, t: int): real {
    InputPair(u, g, n, b, t) + G.Inner(u.rmsH, P.RowAt(wh, b, t), n) + G.Inner(u.rmsV, P.RowAt(wv, b, t), n)
  }
  function PairsAt(u: Direction, g: P.Out, wh: Tensor, wv: Tensor, n: int, b: int): Vec {
    (t: int) => PairAt(u, g, wh, wv, n, b, t)
  }
  /** What the third pass should write. */
  function OutOf(g: P.Gate): P.Out requires g.d > 0.0 { P.Out(P.DH(g), P.DK(g), P.DV(g)) }

  lemma TokenPairLink(o: T.Ops, x: T.Rates, u: Direction, dy: int -> Vec, g: int -> Vec, b: int, t: int, out: P.Out,
                      wh: Tensor, wv: Tensor)
    requires var z, d := x.token(t), G.GatedGrad(o, x, dy, g, t);
      && T.Same(G.HGrad(o, z, d), P.RowAt(out.h, b, t)) && T.Same(G.KGrad(o, z, d), P.RowAt(out.k, b, t))
      && T.Same(G.VGrad(o, z, d), P.RowAt(out.v, b, t)) && T.Same(G.WGrad(o, z, d), P.RowAt(wh, b, t))
      && T.Same(G.OuterGrad(o, x, g, t), P.RowAt(wv, b, t))
    ensures G.TokenPair(o, x, RatesOf(u, b), dy, g, t) == PairAt(u, out, wh, wv, o.n, b, t)
  {
    var z, d, v := x.token(t), G.GatedGrad(o, x, dy, g, t), SpeedOf(u, b, t);
    assert RatesOf(u, b).token(t) == v;
    G.InnerSame(v.h, G.HGrad(o, z, d), v.h, P.RowAt(out.h, b, t), o.n);
    G.InnerSame(v.k, G.KGrad(o, z, d), v.k, P.RowAt(out.k, b, t), o.n);
    G.InnerSame(v.v, G.VGrad(o, z, d), v.v, P.RowAt(out.v, b, t), o.n);
    G.InnerSame(v.w, G.WGrad(o, z, d), v.w, P.RowAt(wh, b, t), o.n);
    G.InnerSame(u.rmsV, G.OuterGrad(o, x, g, t), u.rmsV, P.RowAt(wv, b, t), o.n);
  }
  /** One token: the pairing of the gradient functions is that of the kernels' results. */
  lemma TokenIs(p: Problem, u: Direction, o: T.Ops, x: T.Rates, f: Saved, din: Tensor, dvhat: Tensor, g: int -> Vec,
                b: int, t: int)
    requires p.c.d > 0.0 && IsOps(p.c, o) && RowHolds(p.c, InputsOf(p, b), x)
    requires SavedAt(p.c, InputsOf(p, b), f, b, t) && T.Same(g(t), P.Vnorm(BwdOf(p, f), din, b, t))
    requires T.Same(P.RowAt(P.DVhat(BwdOf(p, f), din), b, t), P.RowAt(dvhat, b, t))
    ensures var gt := GateFor(p, f, dvhat);
      G.TokenPair(o, x, RatesOf(u, b), Rows(p.dy, b), g, t) ==
        PairAt(u, OutOf(gt), P.GateShare(gt), P.RmsShare(BwdOf(p, f), din), o.n, b, t)
  {
    var gt, d := GateFor(p, f, dvhat), G.GatedGrad(o, x, Rows(p.dy, b), g, t);
    OpsFit(p.c, p.c, o);
    GatedGradIs(p, o, x, f, din, g, b, t);
    GivenFor(p, o, x, f, dvhat, b, t);
    SameChain(d, P.RowAt(P.DVhat(BwdOf(p, f), din), b, t), P.RowAt(dvhat, b, t));
    SideGradsAre(p.c, o, x.token(t), d, gt, b, t);
    VGradIs(o, x.token(t), d, gt, b, t);
    WGradIs(p.c, o, x.token(t), d, gt, b, t);
    TokenPairLink(o, x, u, Rows(p.dy, b), g, b, t, OutOf(gt), P.GateShare(gt), P.RmsShare(BwdOf(p, f), din));
  }
  lemma SameChain(x: Vec, y: Vec, z: Vec)
    requires T.Same(x, y) && T.Same(y, z)
    ensures T.Same(x, z)
  {
  }

  // ----- one row

  function ColumnOf(x: Grid, j: int): Vec { (q: int) => x(q, j) }
  function TapPairs(p: Problem, u: Direction, f: Saved, b: int): Vec {
    (j: int) => G.Inner(ColumnOf(u.convW, j), TapShare(p, f, b, j), p.ks)
  }
  lemma TapPairIs(p: Problem, u: Direction, f: Saved, b: int, j: int, g: int -> Vec)
    requires SameTo(T.Column(g, j), TapShare(p, f, b, j), p.ks)
    ensures G.Inner(T.Column(RatesOf(u, b).taps, j), T.Column(g, j), p.ks) == TapPairs(p, u, f, b)(j)
  {
    var w := T.Column(RatesOf(u, b).taps, j);
    forall q ensures w(q) == u.convW(q, j) { assert RatesOf(u, b).taps(q) == TapsOf(u.convW, q); }
    SumCongruent(T.Product(w, T.Column(g, j)), T.Product(ColumnOf(u.convW, j), TapShare(p, f, b, j)), 0, p.ks);
  }
  /** The buffers between the passes hold row b. */
  ghost predicate RowBuffers(p: Problem, f: Saved, din: Tensor, dvhat: Tensor, b: int)
    requires p.c.d > 0.0
  {
    && SavedRow(p, f, b) && BufferHolds(p, f, din, b)
    && forall t :: 0 <= t < p.size ==> T.Same(P.RowAt(P.DVhat(BwdOf(p, f), din), b, t), P.RowAt(dvhat, b, t))
  }
  lemma RowTapsAre(p: Problem, u: Direction, o: T.Ops, x: T.Rates, f: Saved, din: Tensor, b: int)
    requires p.c.d > 0.0 && Suits(p, o) && RowHolds(p.c, InputsOf(p, b), x) && SavedRow(p, f, b)
    requires BufferHolds(p, f, din, b)
    ensures var g := G.TapGrad(o, T.NormedRows(o, x), G.ActGrad(o, x, Rows(p.dy, b)));
      Sum(G.TapPairs(RatesOf(u, b).taps, g, o.ks), 0, o.n) == Sum(TapPairs(p, u, f, b), 0, o.n)
  {
    var g := G.TapGrad(o, T.NormedRows(o, x), G.ActGrad(o, x, Rows(p.dy, b)));
    OpsFit(p.c, p.c, o);
    forall j ensures G.TapPairs(RatesOf(u, b).taps, g, o.ks)(j) == TapPairs(p, u, f, b)(j) {
      ChannelLinks(p, o, x, f, b, j);
      TapShareIs(p, o, x, f, din, b, j);
      TapPairIs(p, u, f, b, j, g);
    }
    SumCongruent(G.TapPairs(RatesOf(u, b).taps, g, o.ks), TapPairs(p, u, f, b), 0, o.n);
  }
  lemma RowInputIs(p: Problem, o: T.Ops, x: T.Rates, f: Saved, din: Tensor, b: int, t: int)
    requires p.c.d > 0.0 && Suits(p, o) && RowHolds(p.c, InputsOf(p, b), x) && SavedRow(p, f, b)
    requires BufferHolds(p, f, din, b)
    ensures T.Same(G.InputGrad(o, x.taps, G.ActGrad(o, x, Rows(p.dy, b)))(t), P.Vnorm(BwdOf(p, f), din, b, t))
  {
    var g := G.InputGrad(o, x.taps, G.ActGrad(o, x, Rows(p.dy, b)));
    OpsFit(p.c, p.c, o);
    forall j ensures g(t)(j) == P.Vnorm(BwdOf(p, f), din, b, t)(j) {
      ChannelLinks(p, o, x, f, b, j);
      InputGradIs(p, o, x, f, din, b, t, j);
    }
  }
  function RowPairs(p: Problem, u: Direction, f: Saved, din: Tensor, dvhat: Tensor, b: int): Vec
    requires p.c.d > 0.0
  {
    var gt := GateFor(p, f, dvhat);
    PairsAt(u, OutOf(gt), P.GateShare(gt), P.RmsShare(BwdOf(p, f), din), p.c.dPad, b)
  }
  lemma RowTokensAre(p: Problem, u: Direction, o: T.Ops, x: T.Rates, f: Saved, din: Tensor, dvhat: Tensor, b: int)
    requires p.c.d > 0.0 && Suits(p, o) && RowHolds(p.c, InputsOf(p, b), x) && RowBuffers(p, f, din, dvhat, b)
    ensures var g := G.InputGrad(o, x.taps, G.ActGrad(o, x, Rows(p.dy, b)));
      Sum(G.TokenPairs(o, x, RatesOf(u, b), Rows(p.dy, b), g), 0, o.size) ==
        Sum(RowPairs(p, u, f, din, dvhat, b), 0, p.size)
  {
    var g := G.InputGrad(o, x.taps, G.ActGrad(o, x, Rows(p.dy, b)));
    forall t | 0 <= t < p.size ensures TokenAgrees(p, u, o, x, f, din, dvhat, b, g, t) {
      RowTokenIs(p, u, o, x, f, din, dvhat, b, g, t);
    }
    TokenSums(p, u, o, x, f, din, dvhat, b, g);
  }
  ghost predicate TokenAgrees(p: Problem, u: Direction, o: T.Ops, x: T.Rates, f: Saved, din: Tensor, dvhat: Tensor,
                              b: int, g: int -> Vec, t: int)
    requires p.c.d > 0.0
  {
    G.TokenPairs(o, x, RatesOf(u, b), Rows(p.dy, b), g)(t) == RowPairs(p, u, f, din, dvhat, b)(t)
  }
  lemma TokenSums(p: Problem, u: Direction, o: T.Ops, x: T.Rates, f: Saved, din: Tensor, dvhat: Tensor, b: int,
                  g: int -> Vec)
    requires p.c.d > 0.0 && forall t :: 0 <= t < p.size ==> TokenAgrees(p, u, o, x, f, din, dvhat, b, g, t)
    ensures Sum(G.TokenPairs(o, x, RatesOf(u, b), Rows(p.dy, b), g), 0, p.size) ==
      Sum(RowPairs(p, u, f, din, dvhat, b), 0, p.size)
  {
    var a, z := G.TokenPairs(o, x, RatesOf(u, b), Rows(p.dy, b), g), RowPairs(p, u, f, din, dvhat, b);
    forall t | 0 <= t < p.size ensures a(t) == z(t) { assert TokenAgrees(p, u, o, x, f, din, dvhat, b, g, t); }
    SumCongruent(a, z, 0, p.size);
  }
  lemma RowTokenIs(p: Problem, u: Direction, o: T.Ops, x: T.Rates, f: Saved, din: Tensor, dvhat: Tensor, b: int,
                   g: int -> Vec, t: int)
    requires p.c.d > 0.0 && Suits(p, o) && RowHolds(p.c, InputsOf(p, b), x) && RowBuffers(p, f, din, dvhat, b)
    requires g == G.InputGrad(o, x.taps, G.ActGrad(o, x, Rows(p.dy, b))) && 0 <= t < p.size
    ensures TokenAgrees(p, u, o, x, f, din, dvhat, b, g, t)
  {
    assert SavedAt(p.c, InputsOf(p, b), f, b, t);
    RowInputIs(p, o, x, f, din, b, t);
    TokenIs(p, u, o, x, f, din, dvhat, g, b, t);
    PairsHere(p, u, f, din, dvhat, b, t);
  }
  lemma PairsHere(p: Problem, u: Direction, f: Saved, din: Tensor, dvhat: Tensor, b: int, t: int)
    requires p.c.d > 0.0
    ensures var gt, wv := GateFor(p, f, dvhat), P.RmsShare(BwdOf(p, f), din);
      RowPairs(p, u, f, din, dvhat, b)(t) == PairAt(u, OutOf(gt), P.GateShare(gt), wv, p.c.dPad, b, t)
  {
  }
  lemma RowIs(p: Problem, u: Direction, o: T.Ops, f: Saved, din: Tensor, dvhat: Tensor, b: int)
    requires p.c.d > 0.0 && Suits(p, o) && RowBuffers(p, f, din, dvhat, b)
    ensures RowTangents(p, u, o)(b) ==
      Sum(TapPairs(p, u, f, b), 0, p.c.dPad) + Sum(RowPairs(p, u, f, din, dvhat, b), 0, p.size)
  {
    var x := T.NetAt(NetOf(p, u, b), 0.0);
    NetHoldsHere(p, u, b);
    G.RowAdjoint(o, x, RatesOf(u, b), Rows(p.dy, b));
    RowTapsAre(p, u, o, x, f, din, b);
    RowTokensAre(p, u, o, x, f, din, dvhat, b);
  }

  // ----- all rows

  function Constantly(w: Vec): int -> Vec { (b: int) => w }
  /** Pairing with a sum of vectors is the sum of the pairings. */
  lemma InnerOfSums(w: Vec, F: int -> Vec, S: Vec, count: int, n: int)
    requires forall j :: 0 <= j < n ==> S(j) == Sum(G.Channel(F, j), 0, count)
    ensures Sum(G.Inners(Constantly(w), F, n), 0, count) == G.Inner(w, S, n)
  {
    G.InnersSwap(Constantly(w), F, count, n);
    var f, g := G.ChannelInners(Constantly(w), F, count), T.Product(w, S);
    forall j | 0 <= j < n ensures f(j) == g(j) {
      var a, b := G.Channel(F, j), T.Product(G.Channel(Constantly(w), j), G.Channel(F, j));
      forall i ensures Scales(a, b, w(j), i) { }
      SumScale(a, b, w(j), 0, count);
    }
    SumCongruent(f, g, 0, n);
  }
  function RowsOf(S: Tensor, b: int): int -> Vec { (t: int) => P.RowAt(S, b, t) }
  function RowSum(S: Tensor, size: int, b: int): Vec { (j: int) => Sum(P.TokenTerms(S, b, j), 0, size) }
  function RowSumsOf(S: Tensor, size: int): int -> Vec { (b: int) => RowSum(S, size, b) }
  function SharePairs(w: Vec, S: Tensor, n: int, b: int): Vec { (t: int) => G.Inner(w, P.RowAt(S, b, t), n) }
  function ShareTotals(w: Vec, S: Tensor, n: int, size: int): Vec { (b: int) => Sum(SharePairs(w, S, n, b), 0, size) }
  lemma SharesOfRow(w: Vec, S: Tensor, n: int, size: int, b: int)
    ensures Sum(SharePairs(w, S, n, b), 0, size) == G.Inner(w, RowSum(S, size, b), n)
  {
    forall j ensures RowSum(S, size, b)(j) == Sum(G.Channel(RowsOf(S, b), j), 0, size) {
      SumCongruent(P.TokenTerms(S, b, j), G.Channel(RowsOf(S, b), j), 0, size);
    }
    InnerOfSums(w, RowsOf(S, b), RowSum(S, size, b), size, n);
    SumCongruent(SharePairs(w, S, n, b), G.Inners(Constantly(w), RowsOf(S, b), n), 0, size);
  }
  /** The weight gradient, summed over all tokens, paired with w. */
  lemma SharesOfAll(w: Vec, S: Tensor, d: Vec, n: int, batch: int, size: int)
    requires forall j :: d(j) == P.AllTokens(S, batch, size, j)
    ensures Sum(ShareTotals(w, S, n, size), 0, batch) == G.Inner(w, d, n)
  {
    var F := RowSumsOf(S, size);
    forall j ensures d(j) == Sum(G.Channel(F, j), 0, batch) {
      SumCongruent(P.RowSums(S, size, j), G.Channel(F, j), 0, batch);
    }
    InnerOfSums(w, F, d, batch, n);
    forall b ensures ShareTotals(w, S, n, size)(b) == G.Inners(Constantly(w), F, n)(b) {
      SharesOfRow(w, S, n, size, b);
    }
    SumCongruent(ShareTotals(w, S, n, size), G.Inners(Constantly(w), F, n), 0, batch);
  }

  function TapTotals(p: Problem, u: Direction, f: Saved): Vec { (b: int) => Sum(TapPairs(p, u, f, b), 0, p.c.dPad) }
  function ConvPairs(u: Direction, dconv: Grid, ks: int): Vec {
    (j: int) => G.Inner(ColumnOf(u.convW, j), ColumnOf(dconv, j), ks)
  }
  function SharesAt(p: Problem, f: Saved, j: int): int -> Vec { (b: int) => TapShare(p, f, b, j) }
  /** dconv is the sum of all shares of every tap. */
  ghost predicate ConvGiven(p: Problem, f: Saved, dconv: Grid) {
    forall q, j :: 0 <= q < p.ks ==>
      dconv(q, j) == B.Dconv(p.ks, B.Normed(BwdOf(p, f), j), B.DSilu(BwdOf(p, f), j), p.size, p.batch, q)
  }
  lemma ColumnPaired(p: Problem, u: Direction, f: Saved, dconv: Grid, j: int)
    requires ConvGiven(p, f, dconv)
    ensures Sum(G.Inners(Constantly(ColumnOf(u.convW, j)), SharesAt(p, f, j), p.ks), 0, p.batch) ==
      ConvPairs(u, dconv, p.ks)(j)
  {
    var F, S := SharesAt(p, f, j), ColumnOf(dconv, j);
    var n, d := B.Normed(BwdOf(p, f), j), B.DSilu(BwdOf(p, f), j);
    forall q | 0 <= q < p.ks ensures S(q) == Sum(G.Channel(F, q), 0, p.batch) {
      SumCongruent(B.TapShares(p.ks, n, d, p.size, q), G.Channel(F, q), 0, p.batch);
    }
    InnerOfSums(ColumnOf(u.convW, j), F, S, p.batch, p.ks);
  }
  lemma TapsPaired(p: Problem, u: Direction, f: Saved, dconv: Grid)
    requires ConvGiven(p, f, dconv)
    ensures Sum(TapTotals(p, u, f), 0, p.batch) == Sum(ConvPairs(u, dconv, p.ks), 0, p.c.dPad)
  {
    var h := (b: int, j: int) => TapPairs(p, u, f, b)(j);
    var rows := (b: int) => Sum((j: int) => h(b, j), 0, p.c.dPad);
    var cols := (j: int) => Sum((b: int) => h(b, j), 0, p.batch);
    forall b ensures TapTotals(p, u, f)(b) == rows(b) {
      SumCongruent(TapPairs(p, u, f, b), (j: int) => h(b, j), 0, p.c.dPad);
    }
    SumCongruent(TapTotals(p, u, f), rows, 0, p.batch);
    forall j ensures ConvPairs(u, dconv, p.ks)(j) == cols(j) {
      ColumnPaired(p, u, f, dconv, j);
      var w := Constantly(ColumnOf(u.convW, j));
      SumCongruent(G.Inners(w, SharesAt(p, f, j), p.ks), (b: int) => h(b, j), 0, p.batch);
    }
    SumCongruent(ConvPairs(u, dconv, p.ks), cols, 0, p.c.dPad);
    SumSwap(h, 0, p.batch, 0, p.c.dPad);
  }

  function InputPairs(u: Direction, g: P.Out, n: int, b: int): Vec { (t: int) => InputPair(u, g, n, b, t) }
  function InputTotals(u: Direction, g: P.Out, n: int, size: int): Vec {
    (b: int) => Sum(InputPairs(u, g, n, b), 0, size)
  }
  function PairTotals(u: Direction, g: P.Out, wh: Tensor, wv: Tensor, n: int, size: int): Vec {
    (b: int) => Sum(PairsAt(u, g, wh, wv, n, b), 0, size)
  }
  lemma PairsSplit(u: Direction, g: P.Out, wh: Tensor, wv: Tensor, n: int, size: int, batch: int)
    ensures Sum(PairTotals(u, g, wh, wv, n, size), 0, batch) == Sum(InputTotals(u, g, n, size), 0, batch) +
      Sum(ShareTotals(u.rmsH, wh, n, size), 0, batch) + Sum(ShareTotals(u.rmsV, wv, n, size), 0, batch)
  {
    var f, a, x, y := PairTotals(u, g, wh, wv, n, size), InputTotals(u, g, n, size), ShareTotals(u.rmsH, wh, n, size),
      ShareTotals(u.rmsV, wv, n, size);
    forall b ensures f(b) == a(b) + x(b) + y(b) {
      G.SumThree(PairsAt(u, g, wh, wv, n, b), InputPairs(u, g, n, b), SharePairs(u.rmsH, wh, n, b),
                 SharePairs(u.rmsV, wv, n, b), size);
    }
    G.SumThree(f, a, x, y, batch);
  }
  /** Both buffers hold the same rows of the batch. */
  ghost predicate RowsAgree(D: Tensor, buf: Tensor, batch: int, size: int) {
    forall b, t, j :: 0 <= b < batch && 0 <= t < size ==> D(b, t, j) == buf(b, t, j)
  }
  lemma InputsAgree(u: Direction, g: P.Out, out: P.Out, n: int, batch: int, size: int)
    requires RowsAgree(g.h, out.h, batch, size) && RowsAgree(g.k, out.k, batch, size)
    requires RowsAgree(g.v, out.v, batch, size)
    ensures Sum(InputTotals(u, g, n, size), 0, batch) == Sum(InputTotals(u, out, n, size), 0, batch)
  {
    forall b | 0 <= b < batch ensures InputTotals(u, g, n, size)(b) == InputTotals(u, out, n, size)(b) {
      forall t | 0 <= t < size ensures InputPairs(u, g, n, b)(t) == InputPairs(u, out, n, b)(t) {
        G.InnerSame(P.RowAt(u.h, b, t), P.RowAt(g.h, b, t), P.RowAt(u.h, b, t), P.RowAt(out.h, b, t), n);
        G.InnerSame(P.RowAt(u.k, b, t), P.RowAt(g.k, b, t), P.RowAt(u.k, b, t), P.RowAt(out.k, b, t), n);
        G.InnerSame(P.RowAt(u.v, b, t), P.RowAt(g.v, b, t), P.RowAt(u.v, b, t), P.RowAt(out.v, b, t), n);
      }
      SumCongruent(InputPairs(u, g, n, b), InputPairs(u, out, n, b), 0, size);
    }
    SumCongruent(InputTotals(u, g, n, size), InputTotals(u, out, n, size), 0, batch);
  }

  // ----- the backward pass

  datatype Gradients = Gradients(dconv: Grid, drmsH: Vec, drmsV: Vec, inputs: P.Out)
  /** All gradients, each paired with its part of the direction. */
  function Pairing(p: Problem, u: Direction, g: Gradients): real {
    Sum(ConvPairs(u, g.dconv, p.ks), 0, p.c.dPad) + G.Inner(u.rmsH, g.drmsH, p.c.dPad) +
    G.Inner(u.rmsV, g.drmsV, p.c.dPad) + Sum(InputTotals(u, g.inputs, p.c.dPad, p.size), 0, p.batch)
  }
  /** What the three launches leave. */
  ghost predicate Computed(p: Problem, f: Saved, din: Tensor, dvhat: Tensor, g: Gradients)
    requires p.c.d > 0.0
  {
    var bw, gt := BwdOf(p, f), GateFor(p, f, dvhat);
    && ConvGiven(p, f, g.dconv) && RowsAgree(B.DSilus(bw), din, p.batch, p.size)
    && (forall j :: g.drmsV(j) == P.AllTokens(P.RmsShare(bw, din), p.batch, p.size, j))
    && RowsAgree(P.DVhat(bw, din), dvhat, p.batch, p.size)
    && (forall j :: g.drmsH(j) == P.AllTokens(P.GateShare(gt), p.batch, p.size, j))
    && RowsAgree(P.DH(gt), g.inputs.h, p.batch, p.size) && RowsAgree(P.DK(gt), g.inputs.k, p.batch, p.size)
    && RowsAgree(P.DV(gt), g.inputs.v, p.batch, p.size)
  }
  lemma BuffersHold(p: Problem, f: Saved, din: Tensor, dvhat: Tensor, g: Gradients, b: int)
    requires p.c.d > 0.0 && Computed(p, f, din, dvhat, g) && 0 <= b < p.batch && SavedRow(p, f, b)
    ensures RowBuffers(p, f, din, dvhat, b)
  {
  }
  function RowPairTotals(p: Problem, u: Direction, f: Saved, din: Tensor, dvhat: Tensor): Vec
    requires p.c.d > 0.0
  {
    var gt := GateFor(p, f, dvhat);
    PairTotals(u, OutOf(gt), P.GateShare(gt), P.RmsShare(BwdOf(p, f), din), p.c.dPad, p.size)
  }
  ghost predicate RowAgrees(p: Problem, u: Direction, o: T.Ops, f: Saved, din: Tensor, dvhat: Tensor, b: int)
    requires p.c.d > 0.0
  {
    RowTangents(p, u, o)(b) == TapTotals(p, u, f)(b) + RowPairTotals(p, u, f, din, dvhat)(b)
  }
  lemma RowAgreesIs(p: Problem, u: Direction, o: T.Ops, f: Saved, din: Tensor, dvhat: Tensor, b: int)
    requires p.c.d > 0.0 && Suits(p, o) && RowBuffers(p, f, din, dvhat, b)
    ensures RowAgrees(p, u, o, f, din, dvhat, b)
  {
    RowIs(p, u, o, f, din, dvhat, b);
  }
  lemma RowsSplit(p: Problem, u: Direction, o: T.Ops, f: Saved, din: Tensor, dvhat: Tensor)
    requires p.c.d > 0.0 && forall b :: 0 <= b < p.batch ==> RowAgrees(p, u, o, f, din, dvhat, b)
    ensures Sum(RowTangents(p, u, o), 0, p.batch) ==
      Sum(TapTotals(p, u, f), 0, p.batch) + Sum(RowPairTotals(p, u, f, din, dvhat), 0, p.batch)
  {
    var m, a, z := RowTangents(p, u, o), TapTotals(p, u, f), RowPairTotals(p, u, f, din, dvhat);
    forall b | 0 <= b < p.batch ensures m(b) == a(b) + z(b) { assert RowAgrees(p, u, o, f, din, dvhat, b); }
    SumAdd(a, z, m, 0, p.batch);
  }
  lemma AllRowsAgree(p: Problem, u: Direction, o: T.Ops, f: Saved, din: Tensor, dvhat: Tensor, g: Gradients)
    requires p.c.d > 0.0 && Suits(p, o) && Computed(p, f, din, dvhat, g)
    requires forall b :: 0 <= b < p.batch ==> SavedRow(p, f, b)
    ensures forall b :: 0 <= b < p.batch ==> RowAgrees(p, u, o, f, din, dvhat, b)
  {
    forall b | 0 <= b < p.batch ensures RowAgrees(p, u, o, f, din, dvhat, b) {
      BuffersHold(p, f, din, dvhat, g, b);
      RowAgreesIs(p, u, o, f, din, dvhat, b);
    }
  }
  lemma TokensPaired(u: Direction, out: P.Out, wh: Tensor, wv: Tensor, g: Gradients, n: int, batch: int, size: int)
    requires forall j :: g.drmsH(j) == P.AllTokens(wh, batch, size, j)
    requires forall j :: g.drmsV(j) == P.AllTokens(wv, batch, size, j)
    requires RowsAgree(out.h, g.inputs.h, batch, size) && RowsAgree(out.k, g.inputs.k, batch, size)
    requires RowsAgree(out.v, g.inputs.v, batch, size)
    ensures Sum(PairTotals(u, out, wh, wv, n, size), 0, batch) ==
      Sum(InputTotals(u, g.inputs, n, size), 0, batch) + G.Inner(u.rmsH, g.drmsH, n) + G.Inner(u.rmsV, g.drmsV, n)
  {
    PairsSplit(u, out, wh, wv, n, size, batch);
    SharesOfAll(u.rmsH, wh, g.drmsH, n, batch, size);
    SharesOfAll(u.rmsV, wv, g.drmsV, n, batch, size);
    InputsAgree(u, out, g.inputs, n, batch, size);
  }
  lemma RowsPaired(p: Problem, u: Direction, f: Saved, din: Tensor, dvhat: Tensor, g: Gradients)
    requires p.c.d > 0.0 && Computed(p, f, din, dvhat, g)
    ensures Sum(RowPairTotals(p, u, f, din, dvhat), 0, p.batch) ==
      Sum(InputTotals(u, g.inputs, p.c.dPad, p.size), 0, p.batch) + G.Inner(u.rmsH, g.drmsH, p.c.dPad) +
      G.Inner(u.rmsV, g.drmsV, p.c.dPad)
  {
    var gt := GateFor(p, f, dvhat);
    TokensPaired(u, OutOf(gt), P.GateShare(gt), P.RmsShare(BwdOf(p, f), din), g, p.c.dPad, p.batch, p.size);
  }
  lemma PairingIs(p: Problem, u: Direction, o: T.Ops, f: Saved, din: Tensor, dvhat: Tensor, g: Gradients)
    requires p.c.d > 0.0 && Computed(p, f, din, dvhat, g)
    requires forall b :: 0 <= b < p.batch ==> RowAgrees(p, u, o, f, din, dvhat, b)
    ensures Sum(RowTangents(p, u, o), 0, p.batch) == Pairing(p, u, g)
  {
    RowsSplit(p, u, o, f, din, dvhat);
    TapsPaired(p, u, f, g.dconv);
    RowsPaired(p, u, f, din, dvhat, g);
  }
  lemma GradientsPaired(p: Problem, u: Direction, o: T.Ops, f: Saved, din: Tensor, dvhat: Tensor, g: Gradients)
    requires p.c.d > 0.0 && Suits(p, o) && Computed(p, f, din, dvhat, g)
    requires forall b :: 0 <= b < p.batch ==> SavedRow(p, f, b)
    ensures Sum(RowTangents(p, u, o), 0, p.batch) == Pairing(p, u, g)
  {
    AllRowsAgree(p, u, o, f, din, dvhat, g);
    PairingIs(p, u, o, f, din, dvhat, g);
  }
  /** The gradients are the derivative: along every direction the loss starts off at the speed of their pairing. */
  lemma GradientIsDerivative(p: Problem, u: Direction, f: Saved, din: Tensor, dvhat: Tensor, g: Gradients)
    requires p.c.d > 0.0 && Differentiable(p) && Computed(p, f, din, dvhat, g)
    requires forall b :: 0 <= b < p.batch ==> SavedRow(p, f, b)
    ensures Slope(LossAlong(p, u), 0.0, Pairing(p, u, g))
  {
    var o := OpsOf(p.c, p.ks, p.size);
    LossSlope(p, u, o);
    GradientsPaired(p, u, o, f, din, dvhat, g);
  }
  /** The order of the programs and the block size of one launch. */
  datatype Order = Order(blockN: nat, cids: seq<int>)
  ghost predicate OrderOf(p: Problem, r: Order) {
    r.blockN >= 1 && B.AllPrograms(p.batch, p.size, r.blockN, r.cids)
  }
  method Backward(p: Problem, f: Saved, r1: Order, r2: Order, r3: Order, zeros: Tensor) returns (g: Gradients)
    requires p.c.d > 0.0 && Differentiable(p) && OrderOf(p, r1) && OrderOf(p, r2) && OrderOf(p, r3)
    requires forall b :: 0 <= b < p.batch ==> SavedRow(p, f, b)
    ensures forall u :: Slope(LossAlong(p, u), 0.0, Pairing(p, u, g))
  {
    var dconv, din := B.Pass1Launch(BwdOf(p, f), p.batch, r1.blockN, r1.cids, zeros);
    var drmsV, dvhat := P.Pass2Launch(BwdOf(p, f), din, p.batch, r2.blockN, r2.cids, zeros);
    var drmsH, inputs := P.Pass3Launch(GateFor(p, f, dvhat), p.batch, r3.blockN, r3.cids, P.Out(zeros, zeros, zeros));
    g := Gradients(dconv, drmsH, drmsV, inputs);
    assert Computed(p, f, din, dvhat, g);
    forall u ensures Slope(LossAlong(p, u), 0.0, Pairing(p, u, g)) { GradientIsDerivative(p, u, f, din, dvhat, g); }
  }
}
