/** The gradients of the engram layer: what the backward passes compute is the derivative of the loss, paired with any
    direction of the inputs and weights. */
module EngramGradient {
  import opened Sums
  import opened Slopes
  import opened EngramTangent
  import B = EngramBackward

  function Inner(x: Vec, y: Vec, n: int): real { Sum(Product(x, y), 0, n) }

  // ----- sums of products

  lemma InnerSame(x: Vec, y: Vec, x2: Vec, y2: Vec, n: int)
    requires Same(x, x2) && Same(y, y2)
    ensures Inner(x, y, n) == Inner(x2, y2, n)
  {
    SumCongruent(Product(x, y), Product(x2, y2), 0, n);
  }
  lemma InnerScale(x: Vec, y: Vec, z: Vec, k: real, n: int)
    requires forall j :: z(j) == k * y(j)
    ensures Inner(x, z, n) == k * Inner(x, y, n)
  {
    var f, g := Product(x, y), Product(x, z);
    forall j ensures Scales(f, g, k, j) { MoveOut(x(j), k, y(j), z(j)); }
    SumScale(f, g, k, 0, n);
  }
  lemma MoveOut(x: real, k: real, y: real, z: real)
    requires z == k * y
    ensures x * z == k * (x * y)
  {
  }
  lemma InnerAdd(x: Vec, y: Vec, z: Vec, w: Vec, n: int)
    requires forall j :: w(j) == y(j) + z(j)
    ensures Inner(x, w, n) == Inner(x, y, n) + Inner(x, z, n)
  {
    forall j ensures Product(x, w)(j) == Product(x, y)(j) + Product(x, z)(j) {
      assert x(j) * (y(j) + z(j)) == x(j) * y(j) + x(j) * z(j);
    }
    SumAdd(Product(x, y), Product(x, z), Product(x, w), 0, n);
  }
  /** Terms of three vectors that add up to those of a fourth. */
  lemma SumThree(f: Vec, a: Vec, b: Vec, c: Vec, n: int)
    requires forall j :: f(j) == a(j) + b(j) + c(j)
    ensures Sum(f, 0, n) == Sum(a, 0, n) + Sum(b, 0, n) + Sum(c, 0, n)
  {
    var g := (j: int) => a(j) + b(j);
    SumAdd(a, b, g, 0, n);
    SumAdd(g, c, f, 0, n);
  }

  // ----- back through a normalisation

  function Weighted(x: Vec, w: Vec, g: Vec): Vec { (j: int) => x(j) * w(j) * g(j) }
  /** What reaches x, with the pull k of the shared factor, and what reaches w. */
  function NormBack(x: Vec, w: Vec, g: Vec, r: real, k: real): Vec { (j: int) => r * w(j) * g(j) + k * x(j) }
  function WeightBack(x: Vec, g: Vec, r: real): Vec { (j: int) => g(j) * x(j) * r }
  function Direct(u: Vec, w: Vec, g: Vec, r: real): Vec { (j: int) => u(j) * (r * w(j) * g(j)) }

  lemma NormTerm(x: real, u: real, r: real, t: real, w: real, uw: real, g: real)
    ensures g * ((u * r + x * t) * w + x * r * uw) == u * (r * w * g) + t * (x * w * g) + uw * (g * x * r)
  {
    assert g * ((u * r + x * t) * w) == u * (r * w * g) + t * (x * w * g) by {
      assert (u * r + x * t) * w == u * r * w + x * t * w;
      assert g * (u * r * w) == u * (r * w * g);
      assert g * (x * t * w) == t * (x * w * g);
    }
    assert g * (x * r * uw) == uw * (g * x * r);
  }
  function Pulled(x: Vec, w: Vec, g: Vec, t: real): Vec { (j: int) => t * (x(j) * w(j) * g(j)) }
  lemma NormSplit(x: Vec, u: Vec, r: real, t: real, w: Vec, uw: Vec, g: Vec, n: int)
    ensures Inner(g, ScaledTangent(x, u, r, t, w, uw), n) ==
      Sum(Direct(u, w, g, r), 0, n) + t * Sum(Weighted(x, w, g), 0, n) + Inner(uw, WeightBack(x, g, r), n)
  {
    var f, a, b := Product(g, ScaledTangent(x, u, r, t, w, uw)), Direct(u, w, g, r), Pulled(x, w, g, t);
    var c := Product(uw, WeightBack(x, g, r));
    forall j ensures f(j) == a(j) + b(j) + c(j) { NormTerm(x(j), u(j), r, t, w(j), uw(j), g(j)); }
    SumThree(f, a, b, c, n);
    forall j ensures Scales(Weighted(x, w, g), b, t, j) { }
    SumScale(Weighted(x, w, g), b, t, 0, n);
  }
  lemma BackTerm(u: real, r: real, w: real, g: real, k: real, x: real)
    ensures u * (r * w * g + k * x) == u * (r * w * g) + k * (x * u)
  {
    assert u * (k * x) == k * (x * u);
  }
  function Pull(x: Vec, u: Vec, k: real): Vec { (j: int) => k * (x(j) * u(j)) }
  lemma BackSplit(x: Vec, u: Vec, w: Vec, g: Vec, r: real, k: real, n: int)
    ensures Inner(u, NormBack(x, w, g, r, k), n) == Sum(Direct(u, w, g, r), 0, n) + k * Inner(x, u, n)
  {
    var f, a, b := Product(u, NormBack(x, w, g, r, k)), Direct(u, w, g, r), Pull(x, u, k);
    forall j ensures f(j) == a(j) + b(j) { BackTerm(u(j), r, w(j), g(j), k, x(j)); }
    SumAdd(a, b, f, 0, n);
    forall j ensures Scales(Product(x, u), b, k, j) { }
    SumScale(Product(x, u), b, k, 0, n);
  }
  lemma Twice(x: Vec, u: Vec, n: int)
    ensures Sum(ProductTangent(x, u, x, u), 0, n) == 2.0 * Inner(x, u, n)
  {
    var f, g := Product(x, u), ProductTangent(x, u, x, u);
    forall j ensures Scales(f, g, 2.0, j) { assert u(j) * x(j) == x(j) * u(j); }
    SumScale(f, g, 2.0, 0, n);
  }
  lemma PullIs(t: real, rho: real, s: real, d: real, k: real)
    requires t == rho * (2.0 * s) && k == 2.0 * rho * d
    ensures t * d == k * s
  {
  }
  /** A normalisation moves g . n' onto u and uw. */
  lemma NormTranspose(x: Vec, u: Vec, r: real, rho: real, w: Vec, uw: Vec, g: Vec, t: real, k: real, n: int)
    requires t == rho * Sum(ProductTangent(x, u, x, u), 0, n) && k == 2.0 * rho * Sum(Weighted(x, w, g), 0, n)
    ensures Inner(g, ScaledTangent(x, u, r, t, w, uw), n) ==
      Inner(u, NormBack(x, w, g, r, k), n) + Inner(uw, WeightBack(x, g, r), n)
  {
    NormSplit(x, u, r, t, w, uw, g, n);
    BackSplit(x, u, w, g, r, k, n);
    Twice(x, u, n);
    PullIs(t, rho, Inner(x, u, n), Sum(Weighted(x, w, g), 0, n), k);
  }
  function Twofold(rate: real, s: real): real { 2.0 * rate * s }
  /** The pull of the shared factor, and with it what reaches x. */
  function PullOf(o: Ops, x: Vec, w: Vec, g: Vec): real {
    Twofold(o.rootRate(Energy(o, x)), Sum(Weighted(x, w, g), 0, o.n))
  }
  function NormGrad(o: Ops, x: Vec, w: Vec, g: Vec): Vec { NormBack(x, w, g, Root(o, x), PullOf(o, x, w, g)) }
  lemma NormAdjoint(o: Ops, x: Vec, u: Vec, w: Vec, uw: Vec, g: Vec)
    ensures Inner(g, NormTangent(o, x, u, w, uw), o.n) ==
      Inner(u, NormGrad(o, x, w, g), o.n) + Inner(uw, WeightBack(x, g, Root(o, x)), o.n)
  {
    var t, k := RootTangent(o, x, u), PullOf(o, x, w, g);
    NormTranspose(x, u, Root(o, x), o.rootRate(Energy(o, x)), w, uw, g, t, k, o.n);
  }

  // ----- back through the gate

  function Plus(x: Vec, y: Vec): Vec { (j: int) => x(j) + y(j) }

  function Through(m: real, rate: real): real { m * rate }
  /** d is what reaches the gated value. */
  function VGrad(o: Ops, x: Parts, d: Vec): Vec { Multiple(Alpha(o, x), d) }
  function DotGrad(o: Ops, x: Parts, d: Vec): real { Through(Inner(d, x.v, o.n), o.gateRate(Dot(o, x))) }
  function HGrad(o: Ops, x: Parts, d: Vec): Vec { NormGrad(o, x.h, x.w, Multiple(DotGrad(o, x, d), KNorm(o, x))) }
  function KGrad(o: Ops, x: Parts, d: Vec): Vec { NormGrad(o, x.k, x.w, Multiple(DotGrad(o, x, d), HNorm(o, x))) }
  function WGrad(o: Ops, x: Parts, d: Vec): Vec {
    Plus(WeightBack(x.h, Multiple(DotGrad(o, x, d), KNorm(o, x)), Root(o, x.h)),
         WeightBack(x.k, Multiple(DotGrad(o, x, d), HNorm(o, x)), Root(o, x.k)))
  }
  lemma InnerSwap(x: Vec, y: Vec, n: int)
    ensures Inner(x, y, n) == Inner(y, x, n)
  {
    SumCongruent(Product(x, y), Product(y, x), 0, n);
  }
  lemma MultipleAdjoint(d: Vec, a: real, m: real, v: Vec, uv: Vec, n: int)
    ensures Inner(d, MultipleTangent(a, m, v, uv), n) == m * Inner(d, v, n) + Inner(uv, Multiple(a, d), n)
  {
    InnerAdd(d, Multiple(m, v), Multiple(a, uv), MultipleTangent(a, m, v, uv), n);
    InnerScale(d, v, Multiple(m, v), m, n);
    ScaleAcross(d, uv, a, n);
  }
  lemma ScaleAcross(x: Vec, y: Vec, a: real, n: int)
    ensures Inner(x, Multiple(a, y), n) == Inner(y, Multiple(a, x), n)
  {
    var f, g := Product(x, Multiple(a, y)), Product(y, Multiple(a, x));
    forall j ensures f(j) == g(j) { Across(x(j), a, y(j)); }
    SumCongruent(f, g, 0, n);
  }
  lemma Across(x: real, a: real, y: real)
    ensures x * (a * y) == y * (a * x)
  {
  }
  lemma DotAdjoint(e: real, x: Vec, u: Vec, y: Vec, v: Vec, n: int)
    ensures e * Sum(ProductTangent(x, u, y, v), 0, n) == Inner(Multiple(e, y), u, n) + Inner(Multiple(e, x), v, n)
  {
    var f, a, b := ProductTangent(x, u, y, v), Product(Multiple(e, y), u), Product(Multiple(e, x), v);
    var g := Multiple(e, f);
    forall j ensures Scales(f, g, e, j) && g(j) == a(j) + b(j) { DotTerm(e, x(j), u(j), y(j), v(j)); }
    SumScale(f, g, e, 0, n);
    SumAdd(a, b, g, 0, n);
  }
  lemma DotTerm(e: real, x: real, u: real, y: real, v: real)
    ensures e * (u * y + x * v) == e * y * u + e * x * v
  {
  }
  lemma Spread(e: real, a: real, b: real)
    ensures e * (a + b) == e * a + e * b
  {
  }
  lemma Reorder(a: real, b: real, c: real)
    ensures a * b * c == b * c * a
  {
  }
  lemma GateAdjoint(o: Ops, x: Parts, u: Parts, d: Vec)
    ensures Inner(d, GatedTangent(o, x, u), o.n) ==
      Inner(u.v, VGrad(o, x, d), o.n) + DotGrad(o, x, d) * DotTangent(o, x, u)
  {
    MultipleAdjoint(d, Alpha(o, x), AlphaTangent(o, x, u), x.v, u.v, o.n);
    Reorder(o.gateRate(Dot(o, x)), DotTangent(o, x, u), Inner(d, x.v, o.n));
    Reorder(Inner(d, x.v, o.n), o.gateRate(Dot(o, x)), DotTangent(o, x, u));
  }
  /** The gate moves d . vhat' onto h, k, v and the weight. */
  lemma TokenAdjoint(o: Ops, x: Parts, u: Parts, d: Vec)
    ensures Inner(d, GatedTangent(o, x, u), o.n) ==
      Inner(u.v, VGrad(o, x, d), o.n) + Inner(u.h, HGrad(o, x, d), o.n) + Inner(u.k, KGrad(o, x, d), o.n) +
      Inner(u.w, WGrad(o, x, d), o.n)
  {
    var e := DotGrad(o, x, d);
    GateAdjoint(o, x, u, d);
    DotAdjoint(e, HNorm(o, x), HTangent(o, x, u), KNorm(o, x), KTangent(o, x, u), o.n);
    NormAdjoint(o, x.h, u.h, x.w, u.w, Multiple(e, KNorm(o, x)));
    NormAdjoint(o, x.k, u.k, x.w, u.w, Multiple(e, HNorm(o, x)));
    InnerAdd(u.w, WeightBack(x.h, Multiple(e, KNorm(o, x)), Root(o, x.h)),
             WeightBack(x.k, Multiple(e, HNorm(o, x)), Root(o, x.k)), WGrad(o, x, d), o.n);
  }

  // ----- back through the convolution

  /** Channel j of rows, as the backward pass indexes them. */
  function Channel(x: int -> Vec, j: int): Vec { (t: int) => x(t)(j) }
  /** The gradient of the activation's argument, and what the convolution hands back to its input and its taps. */
  function ActGrad(o: Ops, x: Rates, dy: int -> Vec): int -> Vec {
    (t: int) => ((j: int) => dy(t)(j) * o.actRate(ConvRow(o, x, t)(j)))
  }
  function InputGrad(o: Ops, taps: int -> Vec, d: int -> Vec): int -> Vec {
    (t: int) => ((j: int) => B.BackConv(o.ks, Column(taps, j), Channel(d, j), o.size, t))
  }
  function TapGrad(o: Ops, n: int -> Vec, d: int -> Vec): int -> Vec {
    (p: int) => ((j: int) => B.TapGrad(o.ks, Channel(n, j), Channel(d, j), o.size, p))
  }

  lemma PastIsBefore(n: int -> Vec, size: int, t: int, j: int)
    requires t < size
    ensures Past(n, size, t, j) == B.Before(Channel(n, j), t)
  {
  }
  lemma ConvIs(a: int -> Vec, n: int -> Vec, ks: int, size: int, t: int, j: int)
    requires t < size
    ensures Sum(Product(Column(a, j), History(n, ks, size, t, j)), 0, ks) == B.Conv(ks, Column(a, j), Channel(n, j), t)
  {
    var f, g := Product(Column(a, j), History(n, ks, size, t, j)), B.ConvTerms(ks, Column(a, j), Channel(n, j), t);
    forall p | 0 <= p < ks ensures f(p) == g(p) { PastIsBefore(n, size, Source(ks, t, p), j); }
    SumCongruent(f, g, 0, ks);
  }
  lemma ConvTangentIs(a: int -> Vec, ua: int -> Vec, n: int -> Vec, un: int -> Vec, ks: int, size: int, t: int, j: int)
    requires t < size
    ensures ConvTangent(a, ua, n, un, ks, size, t, j) ==
      B.Conv(ks, Column(ua, j), Channel(n, j), t) + B.Conv(ks, Column(a, j), Channel(un, j), t)
  {
    var h, uh := History(n, ks, size, t, j), History(un, ks, size, t, j);
    SumAdd(Product(Column(ua, j), h), Product(Column(a, j), uh), ProductTangent(Column(a, j), Column(ua, j), h, uh), 0,
           ks);
    ConvIs(ua, n, ks, size, t, j);
    ConvIs(a, un, ks, size, t, j);
  }
  /** Channel j of conv' over the tokens. */
  function ConvTangents(a: int -> Vec, ua: int -> Vec, n: int -> Vec, un: int -> Vec, ks: int, size: int, j: int): Vec {
    (t: int) => ConvTangent(a, ua, n, un, ks, size, t, j)
  }
  /** The convolution of taps w and input x in direction uw, ux, paired with e. */
  ghost predicate JointAt(ks: int, w: Vec, uw: Vec, x: Vec, ux: Vec, c: Vec, t: int) {
    c(t) == B.Conv(ks, uw, x, t) + B.Conv(ks, w, ux, t)
  }
  lemma ChannelSplit(ks: int, size: int, w: Vec, uw: Vec, x: Vec, ux: Vec, e: Vec, c: Vec)
    requires forall t :: 0 <= t < size ==> JointAt(ks, w, uw, x, ux, c, t)
    ensures Inner(e, c, size) == Sum(B.OutTerms(ks, uw, x, e), 0, size) + Sum(B.OutTerms(ks, w, ux, e), 0, size)
  {
    var f, p, q := Product(e, c), B.OutTerms(ks, uw, x, e), B.OutTerms(ks, w, ux, e);
    forall t | 0 <= t < size ensures f(t) == p(t) + q(t) {
      assert JointAt(ks, w, uw, x, ux, c, t);
      Spread(e(t), B.Conv(ks, uw, x, t), B.Conv(ks, w, ux, t));
    }
    SumAdd(p, q, f, 0, size);
  }
  lemma WeightPair(ks: int, size: int, w: Vec, x: Vec, e: Vec, tap: Vec)
    requires forall p :: tap(p) == B.TapGrad(ks, x, e, size, p)
    ensures Sum(B.OutTerms(ks, w, x, e), 0, size) == Inner(w, tap, ks)
  {
    B.OutIsWeight(ks, w, x, e, size);
    SumCongruent(B.WeightTerms(ks, w, x, e, size), Product(w, tap), 0, ks);
  }
  lemma InputPair(ks: int, size: int, w: Vec, x: Vec, e: Vec, inp: Vec)
    requires size >= 0 && forall t :: inp(t) == B.BackConv(ks, w, e, size, t)
    ensures Sum(B.OutTerms(ks, w, x, e), 0, size) == Inner(inp, x, size)
  {
    B.OutIsWeight(ks, w, x, e, size);
    B.InIsWeight(ks, w, x, e, size);
    SumCongruent(B.InTerms(ks, w, x, e, size), Product(inp, x), 0, size);
  }
  lemma ConvAdjoint(o: Ops, a: int -> Vec, ua: int -> Vec, n: int -> Vec, un: int -> Vec, d: int -> Vec, j: int)
    requires o.size >= 0
    ensures Inner(Channel(d, j), ConvTangents(a, ua, n, un, o.ks, o.size, j), o.size) ==
      Inner(Column(ua, j), Column(TapGrad(o, n, d), j), o.ks) +
      Inner(Channel(InputGrad(o, a, d), j), Channel(un, j), o.size)
  {
    var w, uw, x, ux, e := Column(a, j), Column(ua, j), Channel(n, j), Channel(un, j), Channel(d, j);
    var c := ConvTangents(a, ua, n, un, o.ks, o.size, j);
    forall t | 0 <= t < o.size ensures JointAt(o.ks, w, uw, x, ux, c, t) {
      ConvTangentIs(a, ua, n, un, o.ks, o.size, t, j);
    }
    ChannelSplit(o.ks, o.size, w, uw, x, ux, e, c);
    WeightPair(o.ks, o.size, uw, x, e, Column(TapGrad(o, n, d), j));
    InputPair(o.ks, o.size, w, ux, e, Channel(InputGrad(o, a, d), j));
  }

  // ----- a whole row

  function Inners(f: int -> Vec, g: int -> Vec, n: int): Vec { (t: int) => Inner(f(t), g(t), n) }
  function ChannelInners(f: int -> Vec, g: int -> Vec, size: int): Vec {
    (j: int) => Inner(Channel(f, j), Channel(g, j), size)
  }
  /** Rows and channels may be paired in either order. */
  lemma InnersSwap(f: int -> Vec, g: int -> Vec, size: int, n: int)
    ensures Sum(Inners(f, g, n), 0, size) == Sum(ChannelInners(f, g, size), 0, n)
  {
    var h := Both(f, g);
    var rows, cols := (t: int) => Sum((j: int) => h(t, j), 0, n), (j: int) => Sum((t: int) => h(t, j), 0, size);
    forall t ensures Inners(f, g, n)(t) == rows(t) {
      BothRow(f, g, t, n);
      SumCongruent(RowOf(h, t), (j: int) => h(t, j), 0, n);
    }
    SumCongruent(Inners(f, g, n), rows, 0, size);
    forall j ensures ChannelInners(f, g, size)(j) == cols(j) {
      BothColumn(f, g, j, size);
      SumCongruent(ColumnOf(h, j), (t: int) => h(t, j), 0, size);
    }
    SumCongruent(ChannelInners(f, g, size), cols, 0, n);
    SumSwap(h, 0, size, 0, n);
  }
  function Both(f: int -> Vec, g: int -> Vec): Grid { (t: int, j: int) => f(t)(j) * g(t)(j) }
  function RowOf(h: Grid, t: int): Vec { (j: int) => h(t, j) }
  function ColumnOf(h: Grid, j: int): Vec { (t: int) => h(t, j) }
  lemma BothRow(f: int -> Vec, g: int -> Vec, t: int, n: int)
    ensures Inner(f(t), g(t), n) == Sum(RowOf(Both(f, g), t), 0, n)
  {
    SumCongruent(Product(f(t), g(t)), RowOf(Both(f, g), t), 0, n);
  }
  lemma BothColumn(f: int -> Vec, g: int -> Vec, j: int, size: int)
    ensures Inner(Channel(f, j), Channel(g, j), size) == Sum(ColumnOf(Both(f, g), j), 0, size)
  {
    SumCongruent(Product(Channel(f, j), Channel(g, j)), ColumnOf(Both(f, g), j), 0, size);
  }
  /** What the taps receive, paired with their direction. */
  function TapPairs(ua: int -> Vec, g: int -> Vec, ks: int): Vec { (j: int) => Inner(Column(ua, j), Column(g, j), ks) }
  function ConvTangentRows(o: Ops, a: int -> Vec, ua: int -> Vec, n: int -> Vec, un: int -> Vec): int -> Vec {
    (t: int) => ((j: int) => ConvTangent(a, ua, n, un, o.ks, o.size, t, j))
  }
  lemma ConvRowsAdjoint(o: Ops, a: int -> Vec, ua: int -> Vec, n: int -> Vec, un: int -> Vec, d: int -> Vec)
    requires o.size >= 0
    ensures Sum(Inners(d, ConvTangentRows(o, a, ua, n, un), o.n), 0, o.size) ==
      Sum(TapPairs(ua, TapGrad(o, n, d), o.ks), 0, o.n) + Sum(Inners(InputGrad(o, a, d), un, o.n), 0, o.size)
  {
    var c, g := ConvTangentRows(o, a, ua, n, un), InputGrad(o, a, d);
    var f, p, q := ChannelInners(d, c, o.size), TapPairs(ua, TapGrad(o, n, d), o.ks), ChannelInners(g, un, o.size);
    InnersSwap(d, c, o.size, o.n);
    InnersSwap(g, un, o.size, o.n);
    forall j ensures f(j) == p(j) + q(j) {
      ConvAdjoint(o, a, ua, n, un, d, j);
      InnerSame(Channel(d, j), Channel(c, j), Channel(d, j), ConvTangents(a, ua, n, un, o.ks, o.size, j), o.size);
    }
    SumAdd(p, q, f, 0, o.n);
  }
  lemma ActTerm(dy: real, rate: real, m: real, n: real)
    ensures dy * (rate * m + n) == dy * rate * m + dy * n
  {
  }
  lemma ActAdjoint(rate: Curve, dy: Vec, c: Vec, m: Vec, g: Vec, d: Vec, n: int)
    requires forall j :: d(j) == dy(j) * rate(c(j))
    ensures Inner(dy, ActivatedTangent(rate, c, m, g), n) == Inner(d, m, n) + Inner(dy, g, n)
  {
    var f, a, b := Product(dy, ActivatedTangent(rate, c, m, g)), Product(d, m), Product(dy, g);
    forall j ensures f(j) == a(j) + b(j) { ActTerm(dy(j), rate(c(j)), m(j), g(j)); }
    SumAdd(a, b, f, 0, n);
  }

  /** What reaches the gated value of token t, when g reaches its normalised value. */
  function GatedGrad(o: Ops, x: Rates, dy: int -> Vec, g: int -> Vec, t: int): Vec {
    Plus(NormGrad(o, Gated(o, x.token(t)), x.w, g(t)), dy(t))
  }
  function OuterGrad(o: Ops, x: Rates, g: int -> Vec, t: int): Vec {
    WeightBack(Gated(o, x.token(t)), g(t), Root(o, Gated(o, x.token(t))))
  }
  /** The gradients of one token's inputs and of both weights, paired with their directions. */
  function TokenPair(o: Ops, x: Rates, u: Rates, dy: int -> Vec, g: int -> Vec, t: int): real {
    var z, v, d := x.token(t), u.token(t), GatedGrad(o, x, dy, g, t);
    Inner(v.v, VGrad(o, z, d), o.n) + Inner(v.h, HGrad(o, z, d), o.n) + Inner(v.k, KGrad(o, z, d), o.n) +
    Inner(v.w, WGrad(o, z, d), o.n) + Inner(u.w, OuterGrad(o, x, g, t), o.n)
  }
  function TokenPairs(o: Ops, x: Rates, u: Rates, dy: int -> Vec, g: int -> Vec): Vec {
    (t: int) => TokenPair(o, x, u, dy, g, t)
  }
  lemma InnerPlus(x: Vec, y: Vec, z: Vec, n: int)
    ensures Inner(Plus(x, y), z, n) == Inner(z, x, n) + Inner(y, z, n)
  {
    InnerAdd(z, x, y, Plus(x, y), n);
    InnerSwap(Plus(x, y), z, n);
    InnerSwap(y, z, n);
  }
  lemma TokenPairIs(o: Ops, x: Rates, u: Rates, dy: int -> Vec, g: int -> Vec, t: int)
    ensures Inner(g(t), NormedTangent(o, x, u, t), o.n) +
      Inner(dy(t), GatedTangent(o, x.token(t), u.token(t)), o.n) == TokenPair(o, x, u, dy, g, t)
  {
    var y, m := Gated(o, x.token(t)), GatedTangent(o, x.token(t), u.token(t));
    NormAdjoint(o, y, m, x.w, u.w, g(t));
    InnerPlus(NormGrad(o, y, x.w, g(t)), dy(t), m, o.n);
    TokenAdjoint(o, x.token(t), u.token(t), GatedGrad(o, x, dy, g, t));
  }
  function GatedTangents(o: Ops, x: Rates, u: Rates): int -> Vec {
    (t: int) => GatedTangent(o, x.token(t), u.token(t))
  }
  lemma TokenTangent(o: Ops, x: Rates, u: Rates, dy: int -> Vec, t: int)
    ensures Inner(dy(t), OutputTangent(o, x, u, t), o.n) ==
      Inner(ActGrad(o, x, dy)(t), ConvRowTangent(o, x, u, t), o.n) +
      Inner(dy(t), GatedTangent(o, x.token(t), u.token(t)), o.n)
  {
    ActAdjoint(o.actRate, dy(t), ConvRow(o, x, t), ConvRowTangent(o, x, u, t),
               GatedTangent(o, x.token(t), u.token(t)), ActGrad(o, x, dy)(t), o.n);
  }
  /** The derivative of the loss of a row along any direction is the gradients of the backward passes paired with it. */
  lemma RowAdjoint(o: Ops, x: Rates, u: Rates, dy: int -> Vec)
    requires o.size >= 0
    ensures var d := ActGrad(o, x, dy);
      LossTangent(o, x, u, dy) == Sum(TapPairs(u.taps, TapGrad(o, NormedRows(o, x), d), o.ks), 0, o.n) +
        Sum(TokenPairs(o, x, u, dy, InputGrad(o, x.taps, d)), 0, o.size)
  {
    var n, un, d := NormedRows(o, x), NormedTangents(o, x, u), ActGrad(o, x, dy);
    var c, g, m := ConvTangentRows(o, x.taps, u.taps, n, un), InputGrad(o, x.taps, d), GatedTangents(o, x, u);
    var f, a, b := TokenLossTangent(o, x, u, dy), Inners(d, c, o.n), Inners(dy, m, o.n);
    forall t ensures f(t) == a(t) + b(t) {
      TokenTangent(o, x, u, dy, t);
      InnerSame(d(t), c(t), d(t), ConvRowTangent(o, x, u, t), o.n);
    }
    SumAdd(a, b, f, 0, o.size);
    ConvRowsAdjoint(o, x.taps, u.taps, n, un, d);
    var e, z := Inners(g, un, o.n), TokenPairs(o, x, u, dy, g);
    forall t ensures z(t) == e(t) + b(t) { TokenPairIs(o, x, u, dy, g, t); }
    SumAdd(e, b, z, 0, o.size);
  }
}
