/** How the output of the engram layer moves with its inputs and weights: the derivative of every stage along any
    direction. */
module EngramTangent {
  import opened Sums
  import opened Slopes

  type Vec = int -> real
  type Grid = (int, int) -> real
  /** A vector whose entries move with a parameter, and where it stands at parameter 0. */
  type Moving = int -> Curve
  function Here(X: Moving): Vec { TermAt(X, 0.0) }
  /** Entry j starts off at speed u(j). */
  ghost predicate Moves(X: Moving, u: Vec) { forall j :: SlopeAt(X, u, 0.0, j) }

  /** A curve with its value and its slope at 0. */
  ghost predicate Tracks(f: Curve, a: real, m: real) { f(0.0) == a && Slope(f, 0.0, m) }
  lemma TimesTracks(f: Curve, g: Curve, a: real, m: real, b: real, n: real, v: real, t: real)
    requires Tracks(f, a, m) && Tracks(g, b, n) && v == a * b && t == m * b + a * n
    ensures Tracks(Times(f, g), v, t)
  {
    SlopeTimes(f, g, 0.0, m, n, t);
  }
  lemma AfterTracks(f: Curve, g: Curve, a: real, k: real, m: real, v: real, t: real)
    requires Slope(f, a, k) && Tracks(g, a, m) && v == f(a) && t == k * m
    ensures Tracks(After(f, g), v, t)
  {
    SlopeAfter(f, g, 0.0, k, m, t);
  }
  lemma AddedTracks(f: Curve, g: Curve, a: real, m: real, b: real, n: real, v: real, t: real)
    requires Tracks(f, a, m) && Tracks(g, b, n) && v == a + b && t == m + n
    ensures Tracks(Added(f, g), v, t)
  {
    SlopeAdd(f, g, 0.0, m, n, t);
  }
  /** Entry j of a moving vector. */
  lemma Entry(X: Moving, u: Vec, j: int)
    requires Moves(X, u)
    ensures Tracks(X(j), Here(X)(j), u(j))
  {
    assert SlopeAt(X, u, 0.0, j);
  }
  lemma EntryFrom(X: Moving, u: Vec, j: int, f: Curve, a: real, m: real)
    requires X(j) == f && u(j) == m && Tracks(f, a, m)
    ensures SlopeAt(X, u, 0.0, j) && Here(X)(j) == a
  {
  }
  lemma TotalTracks(X: Moving, u: Vec, n: int)
    requires Moves(X, u)
    ensures Tracks(Total(X, 0, n), Sum(Here(X), 0, n), Sum(u, 0, n))
  {
    SlopeSum(X, u, 0, n, 0.0);
  }

  // ----- products and squares

  function ProductOf(X: Moving, Y: Moving): Moving { (j: int) => Times(X(j), Y(j)) }
  function Product(x: Vec, y: Vec): Vec { (j: int) => x(j) * y(j) }
  function ProductTangent(x: Vec, u: Vec, y: Vec, v: Vec): Vec { (j: int) => u(j) * y(j) + x(j) * v(j) }
  lemma ProductMoves(X: Moving, u: Vec, Y: Moving, v: Vec)
    requires Moves(X, u) && Moves(Y, v)
    ensures Moves(ProductOf(X, Y), ProductTangent(Here(X), u, Here(Y), v))
  {
    var w := ProductTangent(Here(X), u, Here(Y), v);
    forall j ensures SlopeAt(ProductOf(X, Y), w, 0.0, j) {
      var x, y := Here(X)(j), Here(Y)(j);
      Entry(X, u, j);
      Entry(Y, v, j);
      TimesTracks(X(j), Y(j), x, u(j), y, v(j), x * y, w(j));
      EntryFrom(ProductOf(X, Y), w, j, Times(X(j), Y(j)), x * y, w(j));
    }
  }
  ghost predicate Same(x: Vec, y: Vec) { forall j :: x(j) == y(j) }
  lemma ProductSame(x: Vec, y: Vec, x2: Vec, y2: Vec, u: Vec, v: Vec, n: int)
    requires Same(x, x2) && Same(y, y2)
    ensures Sum(Product(x, y), 0, n) == Sum(Product(x2, y2), 0, n)
    ensures Sum(ProductTangent(x, u, y, v), 0, n) == Sum(ProductTangent(x2, u, y2, v), 0, n)
  {
    SumCongruent(Product(x, y), Product(x2, y2), 0, n);
    SumCongruent(ProductTangent(x, u, y, v), ProductTangent(x2, u, y2, v), 0, n);
  }
  lemma ProductHere(X: Moving, Y: Moving, s: real, n: int)
    ensures Total(ProductOf(X, Y), 0, n)(s) == Sum(Product(TermAt(X, s), TermAt(Y, s)), 0, n)
  {
    var f, g := TermAt(ProductOf(X, Y), s), Product(TermAt(X, s), TermAt(Y, s));
    forall j ensures f(j) == g(j) { assert ProductOf(X, Y)(j) == Times(X(j), Y(j)); }
    SumCongruent(f, g, 0, n);
  }
  lemma DotTracks(X: Moving, u: Vec, Y: Moving, v: Vec, n: int)
    requires Moves(X, u) && Moves(Y, v)
    ensures Tracks(Total(ProductOf(X, Y), 0, n), Sum(Product(Here(X), Here(Y)), 0, n),
                   Sum(ProductTangent(Here(X), u, Here(Y), v), 0, n))
  {
    ProductMoves(X, u, Y, v);
    TotalTracks(ProductOf(X, Y), ProductTangent(Here(X), u, Here(Y), v), n);
    ProductHere(X, Y, 0.0, n);
  }

  // ----- the scalar functions of the layer

  /** n channels, ks taps, size tokens; `root` takes a sum of squares to its reciprocal root mean square, `gate` a dot
      product to the gate value, `act` is the activation.  The rates are their derivatives. */
  datatype Ops = Ops(n: int, ks: int, size: int, root: Curve, rootRate: Curve, gate: Curve, gateRate: Curve,
                     act: Curve, actRate: Curve)
  ghost predicate Rate(f: Curve, rate: Curve, y: real) { Slope(f, y, rate(y)) }

  function Chained(rate: Curve, y: real, m: real): real { rate(y) * m }
  lemma RateTracks(f: Curve, rate: Curve, g: Curve, y: real, m: real)
    requires Rate(f, rate, y) && Tracks(g, y, m)
    ensures Tracks(After(f, g), f(y), Chained(rate, y, m))
  {
    AfterTracks(f, g, y, rate(y), m, f(y), Chained(rate, y, m));
  }

  // ----- normalisation with weights

  function Energy(o: Ops, x: Vec): real { Sum(Product(x, x), 0, o.n) }
  function Root(o: Ops, x: Vec): real { o.root(Energy(o, x)) }
  function RootTangent(o: Ops, x: Vec, u: Vec): real {
    Chained(o.rootRate, Energy(o, x), Sum(ProductTangent(x, u, x, u), 0, o.n))
  }
  function RootOf(o: Ops, X: Moving): Curve { After(o.root, Total(ProductOf(X, X), 0, o.n)) }
  lemma RootTracks(o: Ops, X: Moving, u: Vec)
    requires Moves(X, u) && Rate(o.root, o.rootRate, Energy(o, Here(X)))
    ensures Tracks(RootOf(o, X), Root(o, Here(X)), RootTangent(o, Here(X), u))
  {
    var g, x := Total(ProductOf(X, X), 0, o.n), Here(X);
    DotTracks(X, u, X, u, o.n);
    RateTracks(o.root, o.rootRate, g, Energy(o, x), Sum(ProductTangent(x, u, x, u), 0, o.n));
  }
  lemma RootHere(o: Ops, X: Moving, s: real)
    ensures RootOf(o, X)(s) == Root(o, TermAt(X, s))
  {
    ProductHere(X, X, s, o.n);
  }
  /** x times a number times w, each moving. */
  function Scaled(x: Vec, r: real, w: Vec): Vec { (j: int) => x(j) * r * w(j) }
  function ScaledTangent(x: Vec, u: Vec, r: real, t: real, w: Vec, uw: Vec): Vec {
    (j: int) => (u(j) * r + x(j) * t) * w(j) + x(j) * r * uw(j)
  }
  function ScaledOf(X: Moving, R: Curve, W: Moving): Moving { (j: int) => Times(Times(X(j), R), W(j)) }
  lemma ScaledEntry(f: Curve, g: Curve, h: Curve, x: real, u: real, r: real, t: real, w: real, uw: real, v: real,
                    m: real)
    requires Tracks(f, x, u) && Tracks(g, r, t) && Tracks(h, w, uw)
    requires v == x * r * w && m == (u * r + x * t) * w + x * r * uw
    ensures Tracks(Times(Times(f, g), h), v, m)
  {
    TimesTracks(f, g, x, u, r, t, x * r, u * r + x * t);
    TimesTracks(Times(f, g), h, x * r, u * r + x * t, w, uw, v, m);
  }
  lemma ScaledMoves(X: Moving, u: Vec, R: Curve, r: real, t: real, W: Moving, uw: Vec)
    requires Moves(X, u) && Moves(W, uw) && Tracks(R, r, t)
    ensures Moves(ScaledOf(X, R, W), ScaledTangent(Here(X), u, r, t, Here(W), uw))
  {
    forall j ensures SlopeAt(ScaledOf(X, R, W), ScaledTangent(Here(X), u, r, t, Here(W), uw), 0.0, j) {
      Entry(X, u, j);
      Entry(W, uw, j);
      ScaledAt(X, u, R, r, t, W, uw, j, Here(X)(j), Here(W)(j));
    }
  }
  lemma ScaledAt(X: Moving, u: Vec, R: Curve, r: real, t: real, W: Moving, uw: Vec, j: int, x: real, w: real)
    requires Tracks(X(j), x, u(j)) && Tracks(W(j), w, uw(j)) && Tracks(R, r, t)
    ensures SlopeAt(ScaledOf(X, R, W), ScaledTangent(Here(X), u, r, t, Here(W), uw), 0.0, j)
  {
    var m := ScaledTangent(Here(X), u, r, t, Here(W), uw)(j);
    assert Here(X)(j) == x && Here(W)(j) == w;
    ScaledEntry(X(j), R, W(j), x, u(j), r, t, w, uw(j), x * r * w, m);
  }
  lemma ScaledHere(X: Moving, R: Curve, W: Moving, s: real)
    ensures Same(TermAt(ScaledOf(X, R, W), s), Scaled(TermAt(X, s), R(s), TermAt(W, s)))
  {
    forall j ensures TermAt(ScaledOf(X, R, W), s)(j) == Scaled(TermAt(X, s), R(s), TermAt(W, s))(j) {
      assert ScaledOf(X, R, W)(j) == Times(Times(X(j), R), W(j));
      assert TermAt(X, s)(j) == X(j)(s) && TermAt(W, s)(j) == W(j)(s);
    }
  }
  function Norm(o: Ops, x: Vec, w: Vec): Vec { Scaled(x, Root(o, x), w) }
  function NormTangent(o: Ops, x: Vec, u: Vec, w: Vec, uw: Vec): Vec {
    ScaledTangent(x, u, Root(o, x), RootTangent(o, x, u), w, uw)
  }
  function NormOf(o: Ops, X: Moving, W: Moving): Moving { ScaledOf(X, RootOf(o, X), W) }
  lemma NormMoves(o: Ops, X: Moving, u: Vec, W: Moving, uw: Vec)
    requires Moves(X, u) && Moves(W, uw) && Rate(o.root, o.rootRate, Energy(o, Here(X)))
    ensures Moves(NormOf(o, X, W), NormTangent(o, Here(X), u, Here(W), uw))
  {
    RootTracks(o, X, u);
    ScaledMoves(X, u, RootOf(o, X), Root(o, Here(X)), RootTangent(o, Here(X), u), W, uw);
  }
  lemma NormHere(o: Ops, X: Moving, W: Moving, s: real)
    ensures Same(TermAt(NormOf(o, X, W), s), Norm(o, TermAt(X, s), TermAt(W, s)))
  {
    RootHere(o, X, s);
    ScaledHere(X, RootOf(o, X), W, s);
  }

  // ----- the gate

  /** What one token and the weights of its normalisation are, or how fast they move. */
  datatype Parts = Parts(h: Vec, k: Vec, v: Vec, w: Vec)
  datatype Token = Token(h: Moving, k: Moving, v: Moving, w: Moving)
  ghost predicate TokenMoves(x: Token, u: Parts) {
    Moves(x.h, u.h) && Moves(x.k, u.k) && Moves(x.v, u.v) && Moves(x.w, u.w)
  }
  function At(x: Token, s: real): Parts { Parts(TermAt(x.h, s), TermAt(x.k, s), TermAt(x.v, s), TermAt(x.w, s)) }

  function HNorm(o: Ops, x: Parts): Vec { Norm(o, x.h, x.w) }
  function KNorm(o: Ops, x: Parts): Vec { Norm(o, x.k, x.w) }
  function HTangent(o: Ops, x: Parts, u: Parts): Vec { NormTangent(o, x.h, u.h, x.w, u.w) }
  function KTangent(o: Ops, x: Parts, u: Parts): Vec { NormTangent(o, x.k, u.k, x.w, u.w) }
  function Dot(o: Ops, x: Parts): real { Sum(Product(HNorm(o, x), KNorm(o, x)), 0, o.n) }
  function DotTangent(o: Ops, x: Parts, u: Parts): real {
    Sum(ProductTangent(HNorm(o, x), HTangent(o, x, u), KNorm(o, x), KTangent(o, x, u)), 0, o.n)
  }
  function Alpha(o: Ops, x: Parts): real { o.gate(Dot(o, x)) }
  function AlphaTangent(o: Ops, x: Parts, u: Parts): real { Chained(o.gateRate, Dot(o, x), DotTangent(o, x, u)) }
  function HOf(o: Ops, x: Token): Moving { NormOf(o, x.h, x.w) }
  function KOf(o: Ops, x: Token): Moving { NormOf(o, x.k, x.w) }
  function DotOf(o: Ops, x: Token): Curve { Total(ProductOf(HOf(o, x), KOf(o, x)), 0, o.n) }
  function AlphaOf(o: Ops, x: Token): Curve { After(o.gate, DotOf(o, x)) }

  /** The scalar functions have their derivatives at what this token hands them. */
  ghost predicate SmoothGate(o: Ops, x: Parts) {
    && Rate(o.root, o.rootRate, Energy(o, x.h)) && Rate(o.root, o.rootRate, Energy(o, x.k))
    && Rate(o.gate, o.gateRate, Dot(o, x))
  }
  lemma DotHere(o: Ops, x: Token, s: real)
    ensures DotOf(o, x)(s) == Dot(o, At(x, s))
  {
    var z := At(x, s);
    ProductHere(HOf(o, x), KOf(o, x), s, o.n);
    NormHere(o, x.h, x.w, s);
    NormHere(o, x.k, x.w, s);
    ProductSame(TermAt(HOf(o, x), s), TermAt(KOf(o, x), s), HNorm(o, z), KNorm(o, z), z.h, z.h, o.n);
  }
  lemma GateDotTracks(o: Ops, x: Token, u: Parts)
    requires TokenMoves(x, u) && SmoothGate(o, At(x, 0.0))
    ensures Tracks(DotOf(o, x), Dot(o, At(x, 0.0)), DotTangent(o, At(x, 0.0), u))
  {
    var z, X, Y := At(x, 0.0), HOf(o, x), KOf(o, x);
    var a, b := HTangent(o, z, u), KTangent(o, z, u);
    NormMoves(o, x.h, u.h, x.w, u.w);
    NormMoves(o, x.k, u.k, x.w, u.w);
    DotTracks(X, a, Y, b, o.n);
    NormHere(o, x.h, x.w, 0.0);
    NormHere(o, x.k, x.w, 0.0);
    ProductSame(Here(X), Here(Y), HNorm(o, z), KNorm(o, z), a, b, o.n);
  }
  lemma AlphaTracks(o: Ops, x: Token, u: Parts)
    requires TokenMoves(x, u) && SmoothGate(o, At(x, 0.0))
    ensures Tracks(AlphaOf(o, x), Alpha(o, At(x, 0.0)), AlphaTangent(o, At(x, 0.0), u))
  {
    var z := At(x, 0.0);
    GateDotTracks(o, x, u);
    RateTracks(o.gate, o.gateRate, DotOf(o, x), Dot(o, z), DotTangent(o, z, u));
  }

  // ----- the gated value

  function Multiple(a: real, v: Vec): Vec { (j: int) => a * v(j) }
  function MultipleTangent(a: real, m: real, v: Vec, u: Vec): Vec { (j: int) => m * v(j) + a * u(j) }
  function MultipleOf(A: Curve, V: Moving): Moving { (j: int) => Times(A, V(j)) }
  lemma MultipleMoves(A: Curve, a: real, m: real, V: Moving, u: Vec)
    requires Tracks(A, a, m) && Moves(V, u)
    ensures Moves(MultipleOf(A, V), MultipleTangent(a, m, Here(V), u))
  {
    var v, t := Here(V), MultipleTangent(a, m, Here(V), u);
    forall j ensures SlopeAt(MultipleOf(A, V), t, 0.0, j) {
      Entry(V, u, j);
      MultipleAt(A, a, m, V, u, j, v(j));
    }
  }
  lemma MultipleAt(A: Curve, a: real, m: real, V: Moving, u: Vec, j: int, v: real)
    requires Tracks(A, a, m) && Tracks(V(j), v, u(j))
    ensures SlopeAt(MultipleOf(A, V), MultipleTangent(a, m, Here(V), u), 0.0, j)
  {
    var t := MultipleTangent(a, m, Here(V), u)(j);
    assert Here(V)(j) == v;
    TimesTracks(A, V(j), a, m, v, u(j), a * v, t);
  }
  lemma MultipleHere(A: Curve, V: Moving, s: real)
    ensures Same(TermAt(MultipleOf(A, V), s), Multiple(A(s), TermAt(V, s)))
  {
    forall j ensures TermAt(MultipleOf(A, V), s)(j) == Multiple(A(s), TermAt(V, s))(j) {
      assert MultipleOf(A, V)(j) == Times(A, V(j)) && TermAt(V, s)(j) == V(j)(s);
    }
  }
  function Gated(o: Ops, x: Parts): Vec { Multiple(Alpha(o, x), x.v) }
  function GatedTangent(o: Ops, x: Parts, u: Parts): Vec {
    MultipleTangent(Alpha(o, x), AlphaTangent(o, x, u), x.v, u.v)
  }
  function GatedOf(o: Ops, x: Token): Moving { MultipleOf(AlphaOf(o, x), x.v) }
  lemma GatedMoves(o: Ops, x: Token, u: Parts)
    requires TokenMoves(x, u) && SmoothGate(o, At(x, 0.0))
    ensures Moves(GatedOf(o, x), GatedTangent(o, At(x, 0.0), u))
  {
    var z := At(x, 0.0);
    AlphaTracks(o, x, u);
    MultipleMoves(AlphaOf(o, x), Alpha(o, z), AlphaTangent(o, z, u), x.v, u.v);
  }
  lemma GatedHere(o: Ops, x: Token, s: real)
    ensures Same(TermAt(GatedOf(o, x), s), Gated(o, At(x, s)))
  {
    DotHere(o, x, s);
    MultipleHere(AlphaOf(o, x), x.v, s);
  }

  // ----- the convolution

  /** One row of one launch: tokens by number, the weights of the second normalisation and the taps. */
  datatype Net = Net(token: int -> Token, w: Moving, taps: int -> Moving)
  /** The row at one value of the parameter, or the speeds at which its parts move. */
  datatype Rates = Rates(token: int -> Parts, w: Vec, taps: int -> Vec)
  ghost predicate TokenAt(x: Net, u: Rates, t: int) { TokenMoves(x.token(t), u.token(t)) }
  ghost predicate TapAt(x: Net, u: Rates, p: int) { Moves(x.taps(p), u.taps(p)) }
  ghost predicate NetMoves(x: Net, u: Rates) {
    (forall t :: TokenAt(x, u, t)) && Moves(x.w, u.w) && forall p :: TapAt(x, u, p)
  }
  function NetAt(x: Net, s: real): Rates {
    Rates((t: int) => At(x.token(t), s), TermAt(x.w, s), (p: int) => TermAt(x.taps(p), s))
  }

  lemma MovesSame(X: Moving, u: Vec, v: Vec)
    requires Moves(X, u) && Same(u, v)
    ensures Moves(X, v)
  {
    forall j ensures SlopeAt(X, v, 0.0, j) { assert SlopeAt(X, u, 0.0, j) && u(j) == v(j); }
  }
  lemma RootSame(o: Ops, x: Vec, y: Vec, u: Vec)
    requires Same(x, y)
    ensures Energy(o, x) == Energy(o, y) && RootTangent(o, x, u) == RootTangent(o, y, u)
  {
    ProductSame(x, x, y, y, u, u, o.n);
  }
  lemma ScaledSame(x: Vec, y: Vec, u: Vec, r: real, t: real, w: Vec, uw: Vec)
    requires Same(x, y)
    ensures Same(Scaled(x, r, w), Scaled(y, r, w))
    ensures Same(ScaledTangent(x, u, r, t, w, uw), ScaledTangent(y, u, r, t, w, uw))
  {
  }
  lemma NormSame(o: Ops, x: Vec, y: Vec, u: Vec, w: Vec, uw: Vec)
    requires Same(x, y)
    ensures Energy(o, x) == Energy(o, y) && Same(Norm(o, x, w), Norm(o, y, w))
    ensures Same(NormTangent(o, x, u, w, uw), NormTangent(o, y, u, w, uw))
  {
    RootSame(o, x, y, u);
    ScaledSame(x, y, u, Root(o, x), RootTangent(o, x, u), w, uw);
  }

  function Normed(o: Ops, x: Rates, t: int): Vec { Norm(o, Gated(o, x.token(t)), x.w) }
  function NormedTangent(o: Ops, x: Rates, u: Rates, t: int): Vec {
    NormTangent(o, Gated(o, x.token(t)), GatedTangent(o, x.token(t), u.token(t)), x.w, u.w)
  }
  function NormedOf(o: Ops, x: Net, t: int): Moving { NormOf(o, GatedOf(o, x.token(t)), x.w) }
  /** The scalar functions have their derivatives at what token t hands them. */
  ghost predicate SmoothAt(o: Ops, x: Rates, t: int) {
    SmoothGate(o, x.token(t)) && Rate(o.root, o.rootRate, Energy(o, Gated(o, x.token(t))))
  }
  lemma NormedMoves(o: Ops, x: Net, u: Rates, t: int)
    requires NetMoves(x, u) && SmoothAt(o, NetAt(x, 0.0), t)
    ensures Moves(NormedOf(o, x, t), NormedTangent(o, NetAt(x, 0.0), u, t))
  {
    var z, X := At(x.token(t), 0.0), GatedOf(o, x.token(t));
    assert TokenAt(x, u, t) && NetAt(x, 0.0).token(t) == z;
    var g := GatedTangent(o, z, u.token(t));
    GatedMoves(o, x.token(t), u.token(t));
    GatedHere(o, x.token(t), 0.0);
    NormSame(o, Here(X), Gated(o, z), g, Here(x.w), u.w);
    NormMoves(o, X, g, x.w, u.w);
    MovesSame(NormedOf(o, x, t), NormTangent(o, Here(X), g, Here(x.w), u.w), NormedTangent(o, NetAt(x, 0.0), u, t));
  }
  lemma NormedHere(o: Ops, x: Net, t: int, s: real)
    ensures Same(TermAt(NormedOf(o, x, t), s), Normed(o, NetAt(x, s), t))
  {
    var z, X := At(x.token(t), s), GatedOf(o, x.token(t));
    GatedHere(o, x.token(t), s);
    NormHere(o, X, x.w, s);
    NormSame(o, TermAt(X, s), Gated(o, z), z.h, TermAt(x.w, s), z.h);
  }

  /** Channel j of the taps, and of the tokens they meet at t; zero outside the sequence. */
  function Column(taps: int -> Vec, j: int): Vec { (p: int) => taps(p)(j) }
  function ColumnOf(taps: int -> Moving, j: int): Moving { (p: int) => taps(p)(j) }
  function Source(ks: int, t: int, p: int): int { t - (ks - 1) + p }
  function Past(n: int -> Vec, size: int, t: int, j: int): real { if 0 <= t < size then n(t)(j) else 0.0 }
  function PastOf(N: int -> Moving, size: int, t: int, j: int): Curve {
    if 0 <= t < size then N(t)(j) else Line(0.0, 0.0)
  }
  function History(n: int -> Vec, ks: int, size: int, t: int, j: int): Vec {
    (p: int) => Past(n, size, Source(ks, t, p), j)
  }
  function HistoryOf(N: int -> Moving, ks: int, size: int, t: int, j: int): Moving {
    (p: int) => PastOf(N, size, Source(ks, t, p), j)
  }
  ghost predicate MovesAt(N: int -> Moving, u: int -> Vec, t: int) { Moves(N(t), u(t)) }
  ghost predicate HereAt(N: int -> Moving, n: int -> Vec, s: real, t: int) { Same(TermAt(N(t), s), n(t)) }
  lemma ColumnMoves(N: int -> Moving, u: int -> Vec, j: int)
    requires forall p :: MovesAt(N, u, p)
    ensures Moves(ColumnOf(N, j), Column(u, j))
  {
    forall p ensures SlopeAt(ColumnOf(N, j), Column(u, j), 0.0, p) {
      assert MovesAt(N, u, p);
      Entry(N(p), u(p), j);
    }
  }
  lemma ColumnHere(N: int -> Moving, n: int -> Vec, j: int, s: real)
    requires forall p :: HereAt(N, n, s, p)
    ensures Same(TermAt(ColumnOf(N, j), s), Column(n, j))
  {
    forall p ensures TermAt(ColumnOf(N, j), s)(p) == Column(n, j)(p) {
      assert HereAt(N, n, s, p) && ColumnOf(N, j)(p) == N(p)(j) && TermAt(N(p), s)(j) == N(p)(j)(s);
    }
  }
  lemma PastSlope(N: int -> Moving, u: int -> Vec, size: int, t: int, j: int)
    requires 0 <= t < size ==> MovesAt(N, u, t)
    ensures Slope(PastOf(N, size, t, j), 0.0, Past(u, size, t, j))
  {
    if 0 <= t < size { Entry(N(t), u(t), j); } else { SlopeLine(0.0, 0.0, 0.0); }
  }
  lemma HistoryMoves(N: int -> Moving, u: int -> Vec, ks: int, size: int, t: int, j: int)
    requires forall q :: 0 <= q < size ==> MovesAt(N, u, q)
    ensures Moves(HistoryOf(N, ks, size, t, j), History(u, ks, size, t, j))
  {
    forall p ensures SlopeAt(HistoryOf(N, ks, size, t, j), History(u, ks, size, t, j), 0.0, p) {
      PastSlope(N, u, size, Source(ks, t, p), j);
    }
  }
  lemma PastHere(N: int -> Moving, n: int -> Vec, size: int, t: int, j: int, s: real)
    requires HereAt(N, n, s, t)
    ensures PastOf(N, size, t, j)(s) == Past(n, size, t, j)
  {
    assert TermAt(N(t), s)(j) == N(t)(j)(s);
  }
  lemma HistoryHere(N: int -> Moving, n: int -> Vec, ks: int, size: int, t: int, j: int, s: real)
    requires forall q :: HereAt(N, n, s, q)
    ensures Same(TermAt(HistoryOf(N, ks, size, t, j), s), History(n, ks, size, t, j))
  {
    forall p ensures TermAt(HistoryOf(N, ks, size, t, j), s)(p) == History(n, ks, size, t, j)(p) {
      var q := Source(ks, t, p);
      assert HereAt(N, n, s, q);
      PastHere(N, n, size, q, j, s);
    }
  }
  /** Channel j of the convolution at t, of taps a and tokens n. */
  function Conv(a: int -> Vec, n: int -> Vec, ks: int, size: int, t: int, j: int): real {
    Sum(Product(Column(a, j), History(n, ks, size, t, j)), 0, ks)
  }
  function ConvTangent(a: int -> Vec, ua: int -> Vec, n: int -> Vec, un: int -> Vec, ks: int, size: int, t: int,
                       j: int): real {
    Sum(ProductTangent(Column(a, j), Column(ua, j), History(n, ks, size, t, j), History(un, ks, size, t, j)), 0, ks)
  }
  function ConvOf(A: int -> Moving, N: int -> Moving, ks: int, size: int, t: int, j: int): Curve {
    Total(ProductOf(ColumnOf(A, j), HistoryOf(N, ks, size, t, j)), 0, ks)
  }
  lemma ConvHere(A: int -> Moving, a: int -> Vec, N: int -> Moving, n: int -> Vec, ks: int, size: int, t: int, j: int,
                 s: real)
    requires (forall p :: HereAt(A, a, s, p)) && forall q :: HereAt(N, n, s, q)
    ensures ConvOf(A, N, ks, size, t, j)(s) == Conv(a, n, ks, size, t, j)
  {
    var X, Y := ColumnOf(A, j), HistoryOf(N, ks, size, t, j);
    ProductHere(X, Y, s, ks);
    ColumnHere(A, a, j, s);
    HistoryHere(N, n, ks, size, t, j, s);
    ProductSame(TermAt(X, s), TermAt(Y, s), Column(a, j), History(n, ks, size, t, j), Column(a, j), Column(a, j), ks);
  }
  lemma ConvTracks(A: int -> Moving, a: int -> Vec, ua: int -> Vec, N: int -> Moving, n: int -> Vec, un: int -> Vec,
                   ks: int, size: int, t: int, j: int)
    requires (forall p :: HereAt(A, a, 0.0, p)) && forall q :: HereAt(N, n, 0.0, q)
    requires (forall p :: MovesAt(A, ua, p)) && forall q :: 0 <= q < size ==> MovesAt(N, un, q)
    ensures Tracks(ConvOf(A, N, ks, size, t, j), Conv(a, n, ks, size, t, j), ConvTangent(a, ua, n, un, ks, size, t, j))
  {
    var X, Y := ColumnOf(A, j), HistoryOf(N, ks, size, t, j);
    var u, v := Column(ua, j), History(un, ks, size, t, j);
    ColumnMoves(A, ua, j);
    HistoryMoves(N, un, ks, size, t, j);
    DotTracks(X, u, Y, v, ks);
    ColumnHere(A, a, j, 0.0);
    HistoryHere(N, n, ks, size, t, j, 0.0);
    ProductSame(Here(X), Here(Y), Column(a, j), History(n, ks, size, t, j), u, v, ks);
  }

  // ----- the output

  /** The activation of c, plus g. */
  function Activated(act: Curve, c: Vec, g: Vec): Vec { (j: int) => act(c(j)) + g(j) }
  function ActivatedTangent(rate: Curve, c: Vec, m: Vec, n: Vec): Vec { (j: int) => Chained(rate, c(j), m(j)) + n(j) }
  function ActivatedOf(act: Curve, C: Moving, G: Moving): Moving { (j: int) => Added(After(act, C(j)), G(j)) }
  lemma ActivatedMoves(act: Curve, rate: Curve, C: Moving, c: Vec, m: Vec, G: Moving, n: Vec)
    requires Moves(C, m) && Same(Here(C), c) && Moves(G, n) && forall y :: Rate(act, rate, y)
    ensures Moves(ActivatedOf(act, C, G), ActivatedTangent(rate, c, m, n))
  {
    forall j ensures SlopeAt(ActivatedOf(act, C, G), ActivatedTangent(rate, c, m, n), 0.0, j) {
      Entry(C, m, j);
      Entry(G, n, j);
      assert Here(C)(j) == c(j) && Rate(act, rate, c(j));
      ActivatedSlope(act, rate, C, c, m, G, n, j, Here(G)(j));
    }
  }
  lemma ActivatedSlope(act: Curve, rate: Curve, C: Moving, c: Vec, m: Vec, G: Moving, n: Vec, j: int, b: real)
    requires Tracks(C(j), c(j), m(j)) && Tracks(G(j), b, n(j)) && Rate(act, rate, c(j))
    ensures SlopeAt(ActivatedOf(act, C, G), ActivatedTangent(rate, c, m, n), 0.0, j)
  {
    var a, k := act(c(j)), Chained(rate, c(j), m(j));
    RateTracks(act, rate, C(j), c(j), m(j));
    AddedTracks(After(act, C(j)), G(j), a, k, b, n(j), a + b, k + n(j));
    EntryFrom(ActivatedOf(act, C, G), ActivatedTangent(rate, c, m, n), j, Added(After(act, C(j)), G(j)), a + b,
              k + n(j));
  }
  lemma ActivatedHere(act: Curve, C: Moving, c: Vec, G: Moving, g: Vec, s: real)
    requires Same(TermAt(C, s), c) && Same(TermAt(G, s), g)
    ensures Same(TermAt(ActivatedOf(act, C, G), s), Activated(act, c, g))
  {
    forall j ensures TermAt(ActivatedOf(act, C, G), s)(j) == Activated(act, c, g)(j) {
      assert TermAt(C, s)(j) == C(j)(s) && TermAt(G, s)(j) == G(j)(s);
      ActivatedAt(act, C, G, s, j, c(j), g(j));
    }
  }
  lemma ActivatedAt(act: Curve, C: Moving, G: Moving, s: real, j: int, y: real, v: real)
    requires C(j)(s) == y && G(j)(s) == v
    ensures TermAt(ActivatedOf(act, C, G), s)(j) == act(y) + v
  {
    assert ActivatedOf(act, C, G)(j) == Added(After(act, C(j)), G(j));
  }

  function NormedRows(o: Ops, x: Rates): int -> Vec { (t: int) => Normed(o, x, t) }
  function NormedTangents(o: Ops, x: Rates, u: Rates): int -> Vec { (t: int) => NormedTangent(o, x, u, t) }
  function NormedRowsOf(o: Ops, x: Net): int -> Moving { (t: int) => NormedOf(o, x, t) }
  function ConvRow(o: Ops, x: Rates, t: int): Vec { (j: int) => Conv(x.taps, NormedRows(o, x), o.ks, o.size, t, j) }
  function ConvRowTangent(o: Ops, x: Rates, u: Rates, t: int): Vec {
    (j: int) => ConvTangent(x.taps, u.taps, NormedRows(o, x), NormedTangents(o, x, u), o.ks, o.size, t, j)
  }
  function ConvRowOf(o: Ops, x: Net, t: int): Moving {
    (j: int) => ConvOf(x.taps, NormedRowsOf(o, x), o.ks, o.size, t, j)
  }
  lemma TapsHere(x: Net, s: real)
    ensures forall p :: HereAt(x.taps, NetAt(x, s).taps, s, p)
  {
  }
  lemma RowsHere(o: Ops, x: Net, s: real)
    ensures forall t :: HereAt(NormedRowsOf(o, x), NormedRows(o, NetAt(x, s)), s, t)
  {
    forall t ensures HereAt(NormedRowsOf(o, x), NormedRows(o, NetAt(x, s)), s, t) { NormedHere(o, x, t, s); }
  }
  /** All scalar functions have their derivatives at what the tokens of the row hand them. */
  ghost predicate Smooth(o: Ops, x: Rates) {
    (forall q :: 0 <= q < o.size ==> SmoothAt(o, x, q)) && forall y :: Rate(o.act, o.actRate, y)
  }
  lemma ConvRowMoves(o: Ops, x: Net, u: Rates, t: int)
    requires NetMoves(x, u) && Smooth(o, NetAt(x, 0.0))
    ensures Moves(ConvRowOf(o, x, t), ConvRowTangent(o, NetAt(x, 0.0), u, t))
    ensures Same(Here(ConvRowOf(o, x, t)), ConvRow(o, NetAt(x, 0.0), t))
  {
    var z, N := NetAt(x, 0.0), NormedRowsOf(o, x);
    var n, un := NormedRows(o, z), NormedTangents(o, z, u);
    TapsHere(x, 0.0);
    RowsHere(o, x, 0.0);
    forall p ensures MovesAt(x.taps, u.taps, p) { assert TapAt(x, u, p); }
    forall q | 0 <= q < o.size ensures MovesAt(N, un, q) { NormedMoves(o, x, u, q); }
    forall j
      ensures SlopeAt(ConvRowOf(o, x, t), ConvRowTangent(o, z, u, t), 0.0, j)
      ensures Here(ConvRowOf(o, x, t))(j) == ConvRow(o, z, t)(j)
    {
      ConvTracks(x.taps, z.taps, u.taps, N, n, un, o.ks, o.size, t, j);
      assert ConvRowOf(o, x, t)(j) == ConvOf(x.taps, N, o.ks, o.size, t, j);
    }
  }
  function Output(o: Ops, x: Rates, t: int): Vec { Activated(o.act, ConvRow(o, x, t), Gated(o, x.token(t))) }
  function OutputTangent(o: Ops, x: Rates, u: Rates, t: int): Vec {
    ActivatedTangent(o.actRate, ConvRow(o, x, t), ConvRowTangent(o, x, u, t),
                     GatedTangent(o, x.token(t), u.token(t)))
  }
  function OutputOf(o: Ops, x: Net, t: int): Moving { ActivatedOf(o.act, ConvRowOf(o, x, t), GatedOf(o, x.token(t))) }
  lemma OutputMoves(o: Ops, x: Net, u: Rates, t: int)
    requires NetMoves(x, u) && 0 <= t < o.size && Smooth(o, NetAt(x, 0.0))
    ensures Moves(OutputOf(o, x, t), OutputTangent(o, NetAt(x, 0.0), u, t))
  {
    var z, G := NetAt(x, 0.0), GatedOf(o, x.token(t));
    assert TokenAt(x, u, t) && z.token(t) == At(x.token(t), 0.0) && SmoothAt(o, z, t);
    ConvRowMoves(o, x, u, t);
    GatedMoves(o, x.token(t), u.token(t));
    ActivatedMoves(o.act, o.actRate, ConvRowOf(o, x, t), ConvRow(o, z, t), ConvRowTangent(o, z, u, t), G,
                   GatedTangent(o, z.token(t), u.token(t)));
  }
  lemma OutputHere(o: Ops, x: Net, t: int, s: real)
    ensures Same(TermAt(OutputOf(o, x, t), s), Output(o, NetAt(x, s), t))
  {
    var z, C := NetAt(x, s), ConvRowOf(o, x, t);
    TapsHere(x, s);
    RowsHere(o, x, s);
    forall j ensures TermAt(C, s)(j) == ConvRow(o, z, t)(j) {
      ConvHere(x.taps, z.taps, NormedRowsOf(o, x), NormedRows(o, z), o.ks, o.size, t, j, s);
      assert C(j) == ConvOf(x.taps, NormedRowsOf(o, x), o.ks, o.size, t, j);
    }
    GatedHere(o, x.token(t), s);
    ActivatedHere(o.act, C, ConvRow(o, z, t), GatedOf(o, x.token(t)), Gated(o, z.token(t)), s);
  }

  // ----- the loss

  /** Fixed weights times a moving vector. */
  function Fixed(a: Vec): Moving { (j: int) => Line(a(j), 0.0) }
  function Still(): Vec { (j: int) => 0.0 }
  lemma WeightedTracks(a: Vec, Y: Moving, u: Vec, n: int)
    requires Moves(Y, u)
    ensures Tracks(Total(ProductOf(Fixed(a), Y), 0, n), Sum(Product(a, Here(Y)), 0, n), Sum(Product(a, u), 0, n))
  {
    forall j ensures SlopeAt(Fixed(a), Still(), 0.0, j) { SlopeLine(a(j), 0.0, 0.0); }
    DotTracks(Fixed(a), Still(), Y, u, n);
    ProductSame(Here(Fixed(a)), Here(Y), a, Here(Y), Still(), u, n);
    SumCongruent(ProductTangent(a, Still(), Here(Y), u), Product(a, u), 0, n);
  }
  lemma WeightedHere(a: Vec, Y: Moving, y: Vec, s: real, n: int)
    requires Same(TermAt(Y, s), y)
    ensures Total(ProductOf(Fixed(a), Y), 0, n)(s) == Sum(Product(a, y), 0, n)
  {
    ProductHere(Fixed(a), Y, s, n);
    forall j ensures TermAt(Fixed(a), s)(j) == a(j) { assert Fixed(a)(j) == Line(a(j), 0.0); }
    ProductSame(TermAt(Fixed(a), s), TermAt(Y, s), a, y, a, a, n);
  }
  /** The loss of a row: the output weighted by dy, over tokens and channels. */
  function TokenLoss(o: Ops, x: Rates, dy: int -> Vec): Vec {
    (t: int) => Sum(Product(dy(t), Output(o, x, t)), 0, o.n)
  }
  function TokenLossTangent(o: Ops, x: Rates, u: Rates, dy: int -> Vec): Vec {
    (t: int) => Sum(Product(dy(t), OutputTangent(o, x, u, t)), 0, o.n)
  }
  function TokenLossOf(o: Ops, x: Net, dy: int -> Vec): Moving {
    (t: int) => Total(ProductOf(Fixed(dy(t)), OutputOf(o, x, t)), 0, o.n)
  }
  function Loss(o: Ops, x: Rates, dy: int -> Vec): real { Sum(TokenLoss(o, x, dy), 0, o.size) }
  function LossTangent(o: Ops, x: Rates, u: Rates, dy: int -> Vec): real {
    Sum(TokenLossTangent(o, x, u, dy), 0, o.size)
  }
  function LossOf(o: Ops, x: Net, dy: int -> Vec): Curve { Total(TokenLossOf(o, x, dy), 0, o.size) }
  lemma LossHere(o: Ops, x: Net, dy: int -> Vec, s: real)
    ensures LossOf(o, x, dy)(s) == Loss(o, NetAt(x, s), dy)
  {
    var f, g := TermAt(TokenLossOf(o, x, dy), s), TokenLoss(o, NetAt(x, s), dy);
    forall t ensures f(t) == g(t) {
      OutputHere(o, x, t, s);
      WeightedHere(dy(t), OutputOf(o, x, t), Output(o, NetAt(x, s), t), s, o.n);
    }
    SumCongruent(f, g, 0, o.size);
  }
  /** The loss of a row moves at the speed its tangent says. */
  lemma LossSlope(o: Ops, x: Net, u: Rates, dy: int -> Vec)
    requires NetMoves(x, u) && Smooth(o, NetAt(x, 0.0))
    ensures Slope(LossOf(o, x, dy), 0.0, LossTangent(o, NetAt(x, 0.0), u, dy))
  {
    var z, X := NetAt(x, 0.0), TokenLossOf(o, x, dy);
    var m := TokenLossTangent(o, z, u, dy);
    forall t | 0 <= t < o.size ensures SlopeAt(X, m, 0.0, t) {
      OutputMoves(o, x, u, t);
      WeightedTracks(dy(t), OutputOf(o, x, t), OutputTangent(o, z, u, t), o.n);
    }
    SlopeSum(X, m, 0, o.size, 0.0);
  }
}
