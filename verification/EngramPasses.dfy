/** The second and third backward passes of the engram layer: back through both normalisations and the gate, token by
    token over the grid of programs, with the weight gradients added up in any order. */
module EngramPasses {
  import opened Sums
  import opened EngramBackward
  import E = Engram
  import T = EngramTangent
  import G = EngramGradient

  // ----- sums over all tokens

  function ShareOf(S: Tensor, j: int): ((int, int)) -> real { (e: (int, int)) => S(e.0, e.1, j) }
  function TokenTerms(S: Tensor, b: int, j: int): Row { (t: int) => S(b, t, j) }
  function RowSums(S: Tensor, size: int, j: int): Row { (b: int) => Sum(TokenTerms(S, b, j), 0, size) }
  /** Channel j of S over all rows and tokens. */
  function AllTokens(S: Tensor, batch: int, size: int, j: int): real { Sum(RowSums(S, size, j), 0, batch) }

  lemma {:induction false} RowTotal(S: Tensor, b: int, size: nat, j: int)
    ensures Fold(RowEvents(b, size), ShareOf(S, j)) == Sum(TokenTerms(S, b, j), 0, size)
  {
    if size > 0 {
      RowTotal(S, b, size - 1, j);
      FoldJoined(RowEvents(b, size - 1), [(b, size - 1)], RowEvents(b, size), ShareOf(S, j),
                 Sum(TokenTerms(S, b, j), 0, size - 1), S(b, size - 1, j)) by { FoldOne((b, size - 1), ShareOf(S, j)); }
    }
  }
  lemma GridTotal(S: Tensor, batch: nat, size: nat, blockN: nat, cids: seq<int>, j: int)
    requires blockN >= 1 && AllPrograms(batch, size, blockN, cids)
    ensures Fold(GridEvents(batch, size, blockN, cids), ShareOf(S, j)) == AllTokens(S, batch, size, j)
  {
    GridVisitsOnce(batch, size, blockN, cids);
    FoldPermuted(GridEvents(batch, size, blockN, cids), Events(batch, size), ShareOf(S, j));
    forall b ensures RowIs(ShareOf(S, j), RowSums(S, size, j), size, b) { RowTotal(S, b, size, j); }
    EventsFold(ShareOf(S, j), RowSums(S, size, j), batch, size);
  }
  /** acc holds the shares of the given events. */
  ghost predicate Summed(S: Tensor, order: seq<(int, int)>, acc: Row) {
    forall j :: acc(j) == Fold(order, ShareOf(S, j))
  }
  function Add(x: Row, y: Row): Row { (j: int) => x(j) + y(j) }
  lemma SummedJoin(S: Tensor, a: seq<(int, int)>, b: seq<(int, int)>, x: Row, y: Row)
    requires Summed(S, a, x) && Summed(S, b, y)
    ensures Summed(S, a + b, Add(x, y))
  {
    forall j ensures Add(x, y)(j) == Fold(a + b, ShareOf(S, j)) { FoldConcat(a, b, ShareOf(S, j)); }
  }
  lemma SummedMore(S: Tensor, order: seq<(int, int)>, x: Row, b: int, t: int, row: Row)
    requires Summed(S, order, x) && forall j :: row(j) == S(b, t, j)
    ensures Summed(S, order + [(b, t)], Add(x, row))
  {
    forall j ensures row(j) == Fold([(b, t)], ShareOf(S, j)) { FoldOne((b, t), ShareOf(S, j)); }
    SummedJoin(S, order, [(b, t)], x, row);
  }
  lemma SummedAll(S: Tensor, batch: nat, size: nat, blockN: nat, cids: seq<int>, acc: Row)
    requires blockN >= 1 && AllPrograms(batch, size, blockN, cids)
    requires Summed(S, GridEvents(batch, size, blockN, cids), acc)
    ensures forall j :: acc(j) == AllTokens(S, batch, size, j)
  {
    forall j ensures acc(j) == AllTokens(S, batch, size, j) { GridTotal(S, batch, size, blockN, cids, j); }
  }

  // ----- what the passes should compute

  function RowAt(x: Tensor, b: int, t: int): Row { (j: int) => x(b, t, j) }
  function Pull(r: real, s: real, d: real): real
    requires d > 0.0
  {
    -(r * r * r * (s / d))
  }
  /** The pull of the root mean square in the gradient of a normalised vector. */
  function PullBack(x: Row, w: Row, g: Row, r: real, d: real, n: int): real
    requires d > 0.0
  {
    Pull(r, Sum(G.Weighted(x, w, g), 0, n), d)
  }
  function Vnorm(c: Bwd, din: Tensor, b: int, t: int): Row {
    (j: int) => BackConv(c.ks, Taps(c, j), Channel(din, b, j), c.size, t)
  }
  /** The gradient of vhat, and one token's share of the gradient of rms_w_v. */
  function DVhat(c: Bwd, din: Tensor): Tensor
    requires c.d > 0.0
  {
    (b: int, t: int, j: int) =>
      var x, g, r := RowAt(c.vhat, b, t), Vnorm(c, din, b, t), c.rrms(b, t);
      G.NormBack(x, c.rmsV, g, r, PullBack(x, c.rmsV, g, r, c.d, c.n))(j) + c.dy(b, t, j)
  }
  function RmsShare(c: Bwd, din: Tensor): Tensor {
    (b: int, t: int, j: int) => G.WeightBack(RowAt(c.vhat, b, t), Vnorm(c, din, b, t), c.rrms(b, t))(j)
  }

  // ----- the vector instructions

  function Mul(x: Row, y: Row): Row { (j: int) => x(j) * y(j) }
  function Scale(x: Row, a: real): Row { (j: int) => x(j) * a }
  function Minus(x: Row, y: Row): Row { (j: int) => x(j) - y(j) }

  // ----- pass 2

  lemma MoveDivision(a: real, b: real, d: real)
    requires d > 0.0
    ensures a * b / d == a * (b / d)
  {
    assert (a * b / d - a * (b / d)) * d == 0.0;
  }
  lemma DotIs(x: Row, w: Row, g: Row, h: Row, r: real, d: real, n: int)
    requires d > 0.0 && forall j :: g(j) == h(j)
    ensures r * r * r * Sum(Mul(Mul(x, w), g), 0, n) / d == -PullBack(x, w, h, r, d, n)
  {
    SumCongruent(Mul(Mul(x, w), g), G.Weighted(x, w, h), 0, n);
    MoveDivision(r * r * r, Sum(G.Weighted(x, w, h), 0, n), d);
  }
  lemma BackIs(x: Row, w: Row, g: Row, h: Row, r: real, tmp: real, k: real, j: int)
    requires k == -tmp && g(j) == h(j)
    ensures Minus(Scale(Mul(w, g), r), Scale(x, tmp))(j) == G.NormBack(x, w, h, r, k)(j)
  {
    assert Mul(w, g)(j) == w(j) * g(j) && w(j) * g(j) * r == r * w(j) * g(j);
    assert Scale(Mul(w, g), r)(j) == w(j) * g(j) * r && Scale(x, tmp)(j) == x(j) * tmp;
    assert x(j) * tmp == -(k * x(j));
  }
  lemma WeightIs(x: Row, g: Row, h: Row, r: real, j: int)
    requires g(j) == h(j)
    ensures Scale(Mul(g, x), r)(j) == G.WeightBack(x, h, r)(j)
  {
    assert Mul(g, x)(j) == g(j) * x(j);
  }
  /** x is row (b, t) of D. */
  ghost predicate RowOfIs(D: Tensor, b: int, t: int, x: Row) { forall j :: x(j) == D(b, t, j) }
  method Pass2Row(c: Bwd, din: Tensor, b: int, t: int) returns (dvhat: Row, share: Row)
    requires c.d > 0.0
    ensures RowOfIs(DVhat(c, din), b, t, dvhat) && RowOfIs(RmsShare(c, din), b, t, share)
  {
    var dvnorm := Pass2Token(c, din, b, t);
    var x, r := RowAt(c.vhat, b, t), c.rrms(b, t);
    share := Scale(Mul(dvnorm, x), r);
    var dot := Sum(Mul(Mul(x, c.rmsV), dvnorm), 0, c.n);
    var tmp := r * r * r * dot / c.d;
    var norm := Minus(Scale(Mul(c.rmsV, dvnorm), r), Scale(x, tmp));
    dvhat := Add(norm, RowAt(c.dy, b, t));
    ghost var g := Vnorm(c, din, b, t);
    DotIs(x, c.rmsV, dvnorm, g, r, c.d, c.n);
    Pass2RowIs(c, din, b, t, dvnorm, tmp, norm);
  }
  lemma Pass2RowIs(c: Bwd, din: Tensor, b: int, t: int, dvnorm: Row, tmp: real, norm: Row)
    requires c.d > 0.0 && forall j :: dvnorm(j) == Vnorm(c, din, b, t)(j)
    requires var x, g, r := RowAt(c.vhat, b, t), Vnorm(c, din, b, t), c.rrms(b, t);
             tmp == -PullBack(x, c.rmsV, g, r, c.d, c.n) &&
             norm == Minus(Scale(Mul(c.rmsV, dvnorm), r), Scale(x, tmp))
    ensures forall j :: Add(norm, RowAt(c.dy, b, t))(j) == DVhat(c, din)(b, t, j)
    ensures forall j :: Scale(Mul(dvnorm, RowAt(c.vhat, b, t)), c.rrms(b, t))(j) == RmsShare(c, din)(b, t, j)
  {
    var x, g, r := RowAt(c.vhat, b, t), Vnorm(c, din, b, t), c.rrms(b, t);
    var k := PullBack(x, c.rmsV, g, r, c.d, c.n);
    forall j ensures Add(norm, RowAt(c.dy, b, t))(j) == DVhat(c, din)(b, t, j) {
      BackIs(x, c.rmsV, dvnorm, g, r, tmp, k, j);
    }
    forall j ensures Scale(Mul(dvnorm, x), r)(j) == RmsShare(c, din)(b, t, j) {
      WeightIs(x, dvnorm, g, r, j);
    }
  }

  /** What pass 2 holds after the given events. */
  ghost predicate Pass2Holds(c: Bwd, din: Tensor, order: seq<(int, int)>, start: Tensor, drms: Row, buf: Tensor)
    requires c.d > 0.0
  {
    Summed(RmsShare(c, din), order, drms) && Filled(DVhat(c, din), order, start, buf)
  }
  lemma Pass2Step(c: Bwd, din: Tensor, order: seq<(int, int)>, start: Tensor, drms: Row, buf: Tensor, b: int, t: int,
                  dvhat: Row, share: Row)
    requires c.d > 0.0 && Pass2Holds(c, din, order, start, drms, buf)
    requires RowOfIs(DVhat(c, din), b, t, dvhat) && RowOfIs(RmsShare(c, din), b, t, share)
    ensures Pass2Holds(c, din, order + [(b, t)], start, Add(drms, share), Put(buf, b, t, dvhat))
  {
    SummedMore(RmsShare(c, din), order, drms, b, t, share);
    FilledMore(DVhat(c, din), order, start, buf, b, t, dvhat);
  }
  method Pass2Program(c: Bwd, din: Tensor, bid: int, base: int, blockN: nat, before: Row, held: Tensor,
                      ghost order: seq<(int, int)>, ghost start: Tensor)
    returns (drms: Row, buf: Tensor)
    requires c.d > 0.0 && Pass2Holds(c, din, order, start, before, held)
    ensures Pass2Holds(c, din, order + Stretch(bid, base, c.size, blockN), start, drms, buf)
  {
    drms, buf := before, held;
    assert order + [] == order;
    var ti: nat := 0;
    while ti < blockN
      invariant ti <= blockN && Pass2Holds(c, din, order + Stretch(bid, base, c.size, ti), start, drms, buf)
    {
      var tid := base + ti;
      ghost var done := order + Stretch(bid, base, c.size, ti);
      StretchStep(bid, base, c.size, ti, order);
      if tid < c.size {
        var dvhat, share := Pass2Row(c, din, bid, tid);
        Pass2Step(c, din, done, start, drms, buf, bid, tid, dvhat, share);
        drms, buf := Add(drms, share), Put(buf, bid, tid, dvhat);
      }
      ti := ti + 1;
    }
  }
  /** Pass 2 as launched, programs in any order: every row of the buffer is the gradient of vhat at its token, and
      drms_w_v the sum of all shares. */
  method Pass2Launch(c: Bwd, din: Tensor, batch: nat, blockN: nat, cids: seq<int>, held: Tensor)
    returns (drms: Row, buf: Tensor)
    requires c.d > 0.0 && blockN >= 1 && AllPrograms(batch, c.size, blockN, cids)
    ensures forall j :: drms(j) == AllTokens(RmsShare(c, din), batch, c.size, j)
    ensures AllFilled(DVhat(c, din), batch, c.size, held, buf)
  {
    drms, buf := Zeros(), held;
    var i := 0;
    while i < |cids|
      invariant 0 <= i <= |cids| && Pass2Holds(c, din, GridEvents(batch, c.size, blockN, cids[..i]), held, drms, buf)
    {
      assert cids[..i + 1][..i] == cids[..i];
      drms, buf := Pass2Program(c, din, RowId(batch, cids[i]), Base(batch, blockN, cids[i]), blockN, drms, buf,
                                GridEvents(batch, c.size, blockN, cids[..i]), held);
      i := i + 1;
    }
    assert cids[..i] == cids;
    SummedAll(RmsShare(c, din), batch, c.size, blockN, cids, drms);
    FilledAll(DVhat(c, din), batch, c.size, blockN, cids, held, buf);
  }

  // ----- pass 3: what it should compute

  datatype Gate = Gate(size: nat, n: int, d: real, sqrtD: real, w: Row, h: Tensor, k: Tensor, v: Tensor, dvhat: Tensor,
                       alpha: (int, int) -> real, rrmsH: (int, int) -> real, rrmsK: (int, int) -> real)

  function GatePull(m: real, alpha: real, sqrtD: real): real { E.Ratio(m * (alpha * (1.0 - alpha)), sqrtD) }
  /** The gradients of the dot product, of both normalised vectors, and of the inputs. */
  function DDot(g: Gate, b: int, t: int): real {
    GatePull(G.Inner(RowAt(g.dvhat, b, t), RowAt(g.v, b, t), g.n), g.alpha(b, t), g.sqrtD)
  }
  function ToH(g: Gate, b: int, t: int): Row {
    T.Multiple(DDot(g, b, t), T.Scaled(RowAt(g.k, b, t), g.rrmsK(b, t), g.w))
  }
  function ToK(g: Gate, b: int, t: int): Row {
    T.Multiple(DDot(g, b, t), T.Scaled(RowAt(g.h, b, t), g.rrmsH(b, t), g.w))
  }
  function NormGradient(x: Row, w: Row, e: Row, r: real, d: real, n: int): Row
    requires d > 0.0
  {
    G.NormBack(x, w, e, r, PullBack(x, w, e, r, d, n))
  }
  function DH(g: Gate): Tensor
    requires g.d > 0.0
  {
    (b: int, t: int, j: int) => NormGradient(RowAt(g.h, b, t), g.w, ToH(g, b, t), g.rrmsH(b, t), g.d, g.n)(j)
  }
  function DK(g: Gate): Tensor
    requires g.d > 0.0
  {
    (b: int, t: int, j: int) => NormGradient(RowAt(g.k, b, t), g.w, ToK(g, b, t), g.rrmsK(b, t), g.d, g.n)(j)
  }
  function DV(g: Gate): Tensor { (b: int, t: int, j: int) => g.alpha(b, t) * g.dvhat(b, t, j) }
  function GateShare(g: Gate): Tensor {
    (b: int, t: int, j: int) => G.WeightBack(RowAt(g.h, b, t), ToH(g, b, t), g.rrmsH(b, t))(j) +
      G.WeightBack(RowAt(g.k, b, t), ToK(g, b, t), g.rrmsK(b, t))(j)
  }

  // ----- pass 3

  function ScaleBy(a: real, x: Row): Row { (j: int) => a * x(j) }
  function Divide(a: real, b: real): real { if b == 0.0 then 0.0 else a / b }
  /** The bodies of the parallel loops. */
  function DotRow(x: Row, w: Row, ddot: real, other: Row): Row { (j: int) => x(j) * w(j) * ddot * other(j) }
  function BackRow(r: real, w: Row, ddot: real, other: Row, tmp: real, x: Row): Row {
    (j: int) => r * w(j) * ddot * other(j) - tmp * x(j)
  }
  function LocalRow(ddot: real, kn: Row, h: Row, rh: real, hn: Row, k: Row, rk: real): Row {
    (j: int) => ddot * kn(j) * h(j) * rh + ddot * hn(j) * k(j) * rk
  }
  lemma DotRowIs(x: Row, w: Row, ddot: real, other: Row, e: Row, r: real, d: real, n: int)
    requires d > 0.0 && Multiplied(e, ddot, other)
    ensures r * r * r * Sum(DotRow(x, w, ddot, other), 0, n) / d == -PullBack(x, w, e, r, d, n)
  {
    var f, g := DotRow(x, w, ddot, other), G.Weighted(x, w, e);
    forall j ensures f(j) == g(j) { Associate(x(j) * w(j), ddot, other(j), 1.0); }
    SumCongruent(f, g, 0, n);
    MoveDivision(r * r * r, Sum(g, 0, n), d);
  }
  lemma BackRowIs(r: real, w: real, ddot: real, other: real, tmp: real, x: real, e: real, k: real)
    requires e == ddot * other && k == -tmp
    ensures r * w * ddot * other - tmp * x == r * w * e + k * x
  {
    Associate(r * w, ddot, other, 1.0);
    assert k * x == -(tmp * x);
  }
  method Pass3Row(g: Gate, b: int, t: int) returns (dh: Row, dk: Row, dv: Row, share: Row)
    requires g.d > 0.0
    ensures RowOfIs(DH(g), b, t, dh) && RowOfIs(DK(g), b, t, dk) && RowOfIs(DV(g), b, t, dv)
    ensures RowOfIs(GateShare(g), b, t, share)
  {
    var d, v, h, k := RowAt(g.dvhat, b, t), RowAt(g.v, b, t), RowAt(g.h, b, t), RowAt(g.k, b, t);
    var alpha, rh, rk := g.alpha(b, t), g.rrmsH(b, t), g.rrmsK(b, t);
    var dalpha := Sum(Mul(d, v), 0, g.n);
    dv := ScaleBy(alpha, d);
    var ddot := Divide(dalpha * alpha * (1.0 - alpha), g.sqrtD);
    DDotIs(g, b, t, dalpha, alpha, ddot);
    var hn, kn := Mul(Scale(h, rh), g.w), Mul(Scale(k, rk), g.w);
    ToHIs(g, b, t, ddot, hn, kn);
    dh := NormRow(h, g.w, ddot, kn, rh, g.d, g.n, ToH(g, b, t));
    dk := NormRow(k, g.w, ddot, hn, rk, g.d, g.n, ToK(g, b, t));
    share := LocalRow(ddot, kn, h, rh, hn, k, rk);
    GateShareIs(g, b, t, ddot, hn, kn);
  }
  ghost predicate Multiplied(e: Row, ddot: real, other: Row) { forall j :: e(j) == ddot * other(j) }
  lemma ToHIs(g: Gate, b: int, t: int, ddot: real, hn: Row, kn: Row)
    requires ddot == DDot(g, b, t)
    requires hn == Mul(Scale(RowAt(g.h, b, t), g.rrmsH(b, t)), g.w)
    requires kn == Mul(Scale(RowAt(g.k, b, t), g.rrmsK(b, t)), g.w)
    ensures Multiplied(ToH(g, b, t), ddot, kn) && Multiplied(ToK(g, b, t), ddot, hn)
  {
    var h, k := T.Scaled(RowAt(g.h, b, t), g.rrmsH(b, t), g.w), T.Scaled(RowAt(g.k, b, t), g.rrmsK(b, t), g.w);
    forall j ensures h(j) == hn(j) { assert Scale(RowAt(g.h, b, t), g.rrmsH(b, t))(j) == g.h(b, t, j) * g.rrmsH(b, t); }
    forall j ensures k(j) == kn(j) { assert Scale(RowAt(g.k, b, t), g.rrmsK(b, t))(j) == g.k(b, t, j) * g.rrmsK(b, t); }
    MultipleIs(ddot, k, kn, ToH(g, b, t));
    MultipleIs(ddot, h, hn, ToK(g, b, t));
  }
  lemma MultipleIs(a: real, x: Row, y: Row, e: Row)
    requires e == T.Multiple(a, x) && forall j :: x(j) == y(j)
    ensures Multiplied(e, a, y)
  {
  }
  lemma GateShareIs(g: Gate, b: int, t: int, ddot: real, hn: Row, kn: Row)
    requires Multiplied(ToH(g, b, t), ddot, kn) && Multiplied(ToK(g, b, t), ddot, hn)
    ensures RowOfIs(GateShare(g), b, t, LocalRow(ddot, kn, RowAt(g.h, b, t), g.rrmsH(b, t), hn, RowAt(g.k, b, t),
                                                 g.rrmsK(b, t)))
  {
    var h, k, rh, rk := RowAt(g.h, b, t), RowAt(g.k, b, t), g.rrmsH(b, t), g.rrmsK(b, t);
    forall j ensures LocalRow(ddot, kn, h, rh, hn, k, rk)(j) == GateShare(g)(b, t, j) {
      LocalIs(ddot, kn, h, rh, hn, k, rk, ToH(g, b, t), ToK(g, b, t), j);
    }
  }
  lemma LocalIs(ddot: real, kn: Row, h: Row, rh: real, hn: Row, k: Row, rk: real, e: Row, f: Row, j: int)
    requires Multiplied(e, ddot, kn) && Multiplied(f, ddot, hn)
    ensures LocalRow(ddot, kn, h, rh, hn, k, rk)(j) == G.WeightBack(h, e, rh)(j) + G.WeightBack(k, f, rk)(j)
  {
    assert e(j) == ddot * kn(j) && f(j) == ddot * hn(j);
  }
  lemma DDotIs(g: Gate, b: int, t: int, dalpha: real, alpha: real, ddot: real)
    requires alpha == g.alpha(b, t) && dalpha == Sum(Mul(RowAt(g.dvhat, b, t), RowAt(g.v, b, t)), 0, g.n)
    requires ddot == Divide(dalpha * alpha * (1.0 - alpha), g.sqrtD)
    ensures ddot == DDot(g, b, t)
  {
    var d, v := RowAt(g.dvhat, b, t), RowAt(g.v, b, t);
    SumCongruent(Mul(d, v), T.Product(d, v), 0, g.n);
    DivideIs(dalpha, alpha, g.sqrtD);
    assert dalpha == G.Inner(d, v, g.n);
  }
  lemma DivideIs(dalpha: real, alpha: real, s: real)
    ensures Divide(dalpha * alpha * (1.0 - alpha), s) == GatePull(dalpha, alpha, s)
  {
    assert dalpha * alpha * (1.0 - alpha) == dalpha * (alpha * (1.0 - alpha));
  }
  /** Back through one normalisation. */
  method NormRow(x: Row, w: Row, ddot: real, other: Row, r: real, d: real, n: int, ghost e: Row) returns (dx: Row)
    requires d > 0.0 && Multiplied(e, ddot, other)
    ensures T.Same(dx, NormGradient(x, w, e, r, d, n))
  {
    var dot := Sum(DotRow(x, w, ddot, other), 0, n);
    var tmp := r * r * r * dot / d;
    dx := BackRow(r, w, ddot, other, tmp, x);
    DotRowIs(x, w, ddot, other, e, r, d, n);
    NormRowIs(r, w, ddot, other, tmp, x, e, PullBack(x, w, e, r, d, n));
  }
  lemma NormRowIs(r: real, w: Row, ddot: real, other: Row, tmp: real, x: Row, e: Row, k: real)
    requires k == -tmp && Multiplied(e, ddot, other)
    ensures T.Same(BackRow(r, w, ddot, other, tmp, x), G.NormBack(x, w, e, r, k))
  {
    forall j ensures BackRow(r, w, ddot, other, tmp, x)(j) == G.NormBack(x, w, e, r, k)(j) {
      BackRowIs(r, w(j), ddot, other(j), tmp, x(j), e(j), k);
    }
  }

  datatype Out = Out(h: Tensor, k: Tensor, v: Tensor)
  ghost predicate Pass3Wrote(g: Gate, order: seq<(int, int)>, start: Out, out: Out)
    requires g.d > 0.0
  {
    Filled(DH(g), order, start.h, out.h) && Filled(DK(g), order, start.k, out.k) && Filled(DV(g), order, start.v, out.v)
  }
  lemma Pass3Step(g: Gate, order: seq<(int, int)>, start: Out, out: Out, b: int, t: int, dh: Row, dk: Row, dv: Row)
    requires g.d > 0.0 && Pass3Wrote(g, order, start, out)
    requires RowOfIs(DH(g), b, t, dh) && RowOfIs(DK(g), b, t, dk) && RowOfIs(DV(g), b, t, dv)
    ensures Pass3Wrote(g, order + [(b, t)], start,
                       Out(Put(out.h, b, t, dh), Put(out.k, b, t, dk), Put(out.v, b, t, dv)))
  {
    FilledMore(DH(g), order, start.h, out.h, b, t, dh);
    FilledMore(DK(g), order, start.k, out.k, b, t, dk);
    FilledMore(DV(g), order, start.v, out.v, b, t, dv);
  }
  /** In the middle of a program: `done` are its tokens so far. */
  ghost predicate Pass3Holds(g: Gate, order: seq<(int, int)>, done: seq<(int, int)>, start: Out, local: Row, out: Out)
    requires g.d > 0.0
  {
    Summed(GateShare(g), done, local) && Pass3Wrote(g, order + done, start, out)
  }
  lemma Pass3More(g: Gate, order: seq<(int, int)>, done: seq<(int, int)>, start: Out, local: Row, out: Out, b: int,
                  t: int, dh: Row, dk: Row, dv: Row, share: Row)
    requires g.d > 0.0 && Pass3Holds(g, order, done, start, local, out)
    requires RowOfIs(DH(g), b, t, dh) && RowOfIs(DK(g), b, t, dk) && RowOfIs(DV(g), b, t, dv)
    requires RowOfIs(GateShare(g), b, t, share)
    ensures Pass3Holds(g, order, done + [(b, t)], start, Add(local, share),
                       Out(Put(out.h, b, t, dh), Put(out.k, b, t, dk), Put(out.v, b, t, dv)))
  {
    SummedMore(GateShare(g), done, local, b, t, share);
    Pass3Step(g, order + done, start, out, b, t, dh, dk, dv);
    assert order + (done + [(b, t)]) == order + done + [(b, t)];
  }
  /** One program: the shares of its tokens are added up on the side, then added to drms_w_h at once. */
  method Pass3Program(g: Gate, bid: int, base: int, blockN: nat, before: Row, held: Out, ghost order: seq<(int, int)>,
                      ghost start: Out)
    returns (drms: Row, out: Out)
    requires g.d > 0.0 && Summed(GateShare(g), order, before) && Pass3Wrote(g, order, start, held)
    ensures Summed(GateShare(g), order + Stretch(bid, base, g.size, blockN), drms)
    ensures Pass3Wrote(g, order + Stretch(bid, base, g.size, blockN), start, out)
  {
    var local := Zeros();
    out := held;
    assert order + [] == order;
    var ti: nat := 0;
    while ti < blockN
      invariant ti <= blockN && Pass3Holds(g, order, Stretch(bid, base, g.size, ti), start, local, out)
    {
      var tid := base + ti;
      ghost var done := Stretch(bid, base, g.size, ti);
      StretchNext(bid, base, g.size, ti);
      if tid < g.size {
        var dh, dk, dv, share := Pass3Row(g, bid, tid);
        Pass3More(g, order, done, start, local, out, bid, tid, dh, dk, dv, share);
        local := Add(local, share);
        out := Out(Put(out.h, bid, tid, dh), Put(out.k, bid, tid, dk), Put(out.v, bid, tid, dv));
      }
      ti := ti + 1;
    }
    drms := Add(before, local);
    SummedJoin(GateShare(g), order, Stretch(bid, base, g.size, blockN), before, local);
  }
  lemma StretchNext(b: int, base: int, size: nat, k: nat)
    ensures Stretch(b, base, size, k + 1) ==
      if base + k < size then Stretch(b, base, size, k) + [(b, base + k)] else Stretch(b, base, size, k)
  {
  }
  /** Pass 3 as launched, programs in any order. */
  method Pass3Launch(g: Gate, batch: nat, blockN: nat, cids: seq<int>, held: Out) returns (drms: Row, out: Out)
    requires g.d > 0.0 && blockN >= 1 && AllPrograms(batch, g.size, blockN, cids)
    ensures forall j :: drms(j) == AllTokens(GateShare(g), batch, g.size, j)
    ensures AllFilled(DH(g), batch, g.size, held.h, out.h) && AllFilled(DK(g), batch, g.size, held.k, out.k)
    ensures AllFilled(DV(g), batch, g.size, held.v, out.v)
  {
    drms, out := Zeros(), held;
    var i := 0;
    while i < |cids|
      invariant 0 <= i <= |cids| && Summed(GateShare(g), GridEvents(batch, g.size, blockN, cids[..i]), drms)
      invariant Pass3Wrote(g, GridEvents(batch, g.size, blockN, cids[..i]), held, out)
    {
      assert cids[..i + 1][..i] == cids[..i];
      drms, out := Pass3Program(g, RowId(batch, cids[i]), Base(batch, blockN, cids[i]), blockN, drms, out,
                                GridEvents(batch, g.size, blockN, cids[..i]), held);
      i := i + 1;
    }
    assert cids[..i] == cids;
    SummedAll(GateShare(g), batch, g.size, blockN, cids, drms);
    FilledAll(DH(g), batch, g.size, blockN, cids, held.h, out.h);
    FilledAll(DK(g), batch, g.size, blockN, cids, held.k, out.k);
    FilledAll(DV(g), batch, g.size, blockN, cids, held.v, out.v);
  }
}
