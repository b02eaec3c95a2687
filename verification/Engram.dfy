/** The engram gate: one-token decoding with a shift register against the whole-sequence causal convolution. */
module Engram {
  import opened Sums

  type Vec = int -> real
  type Grid = (int, int) -> real

  /** Sizes, weights and the uninterpreted functions of one layer.  `convW(p, j)` is tap p of channel j. */
  datatype Layer = Layer(d: real, dPad: int, dMem: nat, eps: real, rmsH: Vec, rmsV: Vec, convW: Grid, wK: Grid,
                         wV: Grid,
                         sigmoid: real -> real, rsqrt: real -> real, sqrt: real -> real)

  // ----- the definition: what a token contributes

  function Squares(x: Vec): Vec { (j: int) => x(j) * x(j) }
  function Rrms(c: Layer, x: Vec): real
    requires c.d > 0.0
  {
    c.rsqrt(Sum(Squares(x), 0, c.dPad) / c.d + c.eps)
  }
  function GateTerms(c: Layer, h: Vec, k: Vec): Vec
    requires c.d > 0.0
  {
    (j: int) => (h(j) * Rrms(c, h) * c.rmsH(j)) * (k(j) * Rrms(c, k) * c.rmsH(j))
  }
  function Ratio(a: real, b: real): real { if b == 0.0 then 0.0 else a / b }
  function Alpha(c: Layer, h: Vec, k: Vec): real
    requires c.d > 0.0
  {
    c.sigmoid(Ratio(Sum(GateTerms(c, h, k), 0, c.dPad), c.sqrt(c.d)))
  }
  /** The gated value, and the same after normalisation: what enters the convolution. */
  function Gated(c: Layer, h: Vec, k: Vec, v: Vec): Vec
    requires c.d > 0.0
  {
    (j: int) => Alpha(c, h, k) * v(j)
  }
  function Normed(c: Layer, x: Vec): Vec
    requires c.d > 0.0
  {
    (j: int) => x(j) * Rrms(c, x) * c.rmsV(j)
  }
  function Silu(c: Layer, x: real): real { x * c.sigmoid(x) }

  // ----- the definition: the convolution

  /** Token t of a history, zero before the beginning. */
  function Past(n: Grid, t: int, j: int): real { if t >= 0 then n(t, j) else 0.0 }
  /** How far back tap p looks. */
  function Lag(w: int, dil: int, p: int): int { (w - 1 - p) * dil }
  function ConvTerms(c: Layer, w: int, dil: int, n: Grid, t: int, j: int): Vec {
    (p: int) => c.convW(p, j) * Past(n, t - Lag(w, dil, p), j)
  }
  /** The dilated causal convolution of the history at token t. */
  function Conv(c: Layer, w: int, dil: int, n: Grid, t: int, j: int): real { Sum(ConvTerms(c, w, dil, n, t, j), 0, w) }

  /** The history of normalised values of given gated values. */
  function History(c: Layer, vhat: int -> Vec): Grid
    requires c.d > 0.0
  {
    (t: int, j: int) => Normed(c, vhat(t))(j)
  }
  function Output(c: Layer, w: int, dil: int, vhat: int -> Vec, t: int): Vec
    requires c.d > 0.0
  {
    (j: int) => Silu(c, Conv(c, w, dil, History(c, vhat), t, j)) + vhat(t)(j)
  }

  // ----- the vector instructions of the kernels

  function Zeros(): Vec { (j: int) => 0.0 }
  function Mul(x: Vec, y: Vec): Vec { (j: int) => x(j) * y(j) }
  function Plus(x: Vec, y: Vec): Vec { (j: int) => x(j) + y(j) }
  function Scale(x: Vec, a: real): Vec { (j: int) => x(j) * a }
  function ScaleBy(a: real, x: Vec): Vec { (j: int) => a * x(j) }
  function Map(f: real -> real, x: Vec): Vec { (j: int) => f(x(j)) }
  function Divide(a: real, b: real): real { if b == 0.0 then 0.0 else a / b }
  function AddScaled(x: Vec, a: real, row: Vec): Vec { (j: int) => x(j) + a * row(j) }
  function RowOf(m: Grid, i: int): Vec { (j: int) => m(i, j) }
  function AddProduct(x: Vec, a: Vec, b: Vec): Vec { (j: int) => x(j) + a(j) * b(j) }
  function ProjectTerms(e: Vec, m: Grid, j: int): Vec { (i: int) => e(i) * m(i, j) }
  function Project(e: Vec, m: Grid, n: int): Vec { (j: int) => Sum(ProjectTerms(e, m, j), 0, n) }
  /** What both kernels do last: silu of the convolution, plus the gated value. */
  function Activated(c: Layer, conv: Vec, vhat: Vec): Vec { Plus(Mul(conv, Map(c.sigmoid, conv)), vhat) }
  function Normalise(c: Layer, x: Vec, rrms: real): Vec { Mul(Scale(x, rrms), c.rmsV) }

  lemma ActivatedIs(c: Layer, conv: Vec, vhat: Vec, j: int)
    ensures Activated(c, conv, vhat)(j) == Silu(c, conv(j)) + vhat(j)
  {
  }
  /** Reciprocal root mean square of a vector. */
  method RootMeanSquare(c: Layer, x: Vec) returns (rrms: real)
    requires c.d > 0.0
    ensures rrms == Rrms(c, x)
  {
    var sumsq := Sum(Mul(x, x), 0, c.dPad);
    SumCongruent(Mul(x, x), Squares(x), 0, c.dPad);
    rrms := c.rsqrt(sumsq / c.d + c.eps);
  }

  // ----- the decode step

  /** The shift register holds the last `len` tokens before token t, oldest first, zero before the beginning. */
  ghost predicate Remembers(state: seq<Vec>, n: Grid, t: int) {
    forall s, j :: 0 <= s < |state| ==> state[s](j) == Past(n, t - |state| + s, j)
  }

  method ProjectKV(c: Layer, e: Vec) returns (k: Vec, v: Vec)
    ensures forall j :: k(j) == Project(e, c.wK, c.dMem)(j) && v(j) == Project(e, c.wV, c.dMem)(j)
  {
    k, v := Zeros(), Zeros();
    var i := 0;
    while i < c.dMem
      invariant 0 <= i <= c.dMem
      invariant forall j :: k(j) == Sum(ProjectTerms(e, c.wK, j), 0, i) && v(j) == Sum(ProjectTerms(e, c.wV, j), 0, i)
    {
      k, v := AddScaled(k, e(i), RowOf(c.wK, i)), AddScaled(v, e(i), RowOf(c.wV, i));
      i := i + 1;
    }
  }

  /** conv holds the first p taps. */
  ghost predicate Taps(c: Layer, w: int, dil: int, n: Grid, t: int, p: int, conv: Vec) {
    forall j :: conv(j) == Sum(ConvTerms(c, w, dil, n, t, j), 0, p)
  }
  lemma NextTap(c: Layer, w: int, dil: int, n: Grid, t: int, p: int, conv: Vec, tap: Vec)
    requires p >= 0 && Taps(c, w, dil, n, t, p, conv) && forall j :: tap(j) == Past(n, t - Lag(w, dil, p), j)
    ensures Taps(c, w, dil, n, t, p + 1, AddProduct(conv, RowOf(c.convW, p), tap))
  {
    forall j ensures AddProduct(conv, RowOf(c.convW, p), tap)(j) == Sum(ConvTerms(c, w, dil, n, t, j), 0, p + 1) {
      assert ConvTerms(c, w, dil, n, t, j)(p) == c.convW(p, j) * tap(j);
    }
  }
  /** Taps 0 .. w - 2 read the register, the last tap the new token. */
  method Convolve(c: Layer, w: int, dil: int, state: seq<Vec>, token: Vec, ghost n: Grid, ghost t: int)
    returns (conv: Vec)
    requires w >= 1 && dil >= 1 && |state| >= dil * (w - 1)
    requires Remembers(state, n, t) && t >= 0 && forall j :: token(j) == n(t, j)
    ensures forall j :: conv(j) == Conv(c, w, dil, n, t, j)
  {
    var len := |state|;
    conv := Zeros();
    var p := 0;
    while p < w - 1
      invariant 0 <= p <= w - 1 && Taps(c, w, dil, n, t, p, conv)
    {
      Reach(w, dil, p, len);
      var s := len - (w - 1 - p) * dil;
      NextTap(c, w, dil, n, t, p, conv, state[s]);
      conv := AddProduct(conv, RowOf(c.convW, p), state[s]);
      p := p + 1;
    }
    assert Lag(w, dil, w - 1) == 0;
    NextTap(c, w, dil, n, t, w - 1, conv, token);
    conv := AddProduct(conv, RowOf(c.convW, w - 1), token);
  }
  /** The register moves on by one token. */
  method Shift(state: seq<Vec>, token: Vec, ghost n: Grid, ghost t: int) returns (next: seq<Vec>)
    requires |state| >= 1 && Remembers(state, n, t) && t >= 0 && forall j :: token(j) == n(t, j)
    ensures |next| == |state| && Remembers(next, n, t + 1)
  {
    var len := |state|;
    next := [];
    var s := 0;
    while s < len - 1
      invariant 0 <= s <= len - 1 && |next| == s
      invariant forall q :: 0 <= q < s ==> next[q] == state[q + 1]
    {
      next := next + [state[s + 1]];
      s := s + 1;
    }
    next := next + [token];
    Shifted(state, next, token, n, t);
  }
  lemma Reach(w: int, dil: int, p: int, len: int)
    requires 0 <= p < w - 1 && dil >= 1 && len >= dil * (w - 1)
    ensures 0 <= len - Lag(w, dil, p) < len
  {
    MulAtLeast(w - 1 - p, 1, dil);
    MulAtLeast(w - 1, w - 1 - p, dil);
  }
  lemma MulAtLeast(a: int, b: int, d: int)
    requires a >= b && d >= 0
    ensures a * d >= b * d
  {
    assert (a - b) * d >= 0;
  }
  lemma Shifted(state: seq<Vec>, next: seq<Vec>, token: Vec, n: Grid, t: int)
    requires |state| >= 1 && |next| == |state| && Remembers(state, n, t) && t >= 0
    requires forall q :: 0 <= q < |state| - 1 ==> next[q] == state[q + 1]
    requires next[|state| - 1] == token && forall j :: token(j) == n(t, j)
    ensures Remembers(next, n, t + 1)
  {
    var len := |state|;
    forall s, j | 0 <= s < len ensures next[s](j) == Past(n, t + 1 - len + s, j) {
      if s < len - 1 {
        assert next[s] == state[s + 1];
        assert state[s + 1](j) == Past(n, t - len + (s + 1), j);
      }
    }
  }

  // ----- equal inputs give equal contributions

  ghost predicate Same(x: Vec, y: Vec) { forall j :: x(j) == y(j) }

  lemma RrmsSame(c: Layer, x: Vec, y: Vec)
    requires c.d > 0.0 && Same(x, y)
    ensures Rrms(c, x) == Rrms(c, y) && Same(Normed(c, x), Normed(c, y))
  {
    SumCongruent(Squares(x), Squares(y), 0, c.dPad);
  }
  lemma GateTermSame(c: Layer, h: Vec, k: Vec, h2: Vec, k2: Vec, j: int)
    requires c.d > 0.0 && Rrms(c, h) == Rrms(c, h2) && Rrms(c, k) == Rrms(c, k2) && h(j) == h2(j) && k(j) == k2(j)
    ensures GateTerms(c, h, k)(j) == GateTerms(c, h2, k2)(j)
  {
  }
  lemma AlphaSame(c: Layer, h: Vec, k: Vec, h2: Vec, k2: Vec)
    requires c.d > 0.0 && Same(h, h2) && Same(k, k2)
    ensures Alpha(c, h, k) == Alpha(c, h2, k2)
  {
    RrmsSame(c, h, h2);
    RrmsSame(c, k, k2);
    forall j ensures GateTerms(c, h, k)(j) == GateTerms(c, h2, k2)(j) { GateTermSame(c, h, k, h2, k2, j); }
    SumCongruent(GateTerms(c, h, k), GateTerms(c, h2, k2), 0, c.dPad);
  }
  lemma GatedSame(c: Layer, h: Vec, k: Vec, v: Vec, h2: Vec, k2: Vec, v2: Vec)
    requires c.d > 0.0 && Same(h, h2) && Same(k, k2) && Same(v, v2)
    ensures Alpha(c, h, k) == Alpha(c, h2, k2) && Same(Gated(c, h, k, v), Gated(c, h2, k2, v2))
  {
    AlphaSame(c, h, k, h2, k2);
  }
  ghost predicate SameHistory(a: int -> Vec, b: int -> Vec, t: int) { forall u :: 0 <= u <= t ==> Same(a(u), b(u)) }
  /** The output at t depends on tokens 0 .. t only. */
  lemma OutputSame(c: Layer, w: int, dil: int, a: int -> Vec, b: int -> Vec, t: int, j: int)
    requires c.d > 0.0 && w >= 1 && dil >= 1 && t >= 0 && SameHistory(a, b, t)
    ensures Output(c, w, dil, a, t)(j) == Output(c, w, dil, b, t)(j)
  {
    var m, n := History(c, a), History(c, b);
    forall p | 0 <= p < w ensures ConvTerms(c, w, dil, m, t, j)(p) == ConvTerms(c, w, dil, n, t, j)(p) {
      var u := t - Lag(w, dil, p);
      MulAtLeast(w - 1 - p, 0, dil);
      if u >= 0 {
        RrmsSame(c, a(u), b(u));
        assert m(u, j) == n(u, j);
      }
      assert Past(m, u, j) == Past(n, u, j);
    }
    SumCongruent(ConvTerms(c, w, dil, m, t, j), ConvTerms(c, w, dil, n, t, j), 0, w);
    assert Same(a(t), b(t));
  }

  // ----- decoding token by token

  datatype Token = Token(e: Vec, h: Vec)
  function KeyOf(c: Layer, x: Token): Vec { Project(x.e, c.wK, c.dMem) }
  function ValueOf(c: Layer, x: Token): Vec { Project(x.e, c.wV, c.dMem) }
  function GateOf(c: Layer, x: Token): Vec
    requires c.d > 0.0
  {
    Gated(c, x.h, KeyOf(c, x), ValueOf(c, x))
  }
  function GateAt(c: Layer, xs: seq<Token>, t: int): Vec
    requires c.d > 0.0
  {
    if 0 <= t < |xs| then GateOf(c, xs[t]) else Zeros()
  }
  function DecodedGates(c: Layer, xs: seq<Token>): int -> Vec
    requires c.d > 0.0
  {
    (t: int) => GateAt(c, xs, t)
  }

  lemma GateTermIs(c: Layer, h: Vec, k: Vec, rh: real, rk: real, j: int)
    requires c.d > 0.0 && rh == Rrms(c, h) && rk == Rrms(c, k)
    ensures Mul(Mul(Scale(h, rh), c.rmsH), Mul(Scale(k, rk), c.rmsH))(j) == GateTerms(c, h, k)(j)
  {
    assert Mul(Scale(h, rh), c.rmsH)(j) == h(j) * rh * c.rmsH(j);
    assert Mul(Scale(k, rk), c.rmsH)(j) == k(j) * rk * c.rmsH(j);
  }
  lemma GateIs(c: Layer, h: Vec, k: Vec, v: Vec, hk: Vec)
    requires c.d > 0.0 && forall j :: hk(j) == GateTerms(c, h, k)(j)
    ensures c.sigmoid(Divide(Sum(hk, 0, c.dPad), c.sqrt(c.d))) == Alpha(c, h, k)
    ensures Same(ScaleBy(c.sigmoid(Divide(Sum(hk, 0, c.dPad), c.sqrt(c.d))), v), Gated(c, h, k, v))
  {
    SumCongruent(hk, GateTerms(c, h, k), 0, c.dPad);
    var alpha := c.sigmoid(Divide(Sum(hk, 0, c.dPad), c.sqrt(c.d)));
    assert alpha == Alpha(c, h, k);
    forall j ensures ScaleBy(alpha, v)(j) == Gated(c, h, k, v)(j) { assert ScaleBy(alpha, v)(j) == alpha * v(j); }
  }
  /** The gate, the gated value and its normalisation, as the decode kernel computes them. */
  method GateDecode(c: Layer, h: Vec, k: Vec, v: Vec) returns (vhat: Vec, normed: Vec)
    requires c.d > 0.0
    ensures Same(vhat, Gated(c, h, k, v)) && Same(normed, Normed(c, Gated(c, h, k, v)))
  {
    var rh := RootMeanSquare(c, h);
    var rk := RootMeanSquare(c, k);
    var hk := Mul(Mul(Scale(h, rh), c.rmsH), Mul(Scale(k, rk), c.rmsH));
    forall j ensures hk(j) == GateTerms(c, h, k)(j) { GateTermIs(c, h, k, rh, rk, j); }
    GateIs(c, h, k, v, hk);
    var alpha := c.sigmoid(Divide(Sum(hk, 0, c.dPad), c.sqrt(c.d)));
    vhat := ScaleBy(alpha, v);
    var rv := RootMeanSquare(c, vhat);
    normed := Normalise(c, vhat, rv);
    NormaliseIs(c, vhat, Gated(c, h, k, v), rv);
  }
  lemma NormaliseIs(c: Layer, x: Vec, y: Vec, rrms: real)
    requires c.d > 0.0 && Same(x, y) && rrms == Rrms(c, x)
    ensures Same(Normalise(c, x, rrms), Normed(c, y)) && rrms == Rrms(c, y)
  {
    RrmsSame(c, x, y);
    forall j
      ensures Normalise(c, x, rrms)(j) == Normed(c, y)(j)
    {
      assert Scale(x, rrms)(j) == x(j) * rrms && x(j) == y(j);
    }
  }
  method DecodeStep(c: Layer, w: int, dil: int, state: seq<Vec>, x: Token, ghost vh: int -> Vec, ghost t: int)
    returns (y: Vec, next: seq<Vec>)
    requires c.d > 0.0 && w >= 1 && dil >= 1 && |state| >= 1 && |state| >= dil * (w - 1) && t >= 0
    requires Remembers(state, History(c, vh), t) && Same(vh(t), Gated(c, x.h, KeyOf(c, x), ValueOf(c, x)))
    ensures Same(y, Output(c, w, dil, vh, t))
    ensures |next| == |state| && Remembers(next, History(c, vh), t + 1)
  {
    var k, v := ProjectKV(c, x.e);
    var vhat, normed := GateDecode(c, x.h, k, v);
    GatedSame(c, x.h, k, v, x.h, KeyOf(c, x), ValueOf(c, x));
    RrmsSame(c, Gated(c, x.h, k, v), vh(t));
    ghost var n := History(c, vh);
    assert forall j :: normed(j) == n(t, j);
    var conv := Convolve(c, w, dil, state, normed, n, t);
    next := Shift(state, normed, n, t);
    y := Activated(c, conv, vhat);
    forall j ensures y(j) == Output(c, w, dil, vh, t)(j) { ActivatedIs(c, conv, vhat, j); }
  }

  /** From a zero register every token's output is that of the dilated convolution of the whole history, for any
      register long enough to reach the oldest tap. */
  method Decode(c: Layer, w: int, dil: int, len: int, xs: seq<Token>) returns (ys: seq<Vec>)
    requires c.d > 0.0 && w >= 1 && dil >= 1 && len >= 1 && len >= dil * (w - 1)
    ensures |ys| == |xs| && forall t :: 0 <= t < |xs| ==> Same(ys[t], Output(c, w, dil, DecodedGates(c, xs), t))
  {
    ghost var vh := DecodedGates(c, xs);
    var state: seq<Vec> := seq(len, _ => Zeros());
    ys := [];
    var t := 0;
    while t < |xs|
      invariant 0 <= t <= |xs| && |ys| == t && |state| == len && Remembers(state, History(c, vh), t)
      invariant forall u :: 0 <= u < t ==> Same(ys[u], Output(c, w, dil, vh, u))
    {
      var y, next := DecodeStep(c, w, dil, state, xs[t], vh, t);
      ys := ys + [y];
      state := next;
      t := t + 1;
    }
  }

  // ----- the forward pass

  lemma FwdGateTermIs(c: Layer, h: Vec, k: Vec, rh: real, rk: real, j: int)
    requires c.d > 0.0 && rh == Rrms(c, h) && rk == Rrms(c, k)
    ensures Mul(Scale(Mul(h, c.rmsH), rh), Scale(Mul(k, c.rmsH), rk))(j) == GateTerms(c, h, k)(j)
  {
    assert Scale(Mul(h, c.rmsH), rh)(j) == h(j) * c.rmsH(j) * rh;
    assert Scale(Mul(k, c.rmsH), rk)(j) == k(j) * c.rmsH(j) * rk;
    Rearrange(h(j), c.rmsH(j), rh, k(j), rk);
  }
  /** Pass 1 at one token: the gate, the gated value, and the reciprocal root mean squares that the backward pass needs
      again. */
  method GatePass1(c: Layer, h: Vec, k: Vec, v: Vec)
    returns (vhat: Vec, alpha: real, rh: real, rk: real, rrms: real)
    requires c.d > 0.0
    ensures Same(vhat, Gated(c, h, k, v)) && rrms == Rrms(c, Gated(c, h, k, v))
    ensures alpha == Alpha(c, h, k) && rh == Rrms(c, h) && rk == Rrms(c, k)
  {
    rk := RootMeanSquare(c, k);
    rh := RootMeanSquare(c, h);
    var hk := Mul(Scale(Mul(h, c.rmsH), rh), Scale(Mul(k, c.rmsH), rk));
    forall j ensures hk(j) == GateTerms(c, h, k)(j) { FwdGateTermIs(c, h, k, rh, rk, j); }
    GateIs(c, h, k, v, hk);
    alpha := c.sigmoid(Divide(Sum(hk, 0, c.dPad), c.sqrt(c.d)));
    vhat := ScaleBy(alpha, v);
    rrms := RootMeanSquare(c, vhat);
    RrmsSame(c, vhat, Gated(c, h, k, v));
  }
  lemma Rearrange(h: real, w: real, rh: real, k: real, rk: real)
    ensures h * w * rh == h * rh * w && k * w * rk == k * rk * w
  {
  }
  function TapValue(c: Layer, raw: Vec, rrms: real): Vec { Normalise(c, raw, rrms) }

  lemma TapIs(c: Layer, raw: Vec, rrms: real, vh: int -> Vec, u: int)
    requires c.d > 0.0 && u >= 0 && Same(raw, vh(u)) && rrms == Rrms(c, vh(u))
    ensures forall j :: TapValue(c, raw, rrms)(j) == Past(History(c, vh), u, j)
  {
    forall j ensures TapValue(c, raw, rrms)(j) == Past(History(c, vh), u, j) {
      assert History(c, vh)(u, j) == Normed(c, vh(u))(j);
      assert Normed(c, vh(u))(j) == vh(u)(j) * rrms * c.rmsV(j);
      assert Scale(raw, rrms)(j) == raw(j) * rrms && raw(j) == vh(u)(j);
    }
  }
  lemma ZeroTap(c: Layer, raw: Vec)
    requires Same(raw, Zeros())
    ensures forall j :: TapValue(c, raw, 0.0)(j) == 0.0
  {
    forall j ensures TapValue(c, raw, 0.0)(j) == 0.0 { assert Scale(raw, 0.0)(j) == 0.0; }
  }
  /** Pass 2 at one token: the taps before the beginning read zeros. */
  method GatePass2(c: Layer, vhats: seq<Vec>, rrmss: seq<real>, tid: int, ghost vh: int -> Vec) returns (y: Vec)
    requires c.d > 0.0 && |vhats| == |rrmss| && 0 <= tid < |vhats|
    requires forall u :: 0 <= u < |vhats| ==> Same(vhats[u], vh(u)) && rrmss[u] == Rrms(c, vh(u))
    ensures Same(y, Output(c, 4, 1, vh, tid))
  {
    ghost var n := History(c, vh);
    var conv := Zeros();
    var p := 0;
    while p < 4
      invariant 0 <= p <= 4 && Taps(c, 4, 1, n, tid, p, conv)
    {
      var src := tid - 3 + p;
      var rrms := 0.0;
      var raw := Zeros();
      if src >= 0 {
        raw := vhats[src];
        rrms := rrmss[src];
      }
      var tap := TapValue(c, raw, rrms);
      assert src == tid - Lag(4, 1, p);
      if src >= 0 { TapIs(c, vhats[src], rrmss[src], vh, src); } else { ZeroTap(c, raw); }
      NextTap(c, 4, 1, n, tid, p, conv, tap);
      conv := AddProduct(conv, RowOf(c.convW, p), tap);
      p := p + 1;
    }
    y := Activated(c, conv, vhats[tid]);
    assert Same(vhats[tid], vh(tid));
    forall j ensures y(j) == Output(c, 4, 1, vh, tid)(j) { ActivatedIs(c, conv, vhats[tid], j); }
  }
  function ForwardGates(c: Layer, hs: seq<Vec>, ks: seq<Vec>, vs: seq<Vec>): int -> Vec
    requires c.d > 0.0 && |hs| == |ks| == |vs|
  {
    (t: int) => if 0 <= t < |hs| then Gated(c, hs[t], ks[t], vs[t]) else Zeros()
  }
  /** vhats and rrmss hold what the first pass saves for every token. */
  ghost predicate Saved(c: Layer, vhats: seq<Vec>, rrmss: seq<real>, vh: int -> Vec)
    requires c.d > 0.0
  {
    |vhats| == |rrmss| && forall u :: 0 <= u < |vhats| ==> Same(vhats[u], vh(u)) && rrmss[u] == Rrms(c, vh(u))
  }
  method ForwardPass1(c: Layer, hs: seq<Vec>, ks: seq<Vec>, vs: seq<Vec>) returns (vhats: seq<Vec>, rrmss: seq<real>)
    requires c.d > 0.0 && |hs| == |ks| == |vs|
    ensures |vhats| == |hs| && Saved(c, vhats, rrmss, ForwardGates(c, hs, ks, vs))
  {
    vhats, rrmss := [], [];
    var t := 0;
    while t < |hs|
      invariant 0 <= t <= |hs| && |vhats| == t && Saved(c, vhats, rrmss, ForwardGates(c, hs, ks, vs))
    {
      var vhat, alpha, rh, rk, rrms := GatePass1(c, hs[t], ks[t], vs[t]);
      vhats := vhats + [vhat];
      rrmss := rrmss + [rrms];
      t := t + 1;
    }
  }
  method ForwardPass2(c: Layer, vhats: seq<Vec>, rrmss: seq<real>, ghost vh: int -> Vec) returns (ys: seq<Vec>)
    requires c.d > 0.0 && Saved(c, vhats, rrmss, vh)
    ensures |ys| == |vhats| && forall t :: 0 <= t < |ys| ==> Same(ys[t], Output(c, 4, 1, vh, t))
  {
    ys := [];
    var t := 0;
    while t < |vhats|
      invariant 0 <= t <= |vhats| && |ys| == t
      invariant forall u :: 0 <= u < t ==> Same(ys[u], Output(c, 4, 1, vh, u))
    {
      var y := GatePass2(c, vhats, rrmss, t, vh);
      ys := ys + [y];
      t := t + 1;
    }
  }
  method Forward(c: Layer, hs: seq<Vec>, ks: seq<Vec>, vs: seq<Vec>) returns (ys: seq<Vec>)
    requires c.d > 0.0 && |hs| == |ks| == |vs|
    ensures |ys| == |hs| && forall t :: 0 <= t < |hs| ==> Same(ys[t], Output(c, 4, 1, ForwardGates(c, hs, ks, vs), t))
  {
    var vhats, rrmss := ForwardPass1(c, hs, ks, vs);
    ys := ForwardPass2(c, vhats, rrmss, ForwardGates(c, hs, ks, vs));
  }

  /** With kernel width 4 and dilation 1, decoding token by token gives what the forward pass gives on the same h, k,
      v. */
  lemma DecodeIsForward(c: Layer, xs: seq<Token>, hs: seq<Vec>, ks: seq<Vec>, vs: seq<Vec>, t: int, j: int)
    requires c.d > 0.0 && |hs| == |ks| == |vs| == |xs| && 0 <= t < |xs|
    requires forall u :: 0 <= u < |xs| ==>
      Same(hs[u], xs[u].h) && Same(ks[u], KeyOf(c, xs[u])) && Same(vs[u], ValueOf(c, xs[u]))
    ensures Output(c, 4, 1, DecodedGates(c, xs), t)(j) == Output(c, 4, 1, ForwardGates(c, hs, ks, vs), t)(j)
  {
    forall u | 0 <= u <= t ensures Same(DecodedGates(c, xs)(u), ForwardGates(c, hs, ks, vs)(u)) {
      assert Same(hs[u], xs[u].h) && Same(ks[u], KeyOf(c, xs[u])) && Same(vs[u], ValueOf(c, xs[u]));
      GatedSame(c, hs[u], ks[u], vs[u], xs[u].h, KeyOf(c, xs[u]), ValueOf(c, xs[u]));
    }
    OutputSame(c, 4, 1, DecodedGates(c, xs), ForwardGates(c, hs, ks, vs), t, j);
  }
}
