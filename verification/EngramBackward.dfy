/** Backward pass of the causal convolution: the weight and input gradients agree, and the order of atomic adds is
    immaterial. */
module EngramBackward {
  import opened Arith
  import opened Sums

  type Row = int -> real
  type Tensor = (int, int, int) -> real

  // ----- one row of one channel

  /** Zero before the beginning; zero outside 0 .. size - 1. */
  function Before(x: Row, t: int): real { if t >= 0 then x(t) else 0.0 }
  function Within(d: Row, size: int, t: int): real { if 0 <= t < size then d(t) else 0.0 }

  function ConvTerms(ks: int, w: Row, x: Row, t: int): Row { (p: int) => w(p) * Before(x, t - (ks - 1) + p) }
  /** The causal convolution at t. */
  function Conv(ks: int, w: Row, x: Row, t: int): real { Sum(ConvTerms(ks, w, x, t), 0, ks) }
  function BackTerms(ks: int, w: Row, d: Row, size: int, t: int): Row {
    (p: int) => w(p) * Within(d, size, t + (ks - 1) - p)
  }
  /** The gradient that reaches the convolution's input at t. */
  function BackConv(ks: int, w: Row, d: Row, size: int, t: int): real { Sum(BackTerms(ks, w, d, size, t), 0, ks) }
  function TapTerms(ks: int, x: Row, d: Row, p: int): Row { (t: int) => d(t) * Before(x, t - (ks - 1) + p) }
  /** The row's share of the gradient of tap p. */
  function TapGrad(ks: int, x: Row, d: Row, size: int, p: int): real { Sum(TapTerms(ks, x, d, p), 0, size) }

  function OutTerms(ks: int, w: Row, x: Row, d: Row): Row { (t: int) => d(t) * Conv(ks, w, x, t) }
  function InTerms(ks: int, w: Row, x: Row, d: Row, size: int): Row { (t: int) => BackConv(ks, w, d, size, t) * x(t) }
  function WeightTerms(ks: int, w: Row, x: Row, d: Row, size: int): Row {
    (p: int) => w(p) * TapGrad(ks, x, d, size, p)
  }

  function OutAt(ks: int, w: Row, x: Row, d: Row, t: int, p: int): real { d(t) * (w(p) * Before(x, t - (ks - 1) + p)) }
  function Out(ks: int, w: Row, x: Row, d: Row): (int, int) -> real { (t: int, p: int) => OutAt(ks, w, x, d, t, p) }
  function OutRowOf(ks: int, w: Row, x: Row, d: Row, t: int): Row { (p: int) => OutAt(ks, w, x, d, t, p) }
  function OutColOf(ks: int, w: Row, x: Row, d: Row, p: int): Row { (t: int) => OutAt(ks, w, x, d, t, p) }
  lemma OutRows(ks: int, w: Row, x: Row, d: Row, t: int)
    ensures OutTerms(ks, w, x, d)(t) == Sum(OutRowOf(ks, w, x, d, t), 0, ks)
  {
    var f, g := ConvTerms(ks, w, x, t), OutRowOf(ks, w, x, d, t);
    forall p ensures Scales(f, g, d(t), p) { assert f(p) == w(p) * Before(x, t - (ks - 1) + p); }
    SumScale(f, g, d(t), 0, ks);
  }
  lemma OutCols(ks: int, w: Row, x: Row, d: Row, size: int, p: int)
    ensures WeightTerms(ks, w, x, d, size)(p) == Sum(OutColOf(ks, w, x, d, p), 0, size)
  {
    var f, g := TapTerms(ks, x, d, p), OutColOf(ks, w, x, d, p);
    forall t ensures Scales(f, g, w(p), t) {
      var e := Before(x, t - (ks - 1) + p);
      assert f(t) == d(t) * e && g(t) == d(t) * (w(p) * e);
      Exchange(d(t), w(p), e);
    }
    SumScale(f, g, w(p), 0, size);
  }
  /** d . (w * x) is w . dw. */
  lemma OutIsWeight(ks: int, w: Row, x: Row, d: Row, size: int)
    ensures Sum(OutTerms(ks, w, x, d), 0, size) == Sum(WeightTerms(ks, w, x, d, size), 0, ks)
  {
    var f := Out(ks, w, x, d);
    var rows, cols := (t: int) => Sum((p: int) => f(t, p), 0, ks), (p: int) => Sum((t: int) => f(t, p), 0, size);
    forall t | 0 <= t < size ensures OutTerms(ks, w, x, d)(t) == rows(t) {
      OutRows(ks, w, x, d, t);
      SumCongruent(OutRowOf(ks, w, x, d, t), (p: int) => f(t, p), 0, ks);
    }
    SumCongruent(OutTerms(ks, w, x, d), rows, 0, size);
    forall p | 0 <= p < ks ensures WeightTerms(ks, w, x, d, size)(p) == cols(p) {
      OutCols(ks, w, x, d, size, p);
      SumCongruent(OutColOf(ks, w, x, d, p), (t: int) => f(t, p), 0, size);
    }
    SumCongruent(WeightTerms(ks, w, x, d, size), cols, 0, ks);
    SumSwap(f, 0, size, 0, ks);
  }
  lemma Exchange(a: real, b: real, c: real)
    ensures a * (b * c) == b * (a * c) && b * c * a == b * (a * c) && b * (a * c) == b * (c * a)
  {
  }

  function Late(x: Row, d: Row, size: int, k: int): Row { (t: int) => Within(d, size, t + k) * x(t) }
  function Early(x: Row, d: Row, k: int): Row { (t: int) => d(t) * Before(x, t - k) }
  lemma LateZero(x: Row, d: Row, size: int, k: int, from: int, to: int)
    requires from + k >= size
    ensures Sum(Late(x, d, size, k), from, to) == 0.0
  {
    forall t | from <= t < to ensures Late(x, d, size, k)(t) == 0.0 { assert Within(d, size, t + k) == 0.0; }
    SumZero(Late(x, d, size, k), from, to);
  }
  lemma EarlyZero(x: Row, d: Row, k: int, from: int, to: int)
    requires to <= k
    ensures Sum(Early(x, d, k), from, to) == 0.0
  {
    forall t | from <= t < to ensures Early(x, d, k)(t) == 0.0 { assert Before(x, t - k) == 0.0; }
    SumZero(Early(x, d, k), from, to);
  }
  lemma ShiftedTerm(x: Row, d: Row, size: int, k: int, t: int)
    requires 0 <= k && 0 <= t < size - k
    ensures ShiftAt(Early(x, d, k), Late(x, d, size, k), k, t)
  {
    assert Within(d, size, t + k) == d(t + k) && Before(x, t + k - k) == x(t);
    assert Late(x, d, size, k)(t) == d(t + k) * x(t);
    assert Early(x, d, k)(t + k) == d(t + k) * x(t);
  }
  lemma Shifts(x: Row, d: Row, size: int, k: int)
    requires 0 <= k < size
    ensures Sum(Late(x, d, size, k), 0, size - k) == Sum(Early(x, d, k), k, size)
  {
    forall t | 0 <= t < size - k
      ensures ShiftAt(Early(x, d, k), Late(x, d, size, k), k, t)
    {
      ShiftedTerm(x, d, size, k, t);
    }
    SumShiftAt(Early(x, d, k), Late(x, d, size, k), k, size - k);
  }
  /** Moving the window: both ends are clipped alike. */
  lemma Reindex(x: Row, d: Row, size: int, k: int)
    requires 0 <= k && 0 <= size
    ensures Sum(Late(x, d, size, k), 0, size) == Sum(Early(x, d, k), 0, size)
  {
    if k >= size {
      LateZero(x, d, size, k, 0, size);
      EarlyZero(x, d, k, 0, size);
    } else {
      SumSplit(Late(x, d, size, k), 0, size - k, size);
      LateZero(x, d, size, k, size - k, size);
      SumSplit(Early(x, d, k), 0, k, size);
      EarlyZero(x, d, k, 0, k);
      Shifts(x, d, size, k);
    }
  }
  function CrossAt(ks: int, w: Row, x: Row, d: Row, size: int, t: int, p: int): real {
    w(p) * (Within(d, size, t + (ks - 1) - p) * x(t))
  }
  function Cross(ks: int, w: Row, x: Row, d: Row, size: int): (int, int) -> real {
    (t: int, p: int) => CrossAt(ks, w, x, d, size, t, p)
  }
  function CrossRow(ks: int, w: Row, x: Row, d: Row, size: int, t: int): Row {
    (p: int) => CrossAt(ks, w, x, d, size, t, p)
  }
  function CrossCol(ks: int, w: Row, x: Row, d: Row, size: int, p: int): Row {
    (t: int) => CrossAt(ks, w, x, d, size, t, p)
  }
  lemma CrossRows(ks: int, w: Row, x: Row, d: Row, size: int, t: int)
    ensures InTerms(ks, w, x, d, size)(t) == Sum(CrossRow(ks, w, x, d, size, t), 0, ks)
  {
    var f, g := BackTerms(ks, w, d, size, t), CrossRow(ks, w, x, d, size, t);
    forall p ensures Scales(f, g, x(t), p) {
      var e := Within(d, size, t + (ks - 1) - p);
      assert f(p) == w(p) * e && g(p) == w(p) * (e * x(t));
      Exchange(x(t), w(p), e);
    }
    SumScale(f, g, x(t), 0, ks);
  }
  lemma CrossTerm(ks: int, w: Row, x: Row, d: Row, size: int, p: int, t: int)
    ensures Scales(Late(x, d, size, ks - 1 - p), CrossCol(ks, w, x, d, size, p), w(p), t)
  {
    var k := ks - 1 - p;
    var e := Within(d, size, t + k);
    assert t + (ks - 1) - p == t + k;
    assert Late(x, d, size, k)(t) == e * x(t) && CrossCol(ks, w, x, d, size, p)(t) == w(p) * (e * x(t));
  }
  lemma EarlyIsTap(ks: int, x: Row, d: Row, size: int, p: int)
    ensures Sum(Early(x, d, ks - 1 - p), 0, size) == TapGrad(ks, x, d, size, p)
  {
    var f, g := Early(x, d, ks - 1 - p), TapTerms(ks, x, d, p);
    forall t ensures f(t) == g(t) { assert t - (ks - 1 - p) == t - (ks - 1) + p; }
    SumCongruent(f, g, 0, size);
  }
  lemma CrossCols(ks: int, w: Row, x: Row, d: Row, size: int, p: int)
    requires 0 <= p < ks && size >= 0
    ensures WeightTerms(ks, w, x, d, size)(p) == Sum(CrossCol(ks, w, x, d, size, p), 0, size)
  {
    var k := ks - 1 - p;
    forall t | 0 <= t < size
      ensures Scales(Late(x, d, size, k), CrossCol(ks, w, x, d, size, p), w(p), t)
    {
      CrossTerm(ks, w, x, d, size, p, t);
    }
    SumScale(Late(x, d, size, k), CrossCol(ks, w, x, d, size, p), w(p), 0, size);
    Reindex(x, d, size, k);
    EarlyIsTap(ks, x, d, size, p);
  }
  /** dx . x is w . dw, despite the clipping. */
  lemma InIsWeight(ks: int, w: Row, x: Row, d: Row, size: int)
    requires size >= 0
    ensures Sum(InTerms(ks, w, x, d, size), 0, size) == Sum(WeightTerms(ks, w, x, d, size), 0, ks)
  {
    var f := Cross(ks, w, x, d, size);
    var rows, cols := (t: int) => Sum((p: int) => f(t, p), 0, ks), (p: int) => Sum((t: int) => f(t, p), 0, size);
    forall t | 0 <= t < size ensures InTerms(ks, w, x, d, size)(t) == rows(t) {
      CrossRows(ks, w, x, d, size, t);
      SumCongruent(CrossRow(ks, w, x, d, size, t), (p: int) => f(t, p), 0, ks);
    }
    SumCongruent(InTerms(ks, w, x, d, size), rows, 0, size);
    forall p | 0 <= p < ks ensures WeightTerms(ks, w, x, d, size)(p) == cols(p) {
      CrossCols(ks, w, x, d, size, p);
      SumCongruent(CrossCol(ks, w, x, d, size, p), (t: int) => f(t, p), 0, size);
    }
    SumCongruent(WeightTerms(ks, w, x, d, size), cols, 0, ks);
    SumSwap(f, 0, size, 0, ks);
  }

  // ----- a batch of rows

  function RowOf(g: (int, int) -> real, b: int): Row { (t: int) => g(b, t) }
  /** The gradient of tap p: over all rows and tokens. */
  function TapShares(ks: int, x: (int, int) -> real, d: (int, int) -> real, size: int, p: int): Row {
    (b: int) => TapGrad(ks, RowOf(x, b), RowOf(d, b), size, p)
  }
  function Dconv(ks: int, x: (int, int) -> real, d: (int, int) -> real, size: int, batch: int, p: int): real {
    Sum(TapShares(ks, x, d, size, p), 0, batch)
  }
  function OutSums(ks: int, w: Row, x: (int, int) -> real, d: (int, int) -> real, size: int): Row {
    (b: int) => Sum(OutTerms(ks, w, RowOf(x, b), RowOf(d, b)), 0, size)
  }
  function InSums(ks: int, w: Row, x: (int, int) -> real, d: (int, int) -> real, size: int): Row {
    (b: int) => Sum(InTerms(ks, w, RowOf(x, b), RowOf(d, b), size), 0, size)
  }
  function WeightPairs(ks: int, w: Row, x: (int, int) -> real, d: (int, int) -> real, size: int, batch: int): Row {
    (p: int) => w(p) * Dconv(ks, x, d, size, batch, p)
  }
  /** For every channel, every sequence length and batch: sum of d_silu * conv_out, of conv_w * dconv_w, and of
      d_vnorm * normed are the same number. */
  lemma GradientsAgree(ks: int, w: Row, x: (int, int) -> real, d: (int, int) -> real, size: int, batch: int)
    requires size >= 0
    ensures Sum(OutSums(ks, w, x, d, size), 0, batch) == Sum(WeightPairs(ks, w, x, d, size, batch), 0, ks)
    ensures Sum(InSums(ks, w, x, d, size), 0, batch) == Sum(WeightPairs(ks, w, x, d, size, batch), 0, ks)
  {
    var f := Batched(ks, w, x, d, size);
    var rows, cols := (b: int) => Sum((p: int) => f(b, p), 0, ks), (p: int) => Sum((b: int) => f(b, p), 0, batch);
    forall b | 0 <= b < batch
      ensures OutSums(ks, w, x, d, size)(b) == rows(b) && InSums(ks, w, x, d, size)(b) == rows(b)
    {
      OutIsWeight(ks, w, RowOf(x, b), RowOf(d, b), size);
      InIsWeight(ks, w, RowOf(x, b), RowOf(d, b), size);
      SumCongruent(WeightTerms(ks, w, RowOf(x, b), RowOf(d, b), size), (p: int) => f(b, p), 0, ks);
    }
    SumCongruent(OutSums(ks, w, x, d, size), rows, 0, batch);
    SumCongruent(InSums(ks, w, x, d, size), rows, 0, batch);
    forall p | 0 <= p < ks ensures WeightPairs(ks, w, x, d, size, batch)(p) == cols(p) {
      BatchedCol(ks, w, x, d, size, batch, p);
      SumCongruent(BatchCol(ks, w, x, d, size, p), (b: int) => f(b, p), 0, batch);
    }
    SumCongruent(WeightPairs(ks, w, x, d, size, batch), cols, 0, ks);
    SumSwap(f, 0, batch, 0, ks);
  }
  function BatchAt(ks: int, w: Row, x: (int, int) -> real, d: (int, int) -> real, size: int, b: int, p: int): real {
    w(p) * TapGrad(ks, RowOf(x, b), RowOf(d, b), size, p)
  }
  function Batched(ks: int, w: Row, x: (int, int) -> real, d: (int, int) -> real, size: int): (int, int) -> real {
    (b: int, p: int) => BatchAt(ks, w, x, d, size, b, p)
  }
  function BatchCol(ks: int, w: Row, x: (int, int) -> real, d: (int, int) -> real, size: int, p: int): Row {
    (b: int) => BatchAt(ks, w, x, d, size, b, p)
  }
  lemma BatchedCol(ks: int, w: Row, x: (int, int) -> real, d: (int, int) -> real, size: int, batch: int, p: int)
    ensures WeightPairs(ks, w, x, d, size, batch)(p) == Sum(BatchCol(ks, w, x, d, size, p), 0, batch)
  {
    var f, g := TapShares(ks, x, d, size, p), BatchCol(ks, w, x, d, size, p);
    forall b ensures Scales(f, g, w(p), b) { assert f(b) == TapGrad(ks, RowOf(x, b), RowOf(d, b), size, p); }
    SumScale(f, g, w(p), 0, batch);
  }

  // ----- atomic adds in any order

  /** The result of adding one value per event, in the order given. */
  function Fold<E>(order: seq<E>, f: E -> real): real {
    if order == [] then 0.0 else Fold(order[..|order| - 1], f) + f(order[|order| - 1])
  }
  lemma {:induction false} FoldConcat<E>(a: seq<E>, b: seq<E>, f: E -> real)
    ensures Fold(a + b, f) == Fold(a, f) + Fold(b, f)
    decreases |b|
  {
    if b == [] {
      assert a + b == a;
    } else {
      var n := |b| - 1;
      assert (a + b)[..|a + b| - 1] == a + b[..n];
      FoldConcat(a, b[..n], f);
    }
  }
  lemma FoldOne<E>(x: E, f: E -> real)
    ensures Fold([x], f) == f(x)
  {
    assert [x][..0] == [];
    assert Fold<E>([], f) == 0.0;
  }
  lemma RemoveCounts<E>(b: seq<E>, i: int)
    requires 0 <= i < |b|
    ensures multiset(b) == multiset(b[..i] + b[i + 1..]) + multiset{b[i]}
  {
    var l, r := b[..i], b[i + 1..];
    assert b == l + [b[i]] + r;
    assert multiset(l + [b[i]] + r) == multiset(l) + multiset([b[i]]) + multiset(r);
  }
  lemma FoldInsert<E>(l: seq<E>, x: E, r: seq<E>, f: E -> real)
    ensures Fold(l + ([x] + r), f) == Fold(l + r, f) + f(x)
  {
    FoldConcat(l, [x] + r, f);
    FoldConcat([x], r, f);
    FoldConcat(l, r, f);
    FoldOne(x, f);
  }
  lemma SplitAt<E>(b: seq<E>, i: int)
    requires 0 <= i < |b|
    ensures b[..i] + ([b[i]] + b[i + 1..]) == b
  {
  }
  lemma RemoveAt<E>(b: seq<E>, i: int, f: E -> real)
    requires 0 <= i < |b|
    ensures Fold(b, f) == Fold(b[..i] + b[i + 1..], f) + f(b[i])
  {
    var l, x, r := b[..i], b[i], b[i + 1..];
    SplitAt(b, i);
    FoldInsert(l, x, r, f);
  }
  /** Any two orders of the same events give the same sum. */
  lemma {:induction false} FoldPermuted<E>(a: seq<E>, b: seq<E>, f: E -> real)
    requires multiset(a) == multiset(b)
    ensures Fold(a, f) == Fold(b, f)
    decreases |a|
  {
    assert |a| == |multiset(a)| && |b| == |multiset(b)|;
    if a != [] {
      var n := |a| - 1;
      RemoveAt(a, n, f);
      RemoveCounts(a, n);
      assert a[..n] + a[n + 1..] == a[..n];
      assert a[n] in multiset(b);
      var i :| 0 <= i < |b| && b[i] == a[n];
      RemoveAt(b, i, f);
      RemoveCounts(b, i);
      assert multiset(a[..n]) == multiset(a) - multiset{a[n]} == multiset(b[..i] + b[i + 1..]);
      FoldPermuted(a[..n], b[..i] + b[i + 1..], f);
    }
  }

  /** The events of one tap: every token of every row, in loop order. */
  function RowEvents(b: int, size: nat): seq<(int, int)> {
    if size == 0 then [] else RowEvents(b, size - 1) + [(b, size - 1)]
  }
  function Events(batch: nat, size: nat): seq<(int, int)> {
    if batch == 0 then [] else Events(batch - 1, size) + RowEvents(batch - 1, size)
  }

  function Share(ks: int, x: (int, int) -> real, d: (int, int) -> real, p: int): ((int, int)) -> real {
    (e: (int, int)) => d(e.0, e.1) * Before(RowOf(x, e.0), e.1 - (ks - 1) + p)
  }
  lemma {:induction false} RowFold(ks: int, x: (int, int) -> real, d: (int, int) -> real, p: int, b: int, size: nat)
    ensures Fold(RowEvents(b, size), Share(ks, x, d, p)) == Sum(TapTerms(ks, RowOf(x, b), RowOf(d, b), p), 0, size)
  {
    if size > 0 {
      RowFold(ks, x, d, p, b, size - 1);
      assert RowEvents(b, size)[..|RowEvents(b, size)| - 1] == RowEvents(b, size - 1);
    }
  }
  ghost predicate RowIs(f: ((int, int)) -> real, g: Row, size: nat, b: int) { Fold(RowEvents(b, size), f) == g(b) }
  lemma FoldJoined<E>(l: seq<E>, r: seq<E>, both: seq<E>, f: E -> real, a: real, b: real)
    requires both == l + r && Fold(l, f) == a && Fold(r, f) == b
    ensures Fold(both, f) == a + b
  {
    FoldConcat(l, r, f);
  }
  lemma {:induction false} EventsFold(f: ((int, int)) -> real, g: Row, batch: nat, size: nat)
    requires forall b :: RowIs(f, g, size, b)
    ensures Fold(Events(batch, size), f) == Sum(g, 0, batch)
    decreases batch
  {
    if batch > 0 {
      EventsFold(f, g, batch - 1, size);
      assert RowIs(f, g, size, batch - 1);
      FoldJoined(Events(batch - 1, size), RowEvents(batch - 1, size), Events(batch, size), f, Sum(g, 0, batch - 1),
                 g(batch - 1));
    }
  }
  lemma AllFold(ks: int, x: (int, int) -> real, d: (int, int) -> real, p: int, batch: nat, size: nat)
    ensures Fold(Events(batch, size), Share(ks, x, d, p)) == Dconv(ks, x, d, size, batch, p)
  {
    var f, g := Share(ks, x, d, p), TapShares(ks, x, d, size, p);
    forall b ensures RowIs(f, g, size, b) { RowFold(ks, x, d, p, b, size); }
    EventsFold(f, g, batch, size);
  }
  /** Whatever order the blocks add their shares in, dconv_w is the same sum over rows and tokens. */
  lemma AnyOrder(ks: int, x: (int, int) -> real, d: (int, int) -> real, p: int, batch: nat, size: nat,
                 order: seq<(int, int)>)
    requires multiset(order) == multiset(Events(batch, size))
    ensures Fold(order, Share(ks, x, d, p)) == Dconv(ks, x, d, size, batch, p)
  {
    FoldPermuted(order, Events(batch, size), Share(ks, x, d, p));
    AllFold(ks, x, d, p, batch, size);
  }

  // ----- the kernels

  datatype Bwd = Bwd(n: int, d: real, ks: nat, size: nat, convW: (int, int) -> real, vhat: Tensor,
                     rrms: (int, int) -> real, rmsV: Row, dy: Tensor, sigmoid: real -> real)

  /** Channel j of the normalised inputs, of the taps, and of the gradient that pass 1 leaves for pass 2. */
  function Normed(c: Bwd, j: int): (int, int) -> real { (b: int, t: int) => c.vhat(b, t, j) * c.rrms(b, t) * c.rmsV(j) }
  function Taps(c: Bwd, j: int): Row { (p: int) => c.convW(p, j) }
  /** The derivative of x * sigmoid(x). */
  function SiluRate(sigmoid: real -> real, x: real): real { sigmoid(x) * (1.0 + x * (1.0 - sigmoid(x))) }
  function DSilu(c: Bwd, j: int): (int, int) -> real {
    (b: int, t: int) => c.dy(b, t, j) * SiluRate(c.sigmoid, Conv(c.ks, Taps(c, j), RowOf(Normed(c, j), b), t))
  }

  function Zeros(): Row { (j: int) => 0.0 }
  function RawAt(c: Bwd, b: int, t: int): Row { (j: int) => if t >= 0 then c.vhat(b, t, j) else 0.0 }
  function RrmsAt(c: Bwd, b: int, t: int): real { if t >= 0 then c.rrms(b, t) else 0.0 }
  function AddTap(c: Bwd, conv: Row, p: int, raw: Row, rrms: real): Row {
    (j: int) => conv(j) + c.convW(p, j) * raw(j) * rrms * c.rmsV(j)
  }
  function AddRow(g: (int, int) -> real, p: int, row: Row): (int, int) -> real {
    (q: int, j: int) => if q == p then g(q, j) + row(j) else g(q, j)
  }
  function TapRow(c: Bwd, dsilu: Row, raw: Row, rrms: real): Row { (j: int) => dsilu(j) * raw(j) * rrms * c.rmsV(j) }
  function Sigmoids(c: Bwd, conv: Row): Row { (j: int) => c.sigmoid(conv(j)) }
  function SiluGradRow(dy: Row, conv: Row, sig: Row): Row {
    (j: int) => dy(j) * (sig(j) + conv(j) * sig(j) * (1.0 - sig(j)))
  }
  lemma SiluGradIs(dy: real, x: real, s: real)
    ensures dy * (s + x * s * (1.0 - s)) == dy * (s * (1.0 + x * (1.0 - s)))
  {
    assert x * s * (1.0 - s) == s * (x * (1.0 - s));
    assert s * (1.0 + x * (1.0 - s)) == s + s * (x * (1.0 - s));
  }

  lemma TapIs(c: Bwd, b: int, t: int, j: int, a: real)
    ensures a * RawAt(c, b, t)(j) * RrmsAt(c, b, t) * c.rmsV(j) == a * Before(RowOf(Normed(c, j), b), t)
  {
    if t >= 0 {
      Associate(a, c.vhat(b, t, j), c.rrms(b, t), c.rmsV(j));
    } else {
      Vanish(a, c.rmsV(j));
    }
  }
  lemma Associate(a: real, x: real, y: real, z: real)
    ensures a * x * y * z == a * (x * y * z)
  {
  }
  lemma Vanish(a: real, z: real)
    ensures a * 0.0 * 0.0 * z == 0.0 && a * 0.0 == 0.0
  {
  }
  ghost predicate ConvSoFar(c: Bwd, b: int, t: int, p: int, conv: Row) {
    forall j :: conv(j) == Sum(ConvTerms(c.ks, Taps(c, j), RowOf(Normed(c, j), b), t), 0, p)
  }
  lemma AddTapIs(c: Bwd, b: int, t: int, p: int, conv: Row)
    requires p >= 0 && ConvSoFar(c, b, t, p, conv)
    ensures ConvSoFar(c, b, t, p + 1,
                      AddTap(c, conv, p, RawAt(c, b, t - (c.ks - 1) + p), RrmsAt(c, b, t - (c.ks - 1) + p)))
  {
    var src := t - (c.ks - 1) + p;
    forall j
      ensures AddTap(c, conv, p, RawAt(c, b, src), RrmsAt(c, b, src))(j) ==
        Sum(ConvTerms(c.ks, Taps(c, j), RowOf(Normed(c, j), b), t), 0, p + 1)
    {
      TapIs(c, b, src, j, c.convW(p, j));
    }
  }

  /** Pass 1 at one token, first loop: the convolution again, and the activation gradient. */
  method TokenGrad(c: Bwd, b: int, t: int) returns (dsilu: Row)
    ensures forall j :: dsilu(j) == DSilu(c, j)(b, t)
  {
    var conv := Zeros();
    var p := 0;
    while p < c.ks
      invariant 0 <= p <= c.ks && ConvSoFar(c, b, t, p, conv)
    {
      var src := t - (c.ks - 1) + p;
      AddTapIs(c, b, t, p, conv);
      conv := AddTap(c, conv, p, RawAt(c, b, src), RrmsAt(c, b, src));
      p := p + 1;
    }
    var sig := Sigmoids(c, conv);
    dsilu := SiluGradRow((j: int) => c.dy(b, t, j), conv, sig);
    forall j ensures dsilu(j) == DSilu(c, j)(b, t) { SiluGradIs(c.dy(b, t, j), conv(j), sig(j)); }
  }
  function ShareAt(c: Bwd, b: int, t: int, p: int, j: int): real { Share(c.ks, Normed(c, j), DSilu(c, j), p)((b, t)) }
  /** The first p taps have received this token's share. */
  ghost predicate Added(c: Bwd, b: int, t: int, p: int, dconv: (int, int) -> real, dconv2: (int, int) -> real) {
    && (forall q, j :: 0 <= q < p ==> dconv2(q, j) == dconv(q, j) + ShareAt(c, b, t, q, j))
    && (forall q, j :: p <= q < c.ks ==> dconv2(q, j) == dconv(q, j))
  }
  lemma AddOne(c: Bwd, b: int, t: int, p: int, dconv: (int, int) -> real, dconv2: (int, int) -> real, tmp: Row)
    requires 0 <= p < c.ks && Added(c, b, t, p, dconv, dconv2) && forall j :: tmp(j) == ShareAt(c, b, t, p, j)
    ensures Added(c, b, t, p + 1, dconv, AddRow(dconv2, p, tmp))
  {
  }
  lemma ShareIs(c: Bwd, b: int, t: int, p: int, dsilu: Row)
    requires forall j :: dsilu(j) == DSilu(c, j)(b, t)
    ensures var src := t - (c.ks - 1) + p;
      forall j :: TapRow(c, dsilu, RawAt(c, b, src), RrmsAt(c, b, src))(j) == ShareAt(c, b, t, p, j)
  {
    var src := t - (c.ks - 1) + p;
    forall j ensures TapRow(c, dsilu, RawAt(c, b, src), RrmsAt(c, b, src))(j) == ShareAt(c, b, t, p, j) {
      TapIs(c, b, src, j, dsilu(j));
    }
  }
  /** Pass 1 at one token: one atomic add to every tap. */
  method Pass1Token(c: Bwd, b: int, t: int, dconv: (int, int) -> real) returns (dsilu: Row, dconv2: (int, int) -> real)
    ensures forall j :: dsilu(j) == DSilu(c, j)(b, t)
    ensures Added(c, b, t, c.ks, dconv, dconv2)
  {
    dsilu := TokenGrad(c, b, t);
    dconv2 := dconv;
    var p := 0;
    while p < c.ks
      invariant 0 <= p <= c.ks && Added(c, b, t, p, dconv, dconv2)
    {
      var src := t - (c.ks - 1) + p;
      var tmp := TapRow(c, dsilu, RawAt(c, b, src), RrmsAt(c, b, src));
      ShareIs(c, b, t, p, dsilu);
      AddOne(c, b, t, p, dconv, dconv2, tmp);
      dconv2 := AddRow(dconv2, p, tmp);
      p := p + 1;
    }
  }

  /** Pass 1 with the tokens taken in any order that visits each token of each row once. */
  method Pass1(c: Bwd, batch: nat, order: seq<(int, int)>) returns (dconv: (int, int) -> real)
    requires multiset(order) == multiset(Events(batch, c.size))
    ensures forall p, j :: 0 <= p < c.ks ==> dconv(p, j) == Dconv(c.ks, Normed(c, j), DSilu(c, j), c.size, batch, p)
  {
    dconv := (p: int, j: int) => 0.0;
    var i := 0;
    while i < |order|
      invariant 0 <= i <= |order|
      invariant forall p, j :: 0 <= p < c.ks ==>
        dconv(p, j) == Fold(order[..i], Share(c.ks, Normed(c, j), DSilu(c, j), p))
    {
      var dsilu, dconv2 := Pass1Token(c, order[i].0, order[i].1, dconv);
      assert order[..i + 1][..i] == order[..i];
      dconv := dconv2;
      i := i + 1;
    }
    assert order[..i] == order;
    forall p, j | 0 <= p < c.ks ensures dconv(p, j) == Dconv(c.ks, Normed(c, j), DSilu(c, j), c.size, batch, p) {
      AnyOrder(c.ks, Normed(c, j), DSilu(c, j), p, batch, c.size, order);
    }
  }

  // ----- the grid of programs

  ghost predicate NoDup<E>(s: seq<E>) { forall i, j :: 0 <= i < j < |s| ==> s[i] != s[j] }
  lemma {:induction false} NoDupCount<E>(s: seq<E>, x: E)
    requires NoDup(s)
    ensures multiset(s)[x] == (if x in s then 1 else 0)
    decreases |s|
  {
    if s != [] {
      var n := |s| - 1;
      assert s == s[..n] + [s[n]];
      NoDupCount(s[..n], x);
    }
  }
  lemma SameEvents<E>(a: seq<E>, b: seq<E>)
    requires NoDup(a) && NoDup(b) && forall x :: x in a <==> x in b
    ensures multiset(a) == multiset(b)
  {
    forall x ensures multiset(a)[x] == multiset(b)[x] {
      NoDupCount(a, x);
      NoDupCount(b, x);
    }
  }
  lemma NoDupConcat<E>(a: seq<E>, b: seq<E>)
    requires NoDup(a) && NoDup(b) && forall x :: x in a ==> x !in b
    ensures NoDup(a + b)
  {
    forall i, j | 0 <= i < j < |a + b| ensures (a + b)[i] != (a + b)[j] {
      if i < |a| <= j { assert a[i] in a && b[j - |a|] in b; }
    }
  }
  lemma InBoth<E>(a: seq<E>, b: seq<E>, x: E)
    ensures x in a + b <==> x in a || x in b
  {
  }
  lemma {:induction false} RowMember(b: int, size: nat, e: (int, int))
    ensures e in RowEvents(b, size) <==> e.0 == b && 0 <= e.1 < size
  {
    if size > 0 {
      RowMember(b, size - 1, e);
      InBoth(RowEvents(b, size - 1), [(b, size - 1)], e);
    }
  }
  lemma {:induction false} RowDistinct(b: int, size: nat)
    ensures NoDup(RowEvents(b, size))
  {
    if size > 0 {
      RowDistinct(b, size - 1);
      RowMember(b, size - 1, (b, size - 1));
      NoDupConcat(RowEvents(b, size - 1), [(b, size - 1)]);
    }
  }
  /** Events E and row events W as families over the rows. */
  type Family = int -> seq<(int, int)>
  ghost predicate JoinedAt(E: Family, W: Family, k: int) { E(k + 1) == E(k) + W(k) }
  predicate MemberAt(W: Family, size: nat, k: int, e: (int, int)) { e in W(k) <==> e.0 == k && 0 <= e.1 < size }
  ghost predicate DistinctAt(W: Family, k: int) { NoDup(W(k)) }
  lemma {:induction false} FamilyMember(E: Family, W: Family, size: nat, n: nat, e: (int, int))
    requires E(0) == [] && (forall k: nat :: JoinedAt(E, W, k)) && forall k: nat :: MemberAt(W, size, k, e)
    ensures e in E(n) <==> 0 <= e.0 < n && 0 <= e.1 < size
  {
    if n > 0 {
      FamilyMember(E, W, size, n - 1, e);
      assert JoinedAt(E, W, n - 1) && MemberAt(W, size, n - 1, e);
      InBoth(E(n - 1), W(n - 1), e);
    }
  }
  lemma {:induction false} FamilyDistinct(E: Family, W: Family, size: nat, n: nat)
    requires E(0) == [] && (forall k: nat :: JoinedAt(E, W, k)) && (forall k: nat :: DistinctAt(W, k))
    requires forall k: nat, e :: MemberAt(W, size, k, e)
    ensures NoDup(E(n))
  {
    if n > 0 {
      FamilyDistinct(E, W, size, n - 1);
      assert JoinedAt(E, W, n - 1) && DistinctAt(W, n - 1);
      var l, r := E(n - 1), W(n - 1);
      forall e | e in l
        ensures e !in r
      {
        FamilyMember(E, W, size, n - 1, e);
        assert MemberAt(W, size, n - 1, e);
      }
      NoDupConcat(l, r);
    }
  }
  function EventsUpto(size: nat): Family { (k: int) => if k >= 0 then Events(k, size) else [] }
  function RowsOf(size: nat): Family { (k: int) => RowEvents(k, size) }
  lemma FamilyIs(size: nat)
    ensures EventsUpto(size)(0) == []
    ensures forall k: nat :: JoinedAt(EventsUpto(size), RowsOf(size), k) && DistinctAt(RowsOf(size), k)
    ensures forall k: nat, e :: MemberAt(RowsOf(size), size, k, e)
  {
    forall k: nat ensures DistinctAt(RowsOf(size), k) { RowDistinct(k, size); }
    forall k: nat, e ensures MemberAt(RowsOf(size), size, k, e) { RowMember(k, size, e); }
  }
  lemma EventsAre(batch: nat, size: nat)
    ensures NoDup(Events(batch, size)) && forall e :: e in Events(batch, size) <==> 0 <= e.0 < batch && 0 <= e.1 < size
  {
    var E, W := EventsUpto(size), RowsOf(size);
    FamilyIs(size);
    FamilyDistinct(E, W, size, batch);
    forall e ensures e in E(batch) <==> 0 <= e.0 < batch && 0 <= e.1 < size { FamilyMember(E, W, size, batch, e); }
    assert E(batch) == Events(batch, size);
  }

  /** Row and first token of program cid. */
  function RowId(batch: nat, cid: int): int { if batch > 0 then cid % batch else 0 }
  function Base(batch: nat, blockN: int, cid: int): int { if batch > 0 then cid / batch * blockN else 0 }
  function Programs(batch: nat, size: nat, blockN: int): int
    requires blockN >= 1
  {
    (size + blockN - 1) / blockN * batch
  }
  /** Tokens base .. base + k - 1 of row b, those past the end left out. */
  function Stretch(b: int, base: int, size: nat, k: nat): seq<(int, int)> {
    if k == 0 then [] else Stretch(b, base, size, k - 1) + (if base + k - 1 < size then [(b, base + k - 1)] else [])
  }
  lemma {:induction false} StretchIs(b: int, base: int, size: nat, k: nat)
    ensures NoDup(Stretch(b, base, size, k))
    ensures forall e :: e in Stretch(b, base, size, k) <==> e.0 == b && base <= e.1 < base + k && e.1 < size
  {
    if k > 0 {
      StretchIs(b, base, size, k - 1);
      NoDupConcat(Stretch(b, base, size, k - 1), if base + k - 1 < size then [(b, base + k - 1)] else []);
    }
  }
  /** The tokens program cid works on. */
  function TileEvents(batch: nat, size: nat, blockN: nat, cid: int): seq<(int, int)> {
    Stretch(RowId(batch, cid), Base(batch, blockN, cid), size, blockN)
  }
  function GridEvents(batch: nat, size: nat, blockN: nat, cids: seq<int>): seq<(int, int)> {
    if cids == [] then []
    else GridEvents(batch, size, blockN, cids[..|cids| - 1]) + TileEvents(batch, size, blockN, cids[|cids| - 1])
  }
  predicate InTile(batch: nat, size: nat, blockN: int, cid: int, e: (int, int)) {
    e.0 == RowId(batch, cid) && Base(batch, blockN, cid) <= e.1 < Base(batch, blockN, cid) + blockN && e.1 < size
  }
  lemma TileEventsAre(batch: nat, size: nat, blockN: nat, cid: int)
    ensures NoDup(TileEvents(batch, size, blockN, cid))
    ensures forall e :: e in TileEvents(batch, size, blockN, cid) <==> InTile(batch, size, blockN, cid, e)
  {
    StretchIs(RowId(batch, cid), Base(batch, blockN, cid), size, blockN);
  }
  /** A token belongs to one program only. */
  lemma OneProgram(batch: nat, size: nat, blockN: int, cid: int, e: (int, int))
    requires batch >= 1 && blockN >= 1 && InTile(batch, size, blockN, cid, e)
    ensures cid == e.1 / blockN * batch + e.0
  {
    DivModUnique(e.1, blockN, cid / batch, e.1 - Base(batch, blockN, cid));
    DivModLaw(cid, batch);
  }
  lemma ItsProgram(batch: nat, size: nat, blockN: int, e: (int, int))
    requires blockN >= 1 && 0 <= e.0 < batch && 0 <= e.1 < size
    ensures var cid := e.1 / blockN * batch + e.0;
      0 <= cid < Programs(batch, size, blockN) && InTile(batch, size, blockN, cid, e)
  {
    var q := e.1 / blockN;
    DivModUnique(q * batch + e.0, batch, q, e.0);
    DivModLaw(e.1, blockN);
    DivBelow(e.1, blockN, 0);
    DivBelow(size + blockN - 1, blockN, q + 1);
    assert (q + 1) * blockN == q * blockN + blockN;
    MulMono(0, q, batch);
    MulMono(q + 1, (size + blockN - 1) / blockN, batch);
  }
  ghost predicate InSome(batch: nat, size: nat, blockN: nat, cids: seq<int>, e: (int, int)) {
    exists i :: 0 <= i < |cids| && InTile(batch, size, blockN, cids[i], e)
  }
  lemma InSomeSnoc(batch: nat, size: nat, blockN: nat, cids: seq<int>, e: (int, int))
    requires cids != []
    ensures var n := |cids| - 1;
            InSome(batch, size, blockN, cids, e) <==>
              InSome(batch, size, blockN, cids[..n], e) || InTile(batch, size, blockN, cids[n], e)
  {
    var n := |cids| - 1;
    var b := cids[..n];
    if i :| 0 <= i < |b| && InTile(batch, size, blockN, b[i], e) { assert b[i] == cids[i]; }
    if i :| 0 <= i < |cids| && InTile(batch, size, blockN, cids[i], e) {
      if i < n { assert b[i] == cids[i]; }
    }
  }
  lemma {:induction false} GridEventsAre(batch: nat, size: nat, blockN: nat, cids: seq<int>)
    requires batch >= 1 && blockN >= 1 && NoDup(cids)
    ensures NoDup(GridEvents(batch, size, blockN, cids))
    ensures forall e :: e in GridEvents(batch, size, blockN, cids) <==> InSome(batch, size, blockN, cids, e)
    decreases |cids|
  {
    if cids != [] {
      var n := |cids| - 1;
      var b, tile := cids[..n], TileEvents(batch, size, blockN, cids[n]);
      GridEventsAre(batch, size, blockN, b);
      TileEventsAre(batch, size, blockN, cids[n]);
      forall e | e in GridEvents(batch, size, blockN, b) ensures e !in tile {
        var i :| 0 <= i < |b| && InTile(batch, size, blockN, b[i], e);
        assert b[i] == cids[i] && cids[i] != cids[n];
        OneProgram(batch, size, blockN, b[i], e);
        if e in tile { OneProgram(batch, size, blockN, cids[n], e); }
      }
      NoDupConcat(GridEvents(batch, size, blockN, b), tile);
      forall e ensures e in GridEvents(batch, size, blockN, cids) <==> InSome(batch, size, blockN, cids, e) {
        InSomeSnoc(batch, size, blockN, cids, e);
      }
    }
  }
  /** The programs are 0 .. ceildiv(seq_len, block_N) * M - 1, in any order. */
  ghost predicate AllPrograms(batch: nat, size: nat, blockN: nat, cids: seq<int>)
    requires blockN >= 1
  {
    && NoDup(cids) && |cids| == Programs(batch, size, blockN)
    && forall cid :: cid in cids <==> 0 <= cid < Programs(batch, size, blockN)
  }
  /** The grid visits every token of every row exactly once, whatever the order of the programs. */
  lemma GridVisitsOnce(batch: nat, size: nat, blockN: nat, cids: seq<int>)
    requires blockN >= 1 && AllPrograms(batch, size, blockN, cids)
    ensures multiset(GridEvents(batch, size, blockN, cids)) == multiset(Events(batch, size))
  {
    EventsAre(batch, size);
    if batch == 0 {
      assert Programs(batch, size, blockN) == 0 && cids == [];
    } else {
      GridEventsAre(batch, size, blockN, cids);
      GridCovers(batch, size, blockN, cids);
      SameEvents(GridEvents(batch, size, blockN, cids), Events(batch, size));
    }
  }
  lemma GridCovers(batch: nat, size: nat, blockN: nat, cids: seq<int>)
    requires batch >= 1 && blockN >= 1 && AllPrograms(batch, size, blockN, cids)
    ensures forall e :: InSome(batch, size, blockN, cids, e) <==> 0 <= e.0 < batch && 0 <= e.1 < size
  {
    forall e ensures InSome(batch, size, blockN, cids, e) <==> 0 <= e.0 < batch && 0 <= e.1 < size {
      if InSome(batch, size, blockN, cids, e) { VisitedInRange(batch, size, blockN, cids, e); }
      if 0 <= e.0 < batch && 0 <= e.1 < size { InRangeVisited(batch, size, blockN, cids, e); }
    }
  }
  lemma VisitedInRange(batch: nat, size: nat, blockN: nat, cids: seq<int>, e: (int, int))
    requires batch >= 1 && blockN >= 1 && AllPrograms(batch, size, blockN, cids) && InSome(batch, size, blockN, cids, e)
    ensures 0 <= e.0 < batch && 0 <= e.1 < size
  {
    var i :| 0 <= i < |cids| && InTile(batch, size, blockN, cids[i], e);
    assert cids[i] in cids;
    DivModLaw(cids[i], batch);
    DivBelow(cids[i], batch, 0);
    MulMono(0, cids[i] / batch, blockN);
  }
  lemma InRangeVisited(batch: nat, size: nat, blockN: nat, cids: seq<int>, e: (int, int))
    requires batch >= 1 && blockN >= 1 && AllPrograms(batch, size, blockN, cids) && 0 <= e.0 < batch && 0 <= e.1 < size
    ensures InSome(batch, size, blockN, cids, e)
  {
    ItsProgram(batch, size, blockN, e);
    var cid := e.1 / blockN * batch + e.0;
    assert cid in cids;
    var i :| 0 <= i < |cids| && cids[i] == cid;
  }

  /** One row of a buffer is written. */
  function Put(buf: Tensor, b: int, t: int, row: Row): Tensor {
    (b2: int, t2: int, j: int) => if b2 == b && t2 == t then row(j) else buf(b2, t2, j)
  }
  /** The rows of the given events hold D, the others what they held at the start. */
  ghost predicate Filled(D: Tensor, order: seq<(int, int)>, start: Tensor, buf: Tensor) {
    forall b, t, j :: buf(b, t, j) == if (b, t) in order then D(b, t, j) else start(b, t, j)
  }
  lemma FilledMore(D: Tensor, order: seq<(int, int)>, start: Tensor, buf: Tensor, b: int, t: int, row: Row)
    requires Filled(D, order, start, buf) && forall j :: row(j) == D(b, t, j)
    ensures Filled(D, order + [(b, t)], start, Put(buf, b, t, row))
  {
  }
  /** After every token of every row. */
  ghost predicate AllFilled(D: Tensor, batch: int, size: int, start: Tensor, buf: Tensor) {
    forall b, t, j :: buf(b, t, j) == if 0 <= b < batch && 0 <= t < size then D(b, t, j) else start(b, t, j)
  }
  lemma FilledAll(D: Tensor, batch: nat, size: nat, blockN: nat, cids: seq<int>, start: Tensor, buf: Tensor)
    requires blockN >= 1 && AllPrograms(batch, size, blockN, cids)
    requires Filled(D, GridEvents(batch, size, blockN, cids), start, buf)
    ensures AllFilled(D, batch, size, start, buf)
  {
    var order := GridEvents(batch, size, blockN, cids);
    GridVisitsOnce(batch, size, blockN, cids);
    EventsAre(batch, size);
    forall b, t ensures (b, t) in order <==> 0 <= b < batch && 0 <= t < size {
      assert (b, t) in order <==> (b, t) in multiset(order);
      assert (b, t) in Events(batch, size) <==> (b, t) in multiset(Events(batch, size));
    }
  }

  /** Every tap holds the sum of the shares of the given events. */
  ghost predicate Tallied(c: Bwd, order: seq<(int, int)>, dconv: (int, int) -> real) {
    forall p, j :: 0 <= p < c.ks ==> dconv(p, j) == Fold(order, Share(c.ks, Normed(c, j), DSilu(c, j), p))
  }
  lemma TalliedMore(c: Bwd, order: seq<(int, int)>, b: int, t: int, dconv: (int, int) -> real,
                    dconv2: (int, int) -> real)
    requires Tallied(c, order, dconv) && Added(c, b, t, c.ks, dconv, dconv2)
    ensures Tallied(c, order + [(b, t)], dconv2)
  {
    forall p, j | 0 <= p < c.ks
      ensures dconv2(p, j) == Fold(order + [(b, t)], Share(c.ks, Normed(c, j), DSilu(c, j), p))
    {
      var f := Share(c.ks, Normed(c, j), DSilu(c, j), p);
      FoldConcat(order, [(b, t)], f);
      FoldOne((b, t), f);
      assert dconv2(p, j) == dconv(p, j) + ShareAt(c, b, t, p, j);
    }
  }
  /** All of d_silu. */
  function DSilus(c: Bwd): Tensor { (b: int, t: int, j: int) => DSilu(c, j)(b, t) }
  ghost predicate Wrote(c: Bwd, b: int, t: int, buf: Tensor, buf2: Tensor) {
    exists row: Row :: buf2 == Put(buf, b, t, row) && forall j :: row(j) == DSilus(c)(b, t, j)
  }
  /** A relation between the events so far, dconv_w and the d_silu buffer that every token keeps. */
  type Tally = (seq<(int, int)>, (int, int) -> real, Tensor) -> bool
  ghost predicate Follows(c: Bwd, T: Tally) {
    forall order, b, t, d, d2, buf, buf2 ::
      T(order, d, buf) && Added(c, b, t, c.ks, d, d2) && Wrote(c, b, t, buf, buf2) ==> T(order + [(b, t)], d2, buf2)
  }
  ghost function TallyOf(c: Bwd, start: Tensor): Tally {
    (order: seq<(int, int)>, d: (int, int) -> real, buf: Tensor) =>
      Tallied(c, order, d) && Filled(DSilus(c), order, start, buf)
  }
  lemma TallyFollows(c: Bwd, start: Tensor)
    ensures Follows(c, TallyOf(c, start))
  {
    var T := TallyOf(c, start);
    forall order, b, t, d, d2, buf, buf2 | T(order, d, buf) && Added(c, b, t, c.ks, d, d2) && Wrote(c, b, t, buf, buf2)
      ensures T(order + [(b, t)], d2, buf2)
    {
      TalliedMore(c, order, b, t, d, d2);
      var row: Row :| buf2 == Put(buf, b, t, row) && forall j :: row(j) == DSilus(c)(b, t, j);
      FilledMore(DSilus(c), order, start, buf, b, t, row);
    }
  }
  method Token(c: Bwd, b: int, t: int, before: (int, int) -> real, held: Tensor, ghost T: Tally,
               ghost order: seq<(int, int)>)
    returns (dconv: (int, int) -> real, buf: Tensor)
    requires Follows(c, T) && T(order, before, held)
    ensures T(order + [(b, t)], dconv, buf)
  {
    var dsilu;
    dsilu, dconv := Pass1Token(c, b, t, before);
    buf := Put(held, b, t, dsilu);
    assert forall j :: dsilu(j) == DSilus(c)(b, t, j);
    assert Wrote(c, b, t, held, buf);
  }
  /** One program: its block of tokens, those past the end skipped. */
  method Program(c: Bwd, bid: int, base: int, blockN: nat, before: (int, int) -> real, held: Tensor, ghost T: Tally,
                 ghost order: seq<(int, int)>)
    returns (dconv: (int, int) -> real, buf: Tensor)
    requires Follows(c, T) && T(order, before, held)
    ensures T(order + Stretch(bid, base, c.size, blockN), dconv, buf)
  {
    dconv, buf := before, held;
    assert order + [] == order;
    var ti: nat := 0;
    while ti < blockN
      invariant ti <= blockN && T(order + Stretch(bid, base, c.size, ti), dconv, buf)
    {
      var tid := base + ti;
      StretchStep(bid, base, c.size, ti, order);
      if tid < c.size { dconv, buf := Token(c, bid, tid, dconv, buf, T, order + Stretch(bid, base, c.size, ti)); }
      ti := ti + 1;
    }
  }
  lemma StretchStep(b: int, base: int, size: nat, k: nat, order: seq<(int, int)>)
    ensures base + k < size ==>
      order + Stretch(b, base, size, k + 1) == order + Stretch(b, base, size, k) + [(b, base + k)]
    ensures base + k >= size ==> order + Stretch(b, base, size, k + 1) == order + Stretch(b, base, size, k)
  {
  }
  method Grid(c: Bwd, batch: nat, blockN: nat, cids: seq<int>, before: (int, int) -> real, held: Tensor, ghost T: Tally)
    returns (dconv: (int, int) -> real, buf: Tensor)
    requires Follows(c, T) && T([], before, held)
    ensures T(GridEvents(batch, c.size, blockN, cids), dconv, buf)
  {
    dconv, buf := before, held;
    var i := 0;
    while i < |cids|
      invariant 0 <= i <= |cids| && T(GridEvents(batch, c.size, blockN, cids[..i]), dconv, buf)
    {
      assert cids[..i + 1][..i] == cids[..i];
      ghost var done := GridEvents(batch, c.size, blockN, cids[..i]);
      dconv, buf := Program(c, RowId(batch, cids[i]), Base(batch, blockN, cids[i]), blockN, dconv, buf, T, done);
      i := i + 1;
    }
    assert cids[..i] == cids;
  }
  /** Pass 1 as launched: the programs of the grid in any order. */
  method Pass1Launch(c: Bwd, batch: nat, blockN: nat, cids: seq<int>, held: Tensor)
    returns (dconv: (int, int) -> real, buf: Tensor)
    requires blockN >= 1 && AllPrograms(batch, c.size, blockN, cids)
    ensures forall p, j :: 0 <= p < c.ks ==> dconv(p, j) == Dconv(c.ks, Normed(c, j), DSilu(c, j), c.size, batch, p)
    ensures AllFilled(DSilus(c), batch, c.size, held, buf)
  {
    dconv := (p: int, j: int) => 0.0;
    TallyFollows(c, held);
    ghost var T := TallyOf(c, held);
    assert Tallied(c, [], dconv) && Filled(DSilus(c), [], held, held);
    dconv, buf := Grid(c, batch, blockN, cids, dconv, held, T);
    assert Tallied(c, GridEvents(batch, c.size, blockN, cids), dconv);
    FilledAll(DSilus(c), batch, c.size, blockN, cids, held, buf);
    GridVisitsOnce(batch, c.size, blockN, cids);
    forall p, j | 0 <= p < c.ks ensures dconv(p, j) == Dconv(c.ks, Normed(c, j), DSilu(c, j), c.size, batch, p) {
      AnyOrder(c.ks, Normed(c, j), DSilu(c, j), p, batch, c.size, GridEvents(batch, c.size, blockN, cids));
    }
  }

  function GradAt(c: Bwd, din: (int, int, int) -> real, b: int, t: int): Row {
    (j: int) => if 0 <= t < c.size then din(b, t, j) else 0.0
  }
  function Channel(din: (int, int, int) -> real, b: int, j: int): Row { (t: int) => din(b, t, j) }
  function AddBack(c: Bwd, acc: Row, p: int, d: Row): Row { (j: int) => acc(j) + c.convW(p, j) * d(j) }
  /** Pass 2 at one token: taps past either end read zeros. */
  method Pass2Token(c: Bwd, din: (int, int, int) -> real, b: int, t: int) returns (dvnorm: Row)
    ensures forall j :: dvnorm(j) == BackConv(c.ks, Taps(c, j), Channel(din, b, j), c.size, t)
  {
    dvnorm := Zeros();
    var p := 0;
    while p < c.ks
      invariant 0 <= p <= c.ks
      invariant forall j :: dvnorm(j) == Sum(BackTerms(c.ks, Taps(c, j), Channel(din, b, j), c.size, t), 0, p)
    {
      var dst := t + (c.ks - 1) - p;
      var dsi := Zeros();
      if dst >= 0 && dst < c.size { dsi := GradAt(c, din, b, dst); }
      assert forall j :: dsi(j) == Within(Channel(din, b, j), c.size, dst);
      dvnorm := AddBack(c, dvnorm, p, dsi);
      p := p + 1;
    }
  }

  // ----- the two passes together

  function PairTerms(a: (int, int) -> real, x: (int, int) -> real, b: int): Row { (t: int) => a(b, t) * x(b, t) }
  function PairSums(a: (int, int) -> real, x: (int, int) -> real, size: int): Row {
    (b: int) => Sum(PairTerms(a, x, b), 0, size)
  }
  function ConvOut(c: Bwd, j: int): (int, int) -> real {
    (b: int, t: int) => Conv(c.ks, Taps(c, j), RowOf(Normed(c, j), b), t)
  }
  function TapPairs(c: Bwd, j: int, dconv: Row): Row { (p: int) => c.convW(p, j) * dconv(p) }

  lemma TapsPaired(c: Bwd, batch: nat, j: int, dconv: Row)
    requires forall p :: 0 <= p < c.ks ==> dconv(p) == Dconv(c.ks, Normed(c, j), DSilu(c, j), c.size, batch, p)
    ensures Sum(TapPairs(c, j, dconv), 0, c.ks) ==
      Sum(WeightPairs(c.ks, Taps(c, j), Normed(c, j), DSilu(c, j), c.size, batch), 0, c.ks)
  {
    var f := TapPairs(c, j, dconv);
    SumCongruent(f, WeightPairs(c.ks, Taps(c, j), Normed(c, j), DSilu(c, j), c.size, batch), 0, c.ks);
  }
  lemma OutPaired(c: Bwd, batch: nat, j: int)
    ensures Sum(PairSums(DSilu(c, j), ConvOut(c, j), c.size), 0, batch) ==
      Sum(OutSums(c.ks, Taps(c, j), Normed(c, j), DSilu(c, j), c.size), 0, batch)
  {
    var f := PairSums(DSilu(c, j), ConvOut(c, j), c.size);
    var g := OutSums(c.ks, Taps(c, j), Normed(c, j), DSilu(c, j), c.size);
    forall b | 0 <= b < batch ensures f(b) == g(b) { OutRow(c, j, b); }
    SumCongruent(f, g, 0, batch);
  }
  lemma InPaired(c: Bwd, batch: nat, j: int, dvnorm: (int, int) -> real)
    requires forall b, t :: 0 <= b < batch && 0 <= t < c.size ==>
      dvnorm(b, t) == BackConv(c.ks, Taps(c, j), RowOf(DSilu(c, j), b), c.size, t)
    ensures Sum(PairSums(dvnorm, Normed(c, j), c.size), 0, batch) ==
      Sum(InSums(c.ks, Taps(c, j), Normed(c, j), DSilu(c, j), c.size), 0, batch)
  {
    var f := PairSums(dvnorm, Normed(c, j), c.size);
    var g := InSums(c.ks, Taps(c, j), Normed(c, j), DSilu(c, j), c.size);
    forall b | 0 <= b < batch ensures f(b) == g(b) { InRow(c, j, b, dvnorm); }
    SumCongruent(f, g, 0, batch);
  }
  /** What pass 1 leaves in dconv_w and what pass 2 computes as d_vnorm satisfy, in every channel,
      sum d_silu * conv_out = sum conv_w * dconv_w = sum d_vnorm * normed. */
  lemma PassesAgree(c: Bwd, batch: nat, j: int, dconv: Row, dvnorm: (int, int) -> real)
    requires forall p :: 0 <= p < c.ks ==> dconv(p) == Dconv(c.ks, Normed(c, j), DSilu(c, j), c.size, batch, p)
    requires forall b, t :: 0 <= b < batch && 0 <= t < c.size ==>
      dvnorm(b, t) == BackConv(c.ks, Taps(c, j), RowOf(DSilu(c, j), b), c.size, t)
    ensures Sum(PairSums(DSilu(c, j), ConvOut(c, j), c.size), 0, batch) == Sum(TapPairs(c, j, dconv), 0, c.ks)
    ensures Sum(PairSums(dvnorm, Normed(c, j), c.size), 0, batch) == Sum(TapPairs(c, j, dconv), 0, c.ks)
  {
    GradientsAgree(c.ks, Taps(c, j), Normed(c, j), DSilu(c, j), c.size, batch);
    TapsPaired(c, batch, j, dconv);
    OutPaired(c, batch, j);
    InPaired(c, batch, j, dvnorm);
  }
  lemma OutRow(c: Bwd, j: int, b: int)
    ensures PairSums(DSilu(c, j), ConvOut(c, j), c.size)(b) ==
      OutSums(c.ks, Taps(c, j), Normed(c, j), DSilu(c, j), c.size)(b)
  {
    var f := PairTerms(DSilu(c, j), ConvOut(c, j), b);
    var g := OutTerms(c.ks, Taps(c, j), RowOf(Normed(c, j), b), RowOf(DSilu(c, j), b));
    forall t ensures f(t) == g(t) { assert ConvOut(c, j)(b, t) == Conv(c.ks, Taps(c, j), RowOf(Normed(c, j), b), t); }
    SumCongruent(f, g, 0, c.size);
  }
  lemma InRow(c: Bwd, j: int, b: int, dvnorm: (int, int) -> real)
    requires forall t :: 0 <= t < c.size ==>
      dvnorm(b, t) == BackConv(c.ks, Taps(c, j), RowOf(DSilu(c, j), b), c.size, t)
    ensures PairSums(dvnorm, Normed(c, j), c.size)(b) == InSums(c.ks, Taps(c, j), Normed(c, j), DSilu(c, j), c.size)(b)
  {
    var f := PairTerms(dvnorm, Normed(c, j), b);
    var g := InTerms(c.ks, Taps(c, j), RowOf(Normed(c, j), b), RowOf(DSilu(c, j), b), c.size);
    forall t | 0 <= t < c.size ensures f(t) == g(t) { assert RowOf(Normed(c, j), b)(t) == Normed(c, j)(b, t); }
    SumCongruent(f, g, 0, c.size);
  }
}
