/** The flash attention kernel on a whole matrix: dot products over blocks of the feature dimension, key blocks, and
    which sub-core owns which row. */
module FlashLaunch {
  import opened Arith
  import opened Sums
  import opened FlashAttention

  function CeilDiv(n: int, b: int): int
    requires b >= 1
  {
    (n + b - 1) / b
  }
  function Min(a: int, b: int): int { if a < b then a else b }

  /** Cutting 0 .. n - 1 into blocks of b: block i starts at i * b and only the last can be short. */
  lemma Cut(n: int, b: int, i: int)
    requires n >= 1 && b >= 1 && 0 <= i < CeilDiv(n, b)
    ensures 0 <= i * b < n && 0 < Min(b, n - i * b) <= b && Min((i + 1) * b, n) == i * b + Min(b, n - i * b)
    ensures i + 1 < CeilDiv(n, b) ==> Min(b, n - i * b) == b
    ensures i + 1 == CeilDiv(n, b) ==> Min((i + 1) * b, n) == n && (Min(b, n - i * b) == b <==> n % b == 0)
  {
    DivBelow(n + b - 1, b, i + 1);
    DivBelow(n + b - 1, b, i + 2);
    MulMono(0, i, b);
    assert (i + 1) * b == i * b + b && (i + 2) * b == i * b + 2 * b;
    if i + 1 == CeilDiv(n, b) { LastTail(n, b, i); }
  }
  lemma LastTail(n: int, b: int, i: int)
    requires b >= 1 && i * b < n <= i * b + b
    ensures n == i * b + b <==> n % b == 0
  {
    if n < i * b + b {
      DivModUnique(n, b, i, n - i * b);
    } else {
      assert n == (i + 1) * b;
      DivModUnique(n, b, i + 1, 0);
    }
  }
  lemma SomeBlock(n: int, b: int)
    requires n >= 1 && b >= 1
    ensures CeilDiv(n, b) >= 1
  {
    DivBelow(n + b - 1, b, 1);
  }

  // ----- the cube core's first loop

  function Offsets(n: int, b: int): int -> int { (i: int) => Min(i * b, n) }
  function DotTerms(q: Vec, k: Vec): Vec { (d: int) => q(d) * k(d) }
  /** What Cut says of one block, without the products. */
  lemma BlockSum(f: Vec, n: int, b: int, i: int)
    requires n >= 1 && b >= 1 && 0 <= i < CeilDiv(n, b)
    ensures Sum(f, 0, Min(i * b, n)) + Sum(f, i * b, i * b + Min(b, n - i * b)) == Sum(f, 0, Min((i + 1) * b, n))
    ensures i + 1 == CeilDiv(n, b) ==> Min((i + 1) * b, n) == n
  {
    Cut(n, b, i);
    SumSplit(f, 0, i * b, i * b + Min(b, n - i * b));
  }
  /** Accumulating over blocks of the feature dimension, starting afresh at the first, gives the whole dot product. */
  method DotByBlocks(q: Vec, k: Vec, dim: int, blockK: int, stale: real) returns (acc: real)
    requires dim >= 1 && blockK >= 1
    ensures acc == Sum(DotTerms(q, k), 0, dim)
  {
    acc := stale;
    SomeBlock(dim, blockK);
    ghost var at := Offsets(dim, blockK);
    var i := 0;
    while i < CeilDiv(dim, blockK)
      invariant 0 <= i <= CeilDiv(dim, blockK)
      invariant i > 0 ==> acc == Sum(DotTerms(q, k), 0, at(i))
      invariant i == CeilDiv(dim, blockK) ==> at(i) == dim
    {
      BlockSum(DotTerms(q, k), dim, blockK, i);
      var off := i * blockK;
      var tail := Min(blockK, dim - off);
      acc := (if i == 0 then 0.0 else acc) + Sum(DotTerms(q, k), off, off + tail);
      i := i + 1;
    }
  }

  // ----- one row of the matrix

  function RowOf(m: (int, int) -> real, r: int): Vec { (d: int) => m(r, d) }
  function Tails(n: int, b: int): int -> int { (i: int) => Min(b, n - i * b) }
  function Times(scale: real): real -> real { (x: real) => x * scale }
  function Scores(q: Vec, k: (int, int) -> real, dim: int): Vec { (j: int) => Sum(DotTerms(q, RowOf(k, j)), 0, dim) }
  function JobOf(n: int, b: int, scale: real, E: real -> real, score: Vec, v: (int, int) -> real): RowJob
    requires b >= 1
  {
    RowJob(n, CeilDiv(n, b), Offsets(n, b), Tails(n, b), Lane(b, Times(scale), E), score, v)
  }
  lemma JobLegal(n: int, b: int, scale: real, E: real -> real, score: Vec, v: (int, int) -> real)
    requires n >= 1 && b >= 1 && IsExp(E)
    ensures Legal(JobOf(n, b, scale, E, score, v)) && (Whole(JobOf(n, b, scale, E, score, v)) <==> n % b == 0)
  {
    var c := JobOf(n, b, scale, E, score, v);
    SomeBlock(n, b);
    Cut(n, b, CeilDiv(n, b) - 1);
    forall i | 0 <= i < c.blocks ensures BlockAt(c, i) {
      Cut(n, b, i);
      assert c.off(i) == Min(i * b, n) && c.off(i + 1) == Min((i + 1) * b, n) && c.tail(i) == Min(b, n - i * b);
    }
  }

  // ----- the definition, on the tensors alone

  type Tensor = (int, int) -> real
  function Pairs(q: Tensor, k: Tensor, r: int, j: int): Vec { (d: int) => q(r, d) * k(j, d) }
  function Logit(scale: real, q: Tensor, k: Tensor, dim: int, r: int, j: int): real {
    Sum(Pairs(q, k, r, j), 0, dim) * scale
  }
  function SoftWeights(scale: real, E: real -> real, q: Tensor, k: Tensor, dim: int, r: int): Vec {
    (j: int) => E(Logit(scale, q, k, dim, r, j))
  }
  function SoftValues(scale: real, E: real -> real, q: Tensor, k: Tensor, v: Tensor, dim: int, r: int, d: int): Vec {
    (j: int) => E(Logit(scale, q, k, dim, r, j)) * v(j, d)
  }
  function WeightedSum(n: int, scale: real, E: real -> real, q: Tensor, k: Tensor, v: Tensor, dim: int, r: int, d: int)
    : real
  {
    Sum(SoftValues(scale, E, q, k, v, dim, r, d), 0, n)
  }
  /** Row r of softmax(Q K^T * scale) V. */
  function Expected(n: int, scale: real, E: real -> real, q: Tensor, k: Tensor, v: Tensor, dim: int, r: int, d: int)
    : real
    requires n >= 1 && IsExp(E)
  {
    WeightsPositive(n, scale, E, q, k, dim, r);
    WeightedSum(n, scale, E, q, k, v, dim, r, d) / Sum(SoftWeights(scale, E, q, k, dim, r), 0, n)
  }
  lemma WeightsPositive(n: int, scale: real, E: real -> real, q: Tensor, k: Tensor, dim: int, r: int)
    requires n >= 1 && IsExp(E)
    ensures Sum(SoftWeights(scale, E, q, k, dim, r), 0, n) > 0.0
  {
    var f := SoftWeights(scale, E, q, k, dim, r);
    forall j ensures f(j) > 0.0 { ExpPositive(E, Logit(scale, q, k, dim, r, j)); }
    SumPositive(f, 0, n);
  }

  /** The kernel's scores, scaled, are the logits, whatever the blocking. */
  lemma LogitIs(scale: real, q: Tensor, k: Tensor, dim: int, r: int, j: int)
    ensures Times(scale)(Scores(RowOf(q, r), k, dim)(j)) == Logit(scale, q, k, dim, r, j)
  {
    var f, g := DotTerms(RowOf(q, r), RowOf(k, j)), Pairs(q, k, r, j);
    forall d ensures f(d) == g(d) { assert RowOf(q, r)(d) == q(r, d) && RowOf(k, j)(d) == k(j, d); }
    SumCongruent(f, g, 0, dim);
  }
  /** Key j weighs in row job c what it weighs in the definition. */
  predicate WeighsAs(c: RowJob, scale: real, E: real -> real, q: Tensor, k: Tensor, dim: int, r: int, j: int) {
    Exp(c, j) == E(Logit(scale, q, k, dim, r, j))
  }
  lemma DenIs(c: RowJob, scale: real, E: real -> real, q: Tensor, k: Tensor, dim: int, r: int)
    requires forall j :: WeighsAs(c, scale, E, q, k, dim, r, j)
    ensures Den(c) == Sum(SoftWeights(scale, E, q, k, dim, r), 0, c.keys)
  {
    var f, g := Exps(c), SoftWeights(scale, E, q, k, dim, r);
    forall j ensures f(j) == g(j) { assert WeighsAs(c, scale, E, q, k, dim, r, j); }
    SumCongruent(f, g, 0, c.keys);
  }
  lemma NumIs(c: RowJob, scale: real, E: real -> real, q: Tensor, k: Tensor, dim: int, r: int, d: int)
    requires forall j :: WeighsAs(c, scale, E, q, k, dim, r, j)
    ensures Num(c, d) == WeightedSum(c.keys, scale, E, q, k, c.value, dim, r, d)
  {
    var f, g := ValueTerms(c, d), SoftValues(scale, E, q, k, c.value, dim, r, d);
    forall j ensures f(j) == g(j) { assert WeighsAs(c, scale, E, q, k, dim, r, j); }
    SumCongruent(f, g, 0, c.keys);
  }
  lemma AttentionIs(n: int, b: int, scale: real, E: real -> real, q: Tensor, k: Tensor, v: Tensor, dim: int, r: int,
                    d: int)
    requires n >= 1 && b >= 1 && IsExp(E)
    ensures var c := JobOf(n, b, scale, E, Scores(RowOf(q, r), k, dim), v);
      && Legal(c) && Attention(c, d) == Expected(n, scale, E, q, k, v, dim, r, d)
      && Num(c, d) == WeightedSum(n, scale, E, q, k, v, dim, r, d)
  {
    var c := JobOf(n, b, scale, E, Scores(RowOf(q, r), k, dim), v);
    JobLegal(n, b, scale, E, Scores(RowOf(q, r), k, dim), v);
    forall j ensures WeighsAs(c, scale, E, q, k, dim, r, j) { LogitIs(scale, q, k, dim, r, j); }
    DenIs(c, scale, E, q, k, dim, r);
    NumIs(c, scale, E, q, k, dim, r, d);
  }

  /** Column j of the block that starts at key off. */
  function BlockCol(w1: seq<real>, off: int): Vec { (j: int) => if 0 <= off + j < |w1| then w1[off + j] else 0.0 }

  /** The kernel's value for row r, whatever the buffers held before. */
  method FlashAttnRow(n: int, b: int, scale: real, E: real -> real, q: (int, int) -> real, k: (int, int) -> real,
                      v: (int, int) -> real, dim: int, blockK: int, r: int, buffer: Vec, stale: real) returns (out: Vec)
    requires n >= 1 && b >= 1 && dim >= 1 && blockK >= 1 && IsExp(E)
    ensures forall d :: out(d) == Expected(n, scale, E, q, k, v, dim, r, d)
                        <==> n % b == 0 || WeightedSum(n, scale, E, q, k, v, dim, r, d) == 0.0
  {
    var score := Scores(RowOf(q, r), k, dim);
    var w1: seq<real> := [];
    var j := 0;
    while j < n
      invariant 0 <= j <= n && |w1| == j && forall u :: 0 <= u < j ==> w1[u] == score(u)
    {
      var x := DotByBlocks(RowOf(q, r), RowOf(k, j), dim, blockK, stale);
      w1 := w1 + [x];
      j := j + 1;
    }
    var c := JobOf(n, b, scale, E, score, v);
    JobLegal(n, b, scale, E, score, v);
    var cols := CutColumns(c, w1);
    out := FlashRow(c, cols, buffer);
    forall d
      ensures Attention(c, d) == Expected(n, scale, E, q, k, v, dim, r, d)
      ensures Num(c, d) == WeightedSum(n, scale, E, q, k, v, dim, r, d)
    {
      AttentionIs(n, b, scale, E, q, k, v, dim, r, d);
    }
  }
  /** The blocks of the score workspace as the vector core loads them. */
  method CutColumns(c: RowJob, w1: seq<real>) returns (cols: seq<Vec>)
    requires Legal(c) && |w1| == c.keys && forall u :: 0 <= u < |w1| ==> w1[u] == c.score(u)
    ensures LoadsAll(c, cols)
  {
    cols := [];
    var i := 0;
    while i < c.blocks
      invariant 0 <= i <= c.blocks && |cols| == i && forall u :: 0 <= u < i ==> Loads(c, u, cols[u])
    {
      ColumnLoads(c, w1, i);
      cols := cols + [BlockCol(w1, c.off(i))];
      i := i + 1;
    }
  }
  lemma ColumnLoads(c: RowJob, w1: seq<real>, i: int)
    requires Legal(c) && |w1| == c.keys && (forall u :: 0 <= u < |w1| ==> w1[u] == c.score(u)) && 0 <= i < c.blocks
    ensures Loads(c, i, BlockCol(w1, c.off(i)))
  {
    assert BlockAt(c, i);
    OffMono(c, 0, i);
    OffMono(c, i + 1, c.blocks);
  }

  // ----- rows and sub-cores

  /** First row and number of rows of sub-core `sub` of block cid. */
  function TailM(n: int, bm: int, cid: int): int { Min(bm, n - cid * bm) }
  function FirstRow(n: int, bm: int, cid: int, sub: int): int { cid * bm + sub * ((TailM(n, bm, cid) + 1) / 2) }
  function RowCount(n: int, bm: int, cid: int, sub: int): int {
    (TailM(n, bm, cid) + 1) / 2 - TailM(n, bm, cid) % 2 * sub
  }
  predicate Owns(n: int, bm: int, cid: int, sub: int, r: int) {
    FirstRow(n, bm, cid, sub) <= r < FirstRow(n, bm, cid, sub) + RowCount(n, bm, cid, sub)
  }
  predicate Launched(n: int, bm: int, cid: int, sub: int)
    requires bm >= 1
  {
    0 <= cid < CeilDiv(n, bm) && 0 <= sub < 2
  }
  /** Every row is written by exactly one sub-core of one block. */
  lemma RowOwnedOnce(n: int, bm: int, r: int, cid: int, sub: int)
    requires n >= 1 && bm >= 1 && Launched(n, bm, cid, sub)
    ensures 0 <= FirstRow(n, bm, cid, sub) && 0 <= RowCount(n, bm, cid, sub)
    ensures FirstRow(n, bm, cid, sub) + RowCount(n, bm, cid, sub) <= n
    ensures 0 <= r < n ==>
              var half := (TailM(n, bm, r / bm) + 1) / 2;
              (Owns(n, bm, cid, sub, r) <==> cid == r / bm && sub == (if r % bm < half then 0 else 1))
  {
    Cut(n, bm, cid);
    HalfRows(TailM(n, bm, cid), sub);
    if 0 <= r < n {
      DivModLaw(r, bm);
      var t := TailM(n, bm, cid);
      assert Owns(n, bm, cid, sub, r) <==>
        sub * ((t + 1) / 2) <= r - cid * bm < sub * ((t + 1) / 2) + (t + 1) / 2 - t % 2 * sub;
      if cid * bm <= r < cid * bm + bm {
        DivModUnique(r, bm, cid, r - cid * bm);
      } else if cid == r / bm {
        assert false;
      }
    }
  }
  lemma HalfRows(t: int, sub: int)
    requires t >= 1 && 0 <= sub < 2
    ensures 0 <= sub * ((t + 1) / 2) && 0 <= (t + 1) / 2 - t % 2 * sub
    ensures sub * ((t + 1) / 2) + (t + 1) / 2 - t % 2 * sub <= t
    ensures sub == 0 ==> (t + 1) / 2 - t % 2 * sub == (t + 1) / 2
    ensures sub == 1 ==> sub * ((t + 1) / 2) == (t + 1) / 2 && (t + 1) / 2 + (t + 1) / 2 - t % 2 * sub == t
  {
  }
}
