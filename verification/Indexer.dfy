/** The indexer: weighted ReLU scores on a range of key tiles per query block, against the dense masked definition. */
module Indexer {
  import opened Arith
  import opened Sums

  datatype Logit = Finite(x: real) | NegInf
  type Logits = (int, int) -> Logit

  /** Row s * heads + h of `q` and `w` belongs to head h of query s; query s may see keys ks(s) .. ke(s) - 1. */
  datatype Problem = Problem(heads: nat, dim: int, blockQ: int, blockN: int, seqLen: nat, seqKv: nat,
                             q: (int, int) -> real, kv: (int, int) -> real, w: int -> real, ks: int -> int,
                             ke: int -> int)

  ghost predicate Legal(c: Problem) {
    && c.blockQ >= 1 && c.blockN >= 1 && c.seqLen % c.blockQ == 0 && c.seqKv % c.blockN == 0
    && forall s :: 0 <= s < c.seqLen ==> 0 <= c.ks(s) && c.ke(s) <= c.seqKv
  }

  // ----- the dense definition

  function Dots(c: Problem, s: int, h: int, k: int): int -> real { (d: int) => c.q(s * c.heads + h, d) * c.kv(k, d) }
  /** Head h counts with its weight when its score is positive. */
  function HeadScore(c: Problem, s: int, h: int, k: int): real {
    var dot := Sum(Dots(c, s, h, k), 0, c.dim);
    if dot > 0.0 then dot * c.w(s * c.heads + h) else 0.0
  }
  function HeadTerms(c: Problem, s: int, k: int): int -> real { (h: int) => HeadScore(c, s, h, k) }
  function Score(c: Problem, s: int, k: int): real { Sum(HeadTerms(c, s, k), 0, c.heads) }
  predicate Seen(c: Problem, s: int, k: int) { c.ks(s) <= k < c.ke(s) }
  function Dense(c: Problem, s: int, k: int): Logit { if Seen(c, s, k) then Finite(Score(c, s, k)) else NegInf }

  // ----- prepare_metadata

  /** Smallest ks and largest ke of queries lo .. hi - 1. */
  method Extremes(c: Problem, lo: int, hi: int) returns (minKs: int, maxKe: int)
    requires lo < hi
    ensures forall s :: lo <= s < hi ==> minKs <= c.ks(s) && c.ke(s) <= maxKe
    ensures (exists s :: lo <= s < hi && minKs == c.ks(s)) && (exists s :: lo <= s < hi && maxKe == c.ke(s))
  {
    minKs, maxKe := c.ks(lo), c.ke(lo);
    var s := lo + 1;
    while s < hi
      invariant lo < s <= hi
      invariant forall u :: lo <= u < s ==> minKs <= c.ks(u) && c.ke(u) <= maxKe
      invariant (exists u :: lo <= u < s && minKs == c.ks(u)) && (exists u :: lo <= u < s && maxKe == c.ke(u))
    {
      if c.ks(s) < minKs { minKs := c.ks(s); }
      if c.ke(s) > maxKe { maxKe := c.ke(s); }
      s := s + 1;
    }
  }

  /** Tiles start .. start + count - 1 lie inside the keys and hold every key some query of lo .. hi - 1 may see. */
  ghost predicate Range(c: Problem, lo: int, hi: int, start: int, count: int)
    requires c.blockN >= 1
  {
    && 0 <= start && 0 <= count && (count > 0 ==> (start + count) * c.blockN <= c.seqKv)
    && forall s, k :: lo <= s < hi && Seen(c, s, k) ==> start <= k / c.blockN < start + count
  }
  lemma LastTile(maxKe: int, n: int, size: int)
    requires n >= 1 && maxKe <= size && size % n == 0
    ensures (maxKe + n - 1) / n * n <= size
  {
    DivModLaw(size, n);
    DivBelow(maxKe + n - 1, n, size / n + 1);
    MulMono((maxKe + n - 1) / n, size / n, n);
  }
  lemma RangeIs(c: Problem, lo: int, hi: int, minKs: int, maxKe: int)
    requires Legal(c) && 0 <= minKs && maxKe <= c.seqKv
    requires forall s :: lo <= s < hi ==> minKs <= c.ks(s) && c.ke(s) <= maxKe
    ensures var start, end := minKs / c.blockN, (maxKe + c.blockN - 1) / c.blockN;
            Range(c, lo, hi, start, if end - start > 0 then end - start else 0)
  {
    var n := c.blockN;
    var start, end := minKs / n, (maxKe + n - 1) / n;
    DivBelow(minKs, n, 0);
    LastTile(maxKe, n, c.seqKv);
    forall s, k | lo <= s < hi && Seen(c, s, k)
      ensures start <= k / n < end
    {
      TileOf(k, minKs, maxKe, n);
    }
  }
  lemma TileOf(k: int, lo: int, hi: int, n: int)
    requires n >= 1 && lo <= k < hi
    ensures lo / n <= k / n < (hi + n - 1) / n
  {
    DivModLaw(k, n);
    DivBelow(lo, n, k / n + 1);
    DivBelow(hi + n - 1, n, k / n + 1);
    MulMono(k / n, k / n, n);
  }

  method PrepareMetadata(c: Problem) returns (meta: seq<(int, int)>)
    requires Legal(c)
    ensures |meta| == (c.seqLen + c.blockQ - 1) / c.blockQ
    ensures forall i :: 0 <= i < |meta| ==> Range(c, i * c.blockQ, i * c.blockQ + c.blockQ, meta[i].0, meta[i].1)
  {
    var blocks := (c.seqLen + c.blockQ - 1) / c.blockQ;
    DivBelow(c.seqLen + c.blockQ - 1, c.blockQ, 0);
    meta := [];
    var i := 0;
    while i < blocks
      invariant 0 <= i <= blocks && |meta| == i
      invariant forall u :: 0 <= u < i ==> Range(c, u * c.blockQ, u * c.blockQ + c.blockQ, meta[u].0, meta[u].1)
    {
      var lo := i * c.blockQ;
      BlockInside(c.seqLen, c.blockQ, i);
      var hi := if lo + c.blockQ < c.seqLen then lo + c.blockQ else c.seqLen;
      var minKs, maxKe := Extremes(c, lo, hi);
      RangeIs(c, lo, hi, minKs, maxKe);
      var start := minKs / c.blockN;
      var end := (maxKe + c.blockN - 1) / c.blockN;
      meta := meta + [(start, if end - start > 0 then end - start else 0)];
      i := i + 1;
    }
  }
  /** Blocks are full and inside the queries. */
  lemma BlockInside(n: int, b: int, i: int)
    requires b >= 1 && n >= 0 && n % b == 0 && 0 <= i
    ensures i < (n + b - 1) / b ==> 0 <= i * b && i * b + b <= n
    ensures (n + b - 1) / b == n / b
  {
    DivModLaw(n, b);
    DivModUnique(n + b - 1, b, n / b, b - 1);
    MulMono(0, i, b);
    if i < n / b { MulMono(i + 1, n / b, b); }
  }

  // ----- the kernel

  function Relu(x: real): real { if x > 0.0 then x else 0.0 }
  function DotTerms(c: Problem, row: int, k: int): int -> real { (d: int) => c.q(row, d) * c.kv(k, d) }
  /** Row r of the product for key k, after relu and multiplication by the row's weight. */
  function Weighted(c: Problem, row: int, k: int): real { Relu(Sum(DotTerms(c, row, k), 0, c.dim)) * c.w(row) }
  lemma WeightedIs(c: Problem, s: int, h: int, k: int)
    ensures Weighted(c, s * c.heads + h, k) == HeadScore(c, s, h, k)
  {
    SumCongruent(DotTerms(c, s * c.heads + h, k), Dots(c, s, h, k), 0, c.dim);
  }
  function TileRow(c: Problem, first: int, off: int, j: int): int -> real {
    (r: int) => Weighted(c, first * c.heads + r, off + j)
  }
  /** What the reduction over heads leaves for query first + i and key off + j: rows i * heads .. of the tile. */
  function Reduced(c: Problem, first: int, off: int): Logits {
    (i: int, j: int) => Finite(Sum(TileRow(c, first, off, j), i * c.heads, (i + 1) * c.heads))
  }
  lemma ReducedIsScore(c: Problem, first: int, off: int, i: int, j: int)
    ensures Reduced(c, first, off)(i, j) == Finite(Score(c, first + i, off + j))
  {
    var f, g := TileRow(c, first, off, j), HeadTerms(c, first + i, off + j);
    forall h | 0 <= h < c.heads
      ensures g(h) == f(h + i * c.heads)
    {
      Rows(first, i, c.heads, h);
      WeightedIs(c, first + i, h, off + j);
    }
    SumShift(f, g, i * c.heads, 0, c.heads);
    Distribute(i, c.heads);
  }
  lemma Rows(first: int, i: int, heads: int, h: int)
    ensures (first + i) * heads + h == first * heads + (h + i * heads)
  {
  }
  lemma Distribute(i: int, heads: int)
    ensures (i + 1) * heads == heads + i * heads
  {
  }

  function Set(out: Logits, i: int, j: int, x: Logit): Logits {
    (a: int, b: int) => if a == i && b == j then x else out(a, b)
  }
  predicate Before(i: int, j: int, a: int, b: int) { a < i || (a == i && b < j) }
  /** Rows above i, and row i left of j, are masked; the rest is still as reduced. */
  ghost predicate MaskedUpTo(c: Problem, first: int, off: int, i: int, j: int, out: Logits) {
    forall a, b :: 0 <= a < c.blockQ && 0 <= b < c.blockN ==>
      out(a, b) == if Before(i, j, a, b) then Dense(c, first + a, off + b) else Reduced(c, first, off)(a, b)
  }
  lemma MaskOne(c: Problem, first: int, off: int, i: int, j: int, out: Logits)
    requires MaskedUpTo(c, first, off, i, j, out) && 0 <= i < c.blockQ && 0 <= j < c.blockN
    ensures Seen(c, first + i, off + j) ==> MaskedUpTo(c, first, off, i, j + 1, out)
    ensures !Seen(c, first + i, off + j) ==> MaskedUpTo(c, first, off, i, j + 1, Set(out, i, j, NegInf))
  {
    ReducedIsScore(c, first, off, i, j);
    forall a, b | 0 <= a < c.blockQ && 0 <= b < c.blockN
      ensures Before(i, j + 1, a, b) <==> Before(i, j, a, b) || (a == i && b == j)
    {
    }
  }
  lemma MaskNextRow(c: Problem, first: int, off: int, i: int, out: Logits)
    requires MaskedUpTo(c, first, off, i, c.blockN, out)
    ensures MaskedUpTo(c, first, off, i + 1, 0, out)
  {
    forall a, b | 0 <= a < c.blockQ && 0 <= b < c.blockN
      ensures out(a, b) == if Before(i + 1, 0, a, b) then Dense(c, first + a, off + b) else Reduced(c, first, off)(a, b)
    {
      assert Before(i + 1, 0, a, b) <==> Before(i, c.blockN, a, b);
    }
  }
  /** One tile: scores of all its queries and keys, with the keys a query may not see at minus infinity. */
  method Tile(c: Problem, first: int, off: int) returns (out: Logits)
    requires c.blockQ >= 1 && c.blockN >= 1 && first + c.blockQ <= c.seqLen
    ensures forall i, j :: 0 <= i < c.blockQ && 0 <= j < c.blockN ==> out(i, j) == Dense(c, first + i, off + j)
  {
    out := Reduced(c, first, off);
    var i := 0;
    while i < c.blockQ
      invariant 0 <= i <= c.blockQ && MaskedUpTo(c, first, off, i, 0, out)
    {
      var s := first + i;
      if s < c.seqLen {
        var ks, ke := c.ks(s), c.ke(s);
        var j := 0;
        while j < c.blockN
          invariant 0 <= j <= c.blockN && MaskedUpTo(c, first, off, i, j, out)
        {
          var k := off + j;
          MaskOne(c, first, off, i, j, out);
          if k < ks || k >= ke { out := Set(out, i, j, NegInf); }
          j := j + 1;
        }
        MaskNextRow(c, first, off, i, out);
      }
      i := i + 1;
    }
    assert forall a, b :: 0 <= a < c.blockQ && 0 <= b < c.blockN ==> Before(c.blockQ, 0, a, b);
  }

  function Paste(logits: Logits, first: int, off: int, bq: int, bn: int, out: Logits): Logits {
    (s: int, k: int) => if first <= s < first + bq && off <= k < off + bn then out(s - first, k - off) else logits(s, k)
  }
  /** Columns lo .. hi - 1 of the block's rows hold the dense answer; everything else is as before. */
  ghost predicate Done(c: Problem, first: int, lo: int, hi: int, before: Logits, after: Logits) {
    forall s, k :: after(s, k) == if first <= s < first + c.blockQ && lo <= k < hi then Dense(c, s, k) else before(s, k)
  }
  lemma DoneMore(c: Problem, first: int, lo: int, hi: int, before: Logits, after: Logits, out: Logits)
    requires Done(c, first, lo, hi, before, after) && lo <= hi && c.blockN >= 1
    requires forall i, j :: 0 <= i < c.blockQ && 0 <= j < c.blockN ==> out(i, j) == Dense(c, first + i, hi + j)
    ensures Done(c, first, lo, hi + c.blockN, before, Paste(after, first, hi, c.blockQ, c.blockN, out))
  {
    forall s, k
      ensures Paste(after, first, hi, c.blockQ, c.blockN, out)(s, k)
           == if first <= s < first + c.blockQ && lo <= k < hi + c.blockN then Dense(c, s, k) else before(s, k)
    {
      if first <= s < first + c.blockQ && hi <= k < hi + c.blockN {
        assert out(s - first, k - hi) == Dense(c, first + (s - first), hi + (k - hi));
      }
    }
  }
  /** One query block: visits its tiles and writes nothing outside its rows and those tiles. */
  method IndexerKernel(c: Problem, cid: int, start: int, count: int, logits: Logits) returns (after: Logits)
    requires c.blockQ >= 1 && c.blockN >= 1 && cid * c.blockQ + c.blockQ <= c.seqLen && count >= 0
    ensures Done(c, cid * c.blockQ, start * c.blockN, (start + count) * c.blockN, logits, after)
  {
    var first := cid * c.blockQ;
    after := logits;
    var t := 0;
    while t < count
      invariant 0 <= t <= count && start * c.blockN <= (start + t) * c.blockN
      invariant Done(c, first, start * c.blockN, (start + t) * c.blockN, logits, after)
    {
      var off := (start + t) * c.blockN;
      var out := Tile(c, first, off);
      DoneMore(c, first, start * c.blockN, off, logits, after, out);
      if first < c.seqLen { after := Paste(after, first, off, c.blockQ, c.blockN, out); }
      NextTile(start, t, c.blockN);
      t := t + 1;
    }
  }
  lemma NextTile(start: int, t: int, n: int)
    ensures (start + (t + 1)) * n == (start + t) * n + n
  {
  }

  /** Pruning loses nothing: every logit is the dense masked one, also where no tile was visited. */
  method IndexerFwd(c: Problem) returns (logits: Logits)
    requires Legal(c)
    ensures forall s, k :: 0 <= s < c.seqLen && 0 <= k < c.seqKv ==> logits(s, k) == Dense(c, s, k)
  {
    var meta := PrepareMetadata(c);
    logits := AllNegInf();
    BlockInside(c.seqLen, c.blockQ, 0);
    var cid := 0;
    while cid < |meta|
      invariant 0 <= cid <= |meta|
      invariant forall s, k :: 0 <= s < cid * c.blockQ ==> logits(s, k) == Dense(c, s, k)
      invariant forall s, k :: cid * c.blockQ <= s ==> logits(s, k) == NegInf
    {
      BlockInside(c.seqLen, c.blockQ, cid);
      var after := IndexerKernel(c, cid, meta[cid].0, meta[cid].1, logits);
      BlockDone(c, cid, meta[cid].0, meta[cid].1, logits, after);
      NextTile(cid, 0, c.blockQ);
      logits := after;
      cid := cid + 1;
    }
    DivModLaw(c.seqLen, c.blockQ);
  }
  function AllNegInf(): Logits { (s: int, k: int) => NegInf }
  lemma BlockDone(c: Problem, cid: int, start: int, count: int, before: Logits, after: Logits)
    requires c.blockQ >= 1 && c.blockN >= 1 && Range(c, cid * c.blockQ, cid * c.blockQ + c.blockQ, start, count)
    requires Done(c, cid * c.blockQ, start * c.blockN, (start + count) * c.blockN, before, after)
    requires forall s, k :: cid * c.blockQ <= s ==> before(s, k) == NegInf
    ensures forall s, k :: cid * c.blockQ <= s < cid * c.blockQ + c.blockQ ==> after(s, k) == Dense(c, s, k)
    ensures forall s, k :: s < cid * c.blockQ ==> after(s, k) == before(s, k)
    ensures forall s, k :: cid * c.blockQ + c.blockQ <= s ==> after(s, k) == NegInf
  {
    forall s, k | cid * c.blockQ <= s < cid * c.blockQ + c.blockQ ensures after(s, k) == Dense(c, s, k) {
      if !(start * c.blockN <= k < (start + count) * c.blockN) && Seen(c, s, k) {
        DivBelow(k, c.blockN, start);
        DivBelow(k, c.blockN, start + count);
      }
    }
  }
}
