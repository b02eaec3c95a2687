/** The sparse attention launch: how tensors and task numbers become the work list of one AI core, and the
    attention formula that a finished launch has computed. */
module SparseProblem {
  import opened Arith
  import opened Sums
  import J = SparseJob
  import SparseInvariant
  import R = SparseRuns
  import A = SparseAttention
  import P = SparseProtocol

  /** One launch as one AI core sees it. `junk` is what the index buffer holds past the end of top_k; E is exp. */
  datatype Problem = Problem(
    batch: int, seqLen: int, seqKv: int, heads: int, dim: int, topK: int, block: int,
    kernels: int, kernelId: int, smScale: real,
    Q: (int, int, int, int) -> real, KV: (int, int, int) -> real,
    Idx: (int, int, int) -> int, junk: (int, int) -> int, sink: int -> real, E: real -> real)

  ghost predicate Legal(p: Problem) {
    && p.batch >= 0 && p.seqLen >= 1 && p.heads >= 0 && p.topK >= 1
    && p.block >= 2 && p.block % 2 == 0 && 0 <= p.kernelId < p.kernels && IsExp(p.E)
  }

  // ----- the reference

  /** Entry d of selected key i: zero when its index is out of range. */
  function Key(p: Problem, b: int, s: int, i: int, d: int): real {
    if 0 <= p.Idx(b, s, i) < p.seqKv then p.KV(b, p.Idx(b, s, i), d) else 0.0
  }
  function QueryKey(p: Problem, b: int, s: int, h: int, i: int): int -> real {
    (d: int) => p.Q(b, s, h, d) * Key(p, b, s, i, d)
  }
  function Score(p: Problem, b: int, s: int, h: int, i: int): real {
    Sum(QueryKey(p, b, s, h, i), 0, p.dim) * p.smScale
  }
  /** softmax weight of selected key i before normalisation; masked keys (index -1) weigh nothing. */
  function Weight(p: Problem, b: int, s: int, h: int, i: int): real {
    if p.Idx(b, s, i) != -1 then p.E(Score(p, b, s, h, i)) else 0.0
  }
  function Weights(p: Problem, b: int, s: int, h: int): int -> real { (i: int) => Weight(p, b, s, h, i) }
  function Values(p: Problem, b: int, s: int, h: int, d: int): int -> real {
    (i: int) => Weight(p, b, s, h, i) * Key(p, b, s, i, d)
  }
  /** softmax over the selected keys and the sink, applied to the selected rows. */
  function Attention(p: Problem, b: int, s: int, h: int, d: int): real
    requires IsExp(p.E)
  {
    NonNegative(p, b, s, h, p.topK);
    ExpPositive(p.E, p.sink(h));
    Sum(Values(p, b, s, h, d), 0, p.topK) / (Sum(Weights(p, b, s, h), 0, p.topK) + p.E(p.sink(h)))
  }

  lemma {:induction false} NonNegative(p: Problem, b: int, s: int, h: int, k: int)
    requires IsExp(p.E)
    ensures Sum(Weights(p, b, s, h), 0, k) >= 0.0
    decreases k
  {
    if k > 0 {
      NonNegative(p, b, s, h, k - 1);
      assert Weight(p, b, s, h, k - 1) >= 0.0;
    }
  }

  // ----- what the cores gather and multiply

  /** The row that an index gathers. */
  function KvRow(p: Problem, b: int, idx: int, d: int): real {
    if 0 <= idx < p.seqKv then p.KV(b, idx, d) else 0.0
  }
  function DotTerms(p: Problem, b: int, s: int, h: int, idx: int): int -> real {
    (d: int) => p.Q(b, s, h, d) * KvRow(p, b, idx, d)
  }
  lemma DotIsQueryKey(p: Problem, b: int, s: int, h: int, i: int)
    ensures Sum(DotTerms(p, b, s, h, p.Idx(b, s, i)), 0, p.dim) == Sum(QueryKey(p, b, s, h, i), 0, p.dim)
  {
    var f, g := DotTerms(p, b, s, h, p.Idx(b, s, i)), QueryKey(p, b, s, h, i);
    forall d ensures f(d) == g(d) { assert KvRow(p, b, p.Idx(b, s, i), d) == Key(p, b, s, i, d); }
    SumCongruent(f, g, 0, p.dim);
  }

  // ----- task numbering

  function Blocks(topK: int, block: int): int requires block > 0 { (topK - 1) / block + 1 }
  function Locals(p: Problem): int
    requires p.kernels > 0
  {
    (p.batch * p.seqLen - p.kernelId + p.kernels - 1) / p.kernels
  }
  function Tail(topK: int, block: int, blk: int): int {
    if topK - blk * block < block then topK - blk * block else block
  }

  /** Every block but the last is full, and the last one ends at top_k. */
  lemma BlockShape(topK: int, block: int, blk: int)
    requires topK >= 1 && block >= 1
    ensures Blocks(topK, block) >= 1
    ensures 0 <= blk < Blocks(topK, block) ==> 1 <= Tail(topK, block, blk) <= block
    ensures 0 <= blk < Blocks(topK, block) - 1 ==> Tail(topK, block, blk) == block
    ensures blk == Blocks(topK, block) - 1 ==> blk * block + Tail(topK, block, blk) == topK
  {
    var q := (topK - 1) / block;
    DivModLaw(topK - 1, block);
    DivBelow(topK - 1, block, 0);
    if 0 <= blk < q { MulMono(blk + 1, q, block); }
  }

  function BlkOf(nb: int, t: int): int requires nb > 0 { t % nb }
  function LogicOf(p: Problem, nb: int, t: int): int requires nb > 0 { t / nb * p.kernels + p.kernelId }

  /** The work list of this core. */
  function JobOf(p: Problem): J.Job
    requires Legal(p)
  {
    BlockShape(p.topK, p.block, 0);
    LocalsNonNegative(p);
    var nb := Blocks(p.topK, p.block);
    MulMono(0, Locals(p), nb);
    var blk := (t: int) => BlkOf(nb, t);
    var bt := (t: int) => LogicOf(p, nb, t) / p.seqLen;
    var sq := (t: int) => LogicOf(p, nb, t) % p.seqLen;
    var idx := (t: int, j: int) =>
      if blk(t) * p.block + j < p.topK then p.Idx(bt(t), sq(t), blk(t) * p.block + j) else p.junk(t, j);
    J.Job(Locals(p) * nb, p.block, p.dim, p.heads / 2, p.smScale, p.E,
          (t: int) => Tail(p.topK, p.block, blk(t)), (t: int) => blk(t) == 0, (t: int) => blk(t) == nb - 1, bt, sq,
          idx, p.Q, (b: int, i: int, d: int) => KvRow(p, b, i, d),
          (t: int, h: int, j: int) => Sum(DotTerms(p, bt(t), sq(t), h, idx(t, j)), 0, p.dim), p.sink)
  }

  lemma LocalsNonNegative(p: Problem)
    requires Legal(p)
    ensures Locals(p) >= 0
  {
    MulMono(0, p.batch, p.seqLen);
    DivBelow(p.batch * p.seqLen - p.kernelId + p.kernels - 1, p.kernels, 0);
  }

  lemma BlkRange(nb: int, t: int)
    requires nb > 0
    ensures 0 <= BlkOf(nb, t) < nb
  {
    DivModLaw(t, nb);
  }

  /** The block after a block of the same query is the next task. */
  lemma NextBlock(p: Problem, nb: int, t: int)
    requires nb > 0 && BlkOf(nb, t) != 0
    ensures BlkOf(nb, t - 1) == BlkOf(nb, t) - 1 && LogicOf(p, nb, t - 1) == LogicOf(p, nb, t)
  {
    DivModLaw(t, nb);
    DivModUnique(t - 1, nb, t / nb, t % nb - 1);
  }

  /** Different last blocks belong to different queries. */
  lemma LastBlocksApart(p: Problem, nb: int, t: int, u: int)
    requires nb > 0 && p.kernels > 0 && t < u && BlkOf(nb, t) == nb - 1 && BlkOf(nb, u) == nb - 1
    ensures LogicOf(p, nb, t) < LogicOf(p, nb, u)
  {
    DivModLaw(t, nb);
    DivModLaw(u, nb);
    if t / nb >= u / nb { MulMono(u / nb, t / nb, nb); }
    MulMono(t / nb + 1, u / nb, p.kernels);
  }

  lemma SameDivMod(x: int, y: int, d: int)
    requires d > 0 && x / d == y / d && x % d == y % d
    ensures x == y
  {
    DivModLaw(x, d);
    DivModLaw(y, d);
  }

  lemma JobStreams(p: Problem)
    requires Legal(p)
    ensures J.Streams(JobOf(p)) && J.Once(JobOf(p)) && J.Tails(JobOf(p))
  {
    var g, nb := JobOf(p), Blocks(p.topK, p.block);
    BlockShape(p.topK, p.block, 0);
    forall t ensures 0 <= g.tail(t) <= g.block {
      BlkRange(nb, t);
      BlockShape(p.topK, p.block, BlkOf(nb, t));
    }
    forall t | 0 < t < g.n && !g.first(t) ensures J.SameQuery(g, t) {
      NextBlock(p, nb, t);
      BlkRange(nb, t);
    }
    forall t, u | 0 <= t < u < g.n && g.last(t) && g.last(u) ensures J.Apart(g, t, u) {
      LastBlocksApart(p, nb, t, u);
      if !J.Apart(g, t, u) { SameDivMod(LogicOf(p, nb, t), LogicOf(p, nb, u), p.seqLen); }
    }
    DivModUnique(0, nb, 0, 0);
  }

  /** A job whose query, row and score functions are those of the launch. */
  ghost predicate Reads(g: J.Job, p: Problem) {
    && g.Q == p.Q && g.E == p.E && g.smScale == p.smScale && g.dim == p.dim && g.sink == p.sink
    && (forall b, i, d :: g.row(b, i, d) == KvRow(p, b, i, d))
    && (forall t, h, j :: g.score(t, h, j) == Sum(DotTerms(p, g.bt(t), g.sq(t), h, g.idx(t, j)), 0, p.dim))
  }

  lemma JobReads(p: Problem)
    requires Legal(p)
    ensures Reads(JobOf(p), p)
  {
  }

  lemma ScoreIsDot(g: J.Job, p: Problem, t: int, h: int, j: int)
    requires Reads(g, p)
    ensures g.score(t, h, j) == J.Dot(g, t, h, j)
  {
    var f := (d: int) => g.Q(g.bt(t), g.sq(t), h, d) * J.Gathered(g, t, j, d);
    var b, q, i := g.bt(t), g.sq(t), g.idx(t, j);
    forall d ensures f(d) == DotTerms(p, b, q, h, i)(d) {
      assert J.Gathered(g, t, j, d) == KvRow(p, b, i, d);
    }
    SumCongruent(DotTerms(p, b, q, h, i), f, 0, p.dim);
  }

  lemma JobScores(p: Problem)
    requires Legal(p)
    ensures J.ScoresAreDots(JobOf(p))
  {
    JobReads(p);
    forall t, h, j ensures JobOf(p).score(t, h, j) == J.Dot(JobOf(p), t, h, j) { ScoreIsDot(JobOf(p), p, t, h, j); }
  }

  lemma JobLegal(p: Problem)
    requires Legal(p)
    ensures J.Legal(JobOf(p))
  {
    JobStreams(p);
    JobScores(p);
  }

  // ----- blocks add up to the whole selection

  /** Entry j of a block's index buffer, for live rows. */
  lemma LiveIndex(p: Problem, t: int, j: int)
    requires Legal(p) && 0 <= j < JobOf(p).tail(t)
    ensures var g := JobOf(p); g.idx(t, j) == p.Idx(g.bt(t), g.sq(t), BlkOf(Blocks(p.topK, p.block), t) * p.block + j)
  {
    var nb := Blocks(p.topK, p.block);
    BlkRange(nb, t);
    BlockShape(p.topK, p.block, BlkOf(nb, t));
  }

  lemma LiveWeight(g: J.Job, p: Problem, t: int, h: int, j: int, i: int)
    requires Reads(g, p) && 0 <= j < g.tail(t) && g.idx(t, j) == p.Idx(g.bt(t), g.sq(t), i)
    ensures J.Weight(g, t, h, j) == Weight(p, g.bt(t), g.sq(t), h, i)
  {
    ScoreIs(g, p, t, h, j, i);
  }
  lemma ScoreIs(g: J.Job, p: Problem, t: int, h: int, j: int, i: int)
    requires Reads(g, p) && g.idx(t, j) == p.Idx(g.bt(t), g.sq(t), i)
    ensures J.Scaled(g, t, h, j) == Score(p, g.bt(t), g.sq(t), h, i)
  {
    assert g.score(t, h, j) == Sum(DotTerms(p, g.bt(t), g.sq(t), h, g.idx(t, j)), 0, p.dim);
    DotIsQueryKey(p, g.bt(t), g.sq(t), h, i);
  }

  lemma LiveRow(g: J.Job, p: Problem, t: int, j: int, i: int, d: int)
    requires Reads(g, p) && g.idx(t, j) == p.Idx(g.bt(t), g.sq(t), i)
    ensures J.Gathered(g, t, j, d) == Key(p, g.bt(t), g.sq(t), i, d)
  {
  }

  lemma LiveValue(g: J.Job, p: Problem, t: int, h: int, j: int, i: int, d: int)
    requires Reads(g, p) && 0 <= j < g.tail(t) && g.idx(t, j) == p.Idx(g.bt(t), g.sq(t), i)
    ensures J.WeightTerms(g, t, h, d)(j) == Values(p, g.bt(t), g.sq(t), h, d)(i)
  {
    LiveWeight(g, p, t, h, j, i);
    LiveRow(g, p, t, j, i, d);
  }

  /** Task t covers the selected keys start(t) .. start(t) + tail(t) - 1, continuing where its predecessor ended. */
  ghost predicate Cut(g: J.Job, p: Problem, start: int -> int, t: int) {
    && start(t) >= 0 && g.tail(t) >= 0
    && (forall j :: 0 <= j < g.tail(t) ==> g.idx(t, j) == p.Idx(g.bt(t), g.sq(t), start(t) + j))
    && (if g.first(t) then start(t) == 0
        else t >= 1 && start(t) == start(t - 1) + g.tail(t - 1) && g.bt(t) == g.bt(t - 1) && g.sq(t) == g.sq(t - 1))
  }

  lemma BlockDenIs(g: J.Job, p: Problem, start: int -> int, t: int, h: int)
    requires Reads(g, p) && Cut(g, p, start, t)
    ensures J.BlockDen(g, t, h) == Sum(Weights(p, g.bt(t), g.sq(t), h), start(t), start(t) + g.tail(t))
  {
    forall j | 0 <= j < g.tail(t) ensures ShiftAt(Weights(p, g.bt(t), g.sq(t), h), J.Weights(g, t, h), start(t), j) {
      LiveWeight(g, p, t, h, j, start(t) + j);
    }
    SumShiftAt(Weights(p, g.bt(t), g.sq(t), h), J.Weights(g, t, h), start(t), g.tail(t));
  }
  lemma BlockNumIs(g: J.Job, p: Problem, start: int -> int, t: int, h: int, d: int)
    requires Reads(g, p) && Cut(g, p, start, t)
    ensures J.BlockNum(g, t, h, d) == Sum(Values(p, g.bt(t), g.sq(t), h, d), start(t), start(t) + g.tail(t))
  {
    forall j | 0 <= j < g.tail(t)
      ensures ShiftAt(Values(p, g.bt(t), g.sq(t), h, d), J.WeightTerms(g, t, h, d), start(t), j)
    {
      LiveValue(g, p, t, h, j, start(t) + j, d);
    }
    SumShiftAt(Values(p, g.bt(t), g.sq(t), h, d), J.WeightTerms(g, t, h, d), start(t), g.tail(t));
  }

  /** Totals N that grow by the sum of F(k) over start(k) .. start(k) + tail(k), starting over at a first block. */
  ghost predicate Grows(g: J.Job, start: int -> int, N: int -> real, F: int -> (int -> real), k: int) {
    && start(k) >= 0 && g.tail(k) >= 0
    && N(k) == (if g.first(k) then 0.0 else N(k - 1)) + Sum(F(k), start(k), start(k) + g.tail(k))
    && (if g.first(k) then start(k) == 0 else k >= 1 && start(k) == start(k - 1) + g.tail(k - 1) && F(k) == F(k - 1))
  }
  lemma {:induction false} Accumulates(g: J.Job, start: int -> int, N: int -> real, F: int -> (int -> real), t: int)
    requires t >= 0 && forall k :: 0 <= k <= t ==> Grows(g, start, N, F, k)
    ensures N(t) == Sum(F(t), 0, start(t) + g.tail(t))
    decreases t
  {
    assert Grows(g, start, N, F, t);
    SumSplit(F(t), 0, start(t), start(t) + g.tail(t));
    if g.first(t) { assert Sum(F(t), 0, 0) == 0.0; } else { Accumulates(g, start, N, F, t - 1); }
  }

  function Dens(g: J.Job, h: int): int -> real { (k: int) => J.Den(g, k, h) }
  function Nums(g: J.Job, h: int, d: int): int -> real { (k: int) => J.Num(g, k, h, d) }
  function QueryWeights(g: J.Job, p: Problem, h: int): int -> (int -> real) {
    (k: int) => Weights(p, g.bt(k), g.sq(k), h)
  }
  function QueryValues(g: J.Job, p: Problem, h: int, d: int): int -> (int -> real) {
    (k: int) => Values(p, g.bt(k), g.sq(k), h, d)
  }

  lemma DenGrows(g: J.Job, p: Problem, start: int -> int, k: int, h: int)
    requires Reads(g, p) && k >= 0 && Cut(g, p, start, k)
    ensures Grows(g, start, Dens(g, h), QueryWeights(g, p, h), k)
  {
    BlockDenIs(g, p, start, k, h);
    DenUnfolds(g, k, h);
    assert QueryWeights(g, p, h)(k) == Weights(p, g.bt(k), g.sq(k), h);
    if !g.first(k) { assert QueryWeights(g, p, h)(k - 1) == Weights(p, g.bt(k), g.sq(k), h); }
  }
  lemma DenUnfolds(g: J.Job, k: int, h: int)
    requires k >= 1 || g.first(k)
    ensures Dens(g, h)(k) == (if g.first(k) then 0.0 else Dens(g, h)(k - 1)) + J.BlockDen(g, k, h)
  {
  }
  lemma NumGrows(g: J.Job, p: Problem, start: int -> int, k: int, h: int, d: int)
    requires Reads(g, p) && k >= 0 && Cut(g, p, start, k)
    ensures Grows(g, start, Nums(g, h, d), QueryValues(g, p, h, d), k)
  {
    BlockNumIs(g, p, start, k, h, d);
    NumUnfolds(g, k, h, d);
    assert QueryValues(g, p, h, d)(k) == Values(p, g.bt(k), g.sq(k), h, d);
    if !g.first(k) { assert QueryValues(g, p, h, d)(k - 1) == Values(p, g.bt(k), g.sq(k), h, d); }
  }
  lemma NumUnfolds(g: J.Job, k: int, h: int, d: int)
    requires k >= 1 || g.first(k)
    ensures Nums(g, h, d)(k) == (if g.first(k) then 0.0 else Nums(g, h, d)(k - 1)) + J.BlockNum(g, k, h, d)
  {
  }

  /** Denominator and numerator over the blocks done so far are those over the selected keys done so far. */
  lemma DenUpto(g: J.Job, p: Problem, start: int -> int, t: int, h: int)
    requires Reads(g, p) && t >= 0 && forall k :: 0 <= k <= t ==> Cut(g, p, start, k)
    ensures J.Den(g, t, h) == Sum(Weights(p, g.bt(t), g.sq(t), h), 0, start(t) + g.tail(t))
  {
    forall k | 0 <= k <= t
      ensures Grows(g, start, Dens(g, h), QueryWeights(g, p, h), k)
    {
      DenGrows(g, p, start, k, h);
    }
    Accumulates(g, start, Dens(g, h), QueryWeights(g, p, h), t);
  }
  lemma NumUpto(g: J.Job, p: Problem, start: int -> int, t: int, h: int, d: int)
    requires Reads(g, p) && t >= 0 && forall k :: 0 <= k <= t ==> Cut(g, p, start, k)
    ensures J.Num(g, t, h, d) == Sum(Values(p, g.bt(t), g.sq(t), h, d), 0, start(t) + g.tail(t))
  {
    forall k | 0 <= k <= t
      ensures Grows(g, start, Nums(g, h, d), QueryValues(g, p, h, d), k)
    {
      NumGrows(g, p, start, k, h, d);
    }
    Accumulates(g, start, Nums(g, h, d), QueryValues(g, p, h, d), t);
  }

  function StartOf(p: Problem, nb: int): int -> int requires nb > 0 { (t: int) => BlkOf(nb, t) * p.block }

  lemma JobCut(p: Problem, t: int)
    requires Legal(p) && t >= 0
    ensures Blocks(p.topK, p.block) > 0 && Cut(JobOf(p), p, StartOf(p, Blocks(p.topK, p.block)), t)
  {
    var nb := Blocks(p.topK, p.block);
    BlockShape(p.topK, p.block, 0);
    BlkRange(nb, t);
    var k := BlkOf(nb, t);
    BlockShape(p.topK, p.block, k);
    MulMono(0, k, p.block);
    forall j | 0 <= j < JobOf(p).tail(t)
      ensures JobOf(p).idx(t, j) == p.Idx(JobOf(p).bt(t), JobOf(p).sq(t), k * p.block + j)
    {
      LiveIndex(p, t, j);
    }
    if k != 0 {
      if t == 0 { DivModUnique(0, nb, 0, 0); }
      NextBlock(p, nb, t);
      BlockShape(p.topK, p.block, k - 1);
      assert (k - 1) * p.block + p.block == k * p.block;
    }
  }

  /** A query's last block ends at its last key. */
  lemma LastTotals(p: Problem, t: int)
    requires Legal(p) && t >= 0 && JobOf(p).last(t)
    ensures var g, start := JobOf(p), StartOf(p, Blocks(p.topK, p.block)); start(t) + g.tail(t) == p.topK
  {
    BlockShape(p.topK, p.block, Blocks(p.topK, p.block) - 1);
  }
  /** The block-wise result of a query's last task is the attention formula over all selected keys. */
  lemma ResultIsAttention(p: Problem, t: int, h: int, d: int)
    requires Legal(p) && t >= 0 && JobOf(p).last(t)
    ensures var g := JobOf(p); J.Result(g, t, h, d) == Attention(p, g.bt(t), g.sq(t), h, d)
  {
    var g, nb := JobOf(p), Blocks(p.topK, p.block);
    JobReads(p);
    forall k | 0 <= k <= t ensures Cut(g, p, StartOf(p, nb), k) { JobCut(p, k); }
    DenUpto(g, p, StartOf(p, nb), t, h);
    NumUpto(g, p, StartOf(p, nb), t, h, d);
    LastTotals(p, t);
  }

  // ----- which core writes which query

  /** Query (b, s) belongs to the core whose number is its row number modulo the number of cores. */
  function Owner(p: Problem, b: int, s: int): int requires p.kernels > 0 { (b * p.seqLen + s) % p.kernels }

  /** The row of a query that this core owns is the core's (row / kernels)-th. */
  lemma LocalRow(rows: int, k: int, id: int, row: int)
    requires 0 <= id < k && 0 <= row < rows && row % k == id
    ensures 0 <= row / k < (rows - id + k - 1) / k && row / k * k + id == row
  {
    DivModLaw(row, k);
    DivBelow(row, k, 0);
    assert (row / k + 1) * k == row - id + k;
    DivBelow(rows - id + k - 1, k, row / k + 1);
  }
  /** The last task of query (b, s) on its own core. */
  lemma LastTask(p: Problem, b: int, s: int) returns (t: int)
    requires Legal(p) && 0 <= b < p.batch && 0 <= s < p.seqLen && Owner(p, b, s) == p.kernelId
    ensures 0 <= t < JobOf(p).n && JobOf(p).last(t) && JobOf(p).bt(t) == b && JobOf(p).sq(t) == s
  {
    var row, nb := b * p.seqLen + s, Blocks(p.topK, p.block);
    BlockShape(p.topK, p.block, 0);
    TableAt(b, s, p.batch, p.seqLen);
    LocalRow(p.batch * p.seqLen, p.kernels, p.kernelId, row);
    TableAt(row / p.kernels, nb - 1, Locals(p), nb);
    t := row / p.kernels * nb + (nb - 1);
    assert LogicOf(p, nb, t) == row;
  }

  predicate WorksOn(p: Problem, t: int, b: int, s: int)
    requires Legal(p)
  {
    0 <= t < JobOf(p).n && JobOf(p).bt(t) == b && JobOf(p).sq(t) == s
  }
  lemma QueryOwner(p: Problem, t: int, b: int, s: int)
    requires Legal(p) && JobOf(p).bt(t) == b && JobOf(p).sq(t) == s
    ensures Owner(p, b, s) == p.kernelId
  {
    var nb := Blocks(p.topK, p.block);
    BlockShape(p.topK, p.block, 0);
    var l := LogicOf(p, nb, t);
    DivModLaw(l, p.seqLen);
    DivModUnique(l, p.kernels, t / nb, p.kernelId);
  }
  /** The task's query lies inside the batch. */
  lemma TaskInBatch(p: Problem, t: int)
    requires Legal(p) && 0 <= t < JobOf(p).n
    ensures 0 <= JobOf(p).bt(t) < p.batch && 0 <= JobOf(p).sq(t) < p.seqLen
  {
    var nb := Blocks(p.topK, p.block);
    BlockShape(p.topK, p.block, 0);
    DivBelow(t, nb, Locals(p));
    LogicInBatch(p.batch * p.seqLen, p.kernels, p.kernelId, t / nb);
    var l := LogicOf(p, nb, t);
    DivModLaw(l, p.seqLen);
    DivBelow(l, p.seqLen, p.batch);
  }
  lemma LogicInBatch(rows: int, k: int, id: int, l: int)
    requires 0 <= id < k && 0 <= l < (rows - id + k - 1) / k
    ensures 0 <= l * k + id < rows
  {
    DivBelow(rows - id + k - 1, k, l + 1);
    MulMono(0, l, k);
    assert (l + 1) * k == l * k + k;
  }
  /** The queries a core has tasks for are exactly those it owns: inside the batch, its number modulo the cores. */
  lemma TaskOwner(p: Problem, b: int, s: int)
    requires Legal(p)
    ensures (exists t :: WorksOn(p, t, b, s)) <==> Owned(p, b, s)
  {
    if t :| WorksOn(p, t, b, s) {
      TaskInBatch(p, t);
      QueryOwner(p, t, b, s);
    }
    if Owned(p, b, s) {
      var t := LastTask(p, b, s);
      assert WorksOn(p, t, b, s);
    }
  }
  predicate Owned(p: Problem, b: int, s: int)
    requires p.kernels > 0
  {
    0 <= b < p.batch && 0 <= s < p.seqLen && (b * p.seqLen + s) % p.kernels == p.kernelId
  }

  /** The rows that this core is to write: those of its own queries, in the heads that a sub-core has. */
  predicate Mine(p: Problem, b: int, q: int, h: int)
    requires p.kernels > 0
  {
    Owned(p, b, q) && 0 <= h < p.heads - p.heads % 2
  }
  /** Every finished run of one AI core, in every interleaving of its three cores and from any memory contents: a row
      is written exactly once, with the attention formula, if it is the core's, and keeps its contents otherwise.  With
      an odd number of heads nobody has the last one. */
  lemma LaunchComputesAttention(p: Problem, s0: A.State, cs: seq<P.Core>, b: int, q: int, h: int, d: int)
    requires Legal(p) && A.Initial(s0) && R.Schedule(JobOf(p), s0, cs)
    requires P.Finished(JobOf(p).n, R.After(JobOf(p), s0, cs).sync)
    ensures var s := R.After(JobOf(p), s0, cs);
      && s.writes(b, q, h) == (if Mine(p, b, q, h) then 1 else 0)
      && s.out(b, q, h, d) == if Mine(p, b, q, h) then Attention(p, b, q, h, d) else s0.out(b, q, h, d)
  {
    R.UnwrittenKept(JobOf(p), s0, cs, b, q, h, d);
    if 0 <= h < 2 * (p.heads / 2) {
      OwnedHead(p, s0, cs, b, q, h, d);
    } else if h >= 2 * (p.heads / 2) {
      R.OddHeadUnwritten(JobOf(p), s0, cs, b, q, h);
    } else {
      R.NoHeadBelow(JobOf(p), s0, cs, b, q, h);
    }
  }
  lemma OwnedHead(p: Problem, s0: A.State, cs: seq<P.Core>, b: int, q: int, h: int, d: int)
    requires Legal(p) && A.Initial(s0) && R.Schedule(JobOf(p), s0, cs)
    requires P.Finished(JobOf(p).n, R.After(JobOf(p), s0, cs).sync)
    requires 0 <= h < 2 * (p.heads / 2)
    ensures var s := R.After(JobOf(p), s0, cs);
      && s.writes(b, q, h) == (if Owned(p, b, q) then 1 else 0)
      && (Owned(p, b, q) ==> s.out(b, q, h, d) == Attention(p, b, q, h, d))
  {
    var g := JobOf(p);
    var s := R.After(g, s0, cs);
    JobLegal(p);
    R.StartKeeps(g, s0);
    R.RunInv(g, s0, cs);
    FinishedHead(p, s, b, q, h, d);
  }
  lemma FinishedHead(p: Problem, s: A.State, b: int, q: int, h: int, d: int)
    requires Legal(p) && J.Legal(JobOf(p)) && SparseInvariant.Inv(JobOf(p), s) && P.Finished(JobOf(p).n, s.sync)
    requires 0 <= h < 2 * (p.heads / 2)
    ensures s.writes(b, q, h) == (if Owned(p, b, q) then 1 else 0)
    ensures Owned(p, b, q) ==> s.out(b, q, h, d) == Attention(p, b, q, h, d)
  {
    var g := JobOf(p);
    var v := if h < g.half then 0 else 1;
    var hl := if v == 0 then h else h - g.half;
    assert SparseInvariant.Head(g, v, hl) == h;
    R.FinishedRun(g, s, v, hl);
    FinishesOwned(p, b, q);
    if Owned(p, b, q) {
      var t := LastTask(p, b, q);
      ResultIsAttention(p, t, h, d);
    }
  }
  lemma FinishesOwned(p: Problem, b: int, q: int)
    requires Legal(p)
    ensures SparseInvariant.Finishes(JobOf(p), JobOf(p).n, b, q) <==> Owned(p, b, q)
  {
    var g := JobOf(p);
    if Owned(p, b, q) { var t := LastTask(p, b, q); }
    if SparseInvariant.Finishes(g, g.n, b, q) {
      var t :| 0 <= t < g.n && g.last(t) && g.bt(t) == b && g.sq(t) == q;
      TaskOwner(p, b, q);
      assert WorksOn(p, t, b, q);
    }
  }
}
