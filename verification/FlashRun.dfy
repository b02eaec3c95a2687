/** The flash attention kernel as it runs: the protocol of the three cores carrying the blocks that the loops
    compute. */
module FlashRun {
  import opened Arith
  import opened Sums
  import opened FlashAttention
  import opened FlashLaunch
  import P = FlashProtocol

  /** A block of scores, probabilities, products or output rows, by row of the matrix and column of the block. */
  type Block = (int, int) -> real

  /** Block cid of a launch: n keys in blocks of b, rows in blocks of bm; buffer(s, r) is what the score buffer of
      sub-core s holds at launch in row r. */
  datatype Kernel = Kernel(n: int, b: int, bm: int, cid: int, dim: int, scale: real, E: real -> real,
                           q: Block, k: Block, v: Block, buffer: (int, int) -> Vec)
  ghost predicate LegalKernel(x: Kernel) { x.n >= 1 && x.b >= 1 && x.bm >= 1 && x.dim >= 1 && IsExp(x.E) }

  /** The sub-core that owns row r. */
  function Sub(x: Kernel, r: int): int
    requires x.bm >= 1
  {
    if r % x.bm < (TailM(x.n, x.bm, x.cid) + 1) / 2 then 0 else 1
  }

  // ----- what the cores compute, block by block

  function LaneOf(x: Kernel): Lane { Lane(x.b, Times(x.scale), x.E) }
  function RowScores(x: Kernel, r: int): Vec { Scores(RowOf(x.q, r), x.k, x.dim) }
  function ScoreAt(x: Kernel, i: int, r: int, j: int): real { RowScores(x, r)(Offsets(x.n, x.b)(i) + j) }
  function ScoreBlock(x: Kernel, i: int): Block { (r: int, j: int) => ScoreAt(x, i, r, j) }

  function RowCol(s: Block, r: int): Vec { (j: int) => s(r, j) }
  function ColsOf(h: seq<Block>, r: int): seq<Vec> { seq(|h|, i requires 0 <= i < |h| => RowCol(h[i], r)) }
  function RunOf(x: Kernel, v: int, h: seq<Block>, r: int): First {
    FirstRun(LaneOf(x), Tails(x.n, x.b), ColsOf(h, r), x.buffer(v, r))
  }
  function ProbAt(x: Kernel, v: int, h: seq<Block>, r: int, j: int): real { RunOf(x, v, h, r).f16(j) }
  function ProbBlock(x: Kernel, v: int, h: seq<Block>): Block { (r: int, j: int) => ProbAt(x, v, h, r, j) }

  function ProdTerms(x: Kernel, i: int, p: Block, r: int, d: int): Vec {
    (j: int) => p(r, j) * x.v(Offsets(x.n, x.b)(i) + j, d)
  }
  /** The Cube multiplies the rows as they lie in the workspace, each written by its owner. */
  function Side(x: Kernel, r: int, lower: Block, upper: Block): Block
    requires x.bm >= 1
  {
    if Sub(x, r) == 0 then lower else upper
  }
  function ProdAt(x: Kernel, i: int, lower: Block, upper: Block, r: int, d: int): real
    requires x.bm >= 1
  {
    Sum(ProdTerms(x, i, Side(x, r, lower, upper), r, d), 0, Tails(x.n, x.b)(i))
  }
  function ProdBlock(x: Kernel, i: int, lower: Block, upper: Block): Block
    requires x.bm >= 1
  {
    (r: int, d: int) => ProdAt(x, i, lower, upper, r, d)
  }
  function OutAt(x: Kernel, v: int, h: seq<Block>, o: seq<Block>, r: int, d: int): real {
    if |o| == |h| then RowOut(LaneOf(x), Tails(x.n, x.b), ColsOf(h, r), x.buffer(v, r), ColsOf(o, r))(d) else 0.0
  }
  function OutBlock(x: Kernel, v: int, h: seq<Block>, o: seq<Block>): Block {
    (r: int, d: int) => OutAt(x, v, h, o, r, d)
  }

  function Blocks(x: Kernel): nat
    requires x.n >= 1 && x.b >= 1
  {
    SomeBlock(x.n, x.b);
    CeilDiv(x.n, x.b)
  }
  function KernelJob(x: Kernel): P.Job<Block, Block, Block, Block>
    requires x.n >= 1 && x.b >= 1 && x.bm >= 1
  {
    P.Job(Blocks(x), (i: int) => ScoreBlock(x, i), (v: int, h: seq<Block>) => ProbBlock(x, v, h),
          (i: int, lower: Block, upper: Block) => ProdBlock(x, i, lower, upper),
          (v: int, h: seq<Block>, o: seq<Block>) => OutBlock(x, v, h, o))
  }

  // ----- one row of it

  function RowJobOf(x: Kernel, r: int): RowJob
    requires x.b >= 1
  {
    JobOf(x.n, x.b, x.scale, x.E, RowScores(x, r), x.v)
  }
  lemma RowLoads(x: Kernel, r: int)
    requires LegalKernel(x)
    ensures LoadsAll(RowJobOf(x, r), ColsOf(P.ScoresOf(KernelJob(x), Blocks(x)), r))
  {
    var c, h := RowJobOf(x, r), P.ScoresOf(KernelJob(x), Blocks(x));
    var cols := ColsOf(h, r);
    forall i | 0 <= i < |cols| ensures Loads(c, i, cols[i]) {
      forall j | 0 <= j < c.tail(i) ensures cols[i](j) == c.score(c.off(i) + j) {
        assert h[i] == ScoreBlock(x, i) && cols[i] == RowCol(h[i], r);
        assert cols[i](j) == ScoreAt(x, i, r, j);
      }
    }
  }
  lemma ScoresPrefix(x: Kernel, r: int, i: nat)
    requires LegalKernel(x) && i < Blocks(x)
    ensures var g := KernelJob(x);
            ColsOf(P.ScoresOf(g, i + 1), r) == ColsOf(P.ScoresOf(g, Blocks(x)), r)[..i + 1]
  {
    var g := KernelJob(x);
    var a, b := P.ScoresOf(g, i + 1), P.ScoresOf(g, Blocks(x));
    assert forall k :: 0 <= k < i + 1 ==> a[k] == b[k];
    assert forall k :: 0 <= k < i + 1 ==> ColsOf(a, r)[k] == RowCol(a[k], r) && ColsOf(b, r)[k] == RowCol(b[k], r);
  }
  /** The Cube's product for block i, in row r, is that of the owner's probabilities. */
  lemma RowProduct(x: Kernel, r: int, i: nat, d: int)
    requires LegalKernel(x) && i < Blocks(x)
    ensures var g, v := KernelJob(x), Sub(x, r);
            var a := RunOf(x, v, P.ScoresOf(g, Blocks(x)), r);
            i < |a.probs| && P.ProdOf(g, i)(r, d) == Product(RowJobOf(x, r), a.probs[i], i)(d)
  {
    var g, v, c := KernelJob(x), Sub(x, r), RowJobOf(x, r);
    var cols := ColsOf(P.ScoresOf(g, Blocks(x)), r);
    var a := RunOf(x, v, P.ScoresOf(g, Blocks(x)), r);
    RunPrefix(LaneOf(x), Tails(x.n, x.b), cols, x.buffer(v, r), i);
    ScoresPrefix(x, r, i);
    var p := P.ProbOf(g, v, i);
    assert p == ProbBlock(x, v, P.ScoresOf(g, i + 1));
    forall j ensures p(r, j) == a.probs[i](j) { assert p(r, j) == ProbAt(x, v, P.ScoresOf(g, i + 1), r, j); }
    assert Side(x, r, P.ProbOf(g, 0, i), P.ProbOf(g, 1, i)) == p;
    assert P.ProdOf(g, i)(r, d) == ProdAt(x, i, P.ProbOf(g, 0, i), P.ProbOf(g, 1, i), r, d);
    SameProduct(x, r, i, d, p, a.probs[i]);
  }
  lemma SameProduct(x: Kernel, r: int, i: nat, d: int, p: Block, q: Vec)
    requires LegalKernel(x) && forall j :: p(r, j) == q(j)
    ensures Sum(ProdTerms(x, i, p, r, d), 0, Tails(x.n, x.b)(i)) == Product(RowJobOf(x, r), q, i)(d)
  {
    var f, g := ProdTerms(x, i, p, r, d), ProductTerms(RowJobOf(x, r), q, i, d);
    forall j ensures f(j) == g(j) { assert p(r, j) == q(j); }
    SumCongruent(f, g, 0, Tails(x.n, x.b)(i));
  }
  lemma RowMultiplied(x: Kernel, r: int)
    requires LegalKernel(x)
    ensures var g := KernelJob(x);
            AllMultiplied(RowJobOf(x, r), RunOf(x, Sub(x, r), P.ScoresOf(g, Blocks(x)), r),
                          ColsOf(P.ProdsOf(g, Blocks(x)), r))
  {
    var g, c := KernelJob(x), RowJobOf(x, r);
    var a, o := RunOf(x, Sub(x, r), P.ScoresOf(g, Blocks(x)), r), P.ProdsOf(g, Blocks(x));
    var prods := ColsOf(o, r);
    forall i | 0 <= i < |prods| ensures Multiplied(c, a, i, prods[i]) {
      forall d ensures prods[i](d) == Product(c, a.probs[i], i)(d) {
        RowProduct(x, r, i, d);
        assert prods[i] == RowCol(o[i], r) && o[i] == P.ProdOf(g, i);
      }
    }
  }

  /** Every finished run, in every interleaving of the three cores and from any buffer contents: row r is owned by
      exactly one sub-core, and what that one has written is softmax(Q K^T scale) V if and only if block_n divides
      seq_len or the weighted sum is zero. */
  lemma RunComputesAttention(x: Kernel, tr: seq<P.State<Block, Block, Block, Block>>, who: seq<P.Core>, r: int, d: int)
    requires LegalKernel(x) && P.Run(KernelJob(x), tr, who) && P.Finished(KernelJob(x), tr[|who|])
    requires 0 <= r < x.n && r / x.bm == x.cid
    ensures Launched(x.n, x.bm, x.cid, Sub(x, r))
    ensures forall s :: 0 <= s < 2 ==> (Owns(x.n, x.bm, x.cid, s, r) <==> s == Sub(x, r))
    ensures tr[|who|].out(Sub(x, r))(r, d) == Expected(x.n, x.scale, x.E, x.q, x.k, x.v, x.dim, r, d)
            <==> x.n % x.b == 0 || WeightedSum(x.n, x.scale, x.E, x.q, x.k, x.v, x.dim, r, d) == 0.0
  {
    RowLaunched(x, r);
    P.FinishedRun(KernelJob(x), tr, who, Sub(x, r));
    RowWritten(x, r, d);
  }
  lemma RowLaunched(x: Kernel, r: int)
    requires LegalKernel(x) && 0 <= r < x.n && r / x.bm == x.cid
    ensures Launched(x.n, x.bm, x.cid, Sub(x, r))
    ensures forall s :: 0 <= s < 2 ==> (Owns(x.n, x.bm, x.cid, s, r) <==> s == Sub(x, r))
  {
    DivBelow(r, x.bm, 0);
    DivModLaw(r, x.bm);
    DivBelow(x.n + x.bm - 1, x.bm, r / x.bm + 1);
    assert (r / x.bm + 1) * x.bm == r / x.bm * x.bm + x.bm;
    forall s | 0 <= s < 2
      ensures Owns(x.n, x.bm, x.cid, s, r) <==> s == Sub(x, r)
    {
      RowOwnedOnce(x.n, x.bm, r, x.cid, s);
    }
  }
  lemma RowWritten(x: Kernel, r: int, d: int)
    requires LegalKernel(x)
    ensures P.FinalOf(KernelJob(x), Sub(x, r))(r, d) == Expected(x.n, x.scale, x.E, x.q, x.k, x.v, x.dim, r, d)
            <==> x.n % x.b == 0 || WeightedSum(x.n, x.scale, x.E, x.q, x.k, x.v, x.dim, r, d) == 0.0
  {
    var g, v, c := KernelJob(x), Sub(x, r), RowJobOf(x, r);
    var h, o := P.ScoresOf(g, Blocks(x)), P.ProdsOf(g, Blocks(x));
    JobLegal(x.n, x.b, x.scale, x.E, RowScores(x, r), x.v);
    RowLoads(x, r);
    RowMultiplied(x, r);
    RowIsAttention(c, ColsOf(h, r), x.buffer(v, r), ColsOf(o, r), d);
    assert P.FinalOf(g, v)(r, d) == OutAt(x, v, h, o, r, d);
    AttentionIs(x.n, x.b, x.scale, x.E, x.q, x.k, x.v, x.dim, r, d);
  }
}
