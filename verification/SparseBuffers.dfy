/** What each store and each computation of the sparse attention kernel does to the data invariants,
    stated on single buffers. */
module SparseBuffers {
  import opened Sums
  import opened SparseJob
  import opened SparseAttention
  import opened SparseInvariant

  lemma HeadsApart(g: Job, v: int, u: int, h: int)
    requires IsVid(v) && IsVid(u) && 0 <= h < g.half
    ensures HeadLo(g, u) <= Head(g, v, h) < HeadLo(g, u) + g.half <==> u == v
    ensures Head(g, v, h) - HeadLo(g, v) == h
  {
  }

  /** The halves gathered by the two sub-cores are disjoint and cover the live rows. */
  lemma RowsSplit(g: Job, t: int)
    requires g.tail(t) >= 0
    ensures RowLo(g, t, 0) == 0 && RowHi(g, t, 0) == RowLo(g, t, 1) && RowHi(g, t, 1) == g.tail(t)
    ensures 0 <= RowLo(g, t, 1) <= g.tail(t)
  {
  }

  // ----- workspace kv

  lemma StoreKv(g: Job, ws: Slots, idx: (int, int) -> int, k: int, u: int, v: int, lo: int, hi: int, hi': int)
    requires KvInv(g, ws, v, lo, hi) && IdxOk(g, idx, k) && IsVid(u) && IsVid(v)
    requires k - 1 <= lo && hi' <= k + 2 && (if u == v then hi == k && hi' == k + 1 else hi' == hi) && g.tail(k) >= 0
    ensures KvInv(g, StoreRows(g, ws, idx, k, u), v, lo, hi')
  {
    RowsSplit(g, k);
    forall t | lo <= t < hi'
      ensures KvOk(g, StoreRows(g, ws, idx, k, u), v, t)
    {
      if t == k && u == v {
      } else {
        assert KvOk(g, ws, v, t);
        assert t == k || t % 2 != k % 2;
      }
    }
  }

  lemma LoadKv(g: Job, ws: Slots, l1: Slots, k: int, lo: int, hi: int)
    requires KvOk(g, ws, 0, k) && KvOk(g, ws, 1, k) && L1KvInv(g, l1, lo, k) && k - 1 <= lo && g.tail(k) >= 0
    requires hi == k + 1
    ensures L1KvInv(g, StoreSlot(l1, k % 2, LoadSlot(ws, k % 2)), lo, hi)
  {
    RowsSplit(g, k);
    forall t | lo <= t < hi
      ensures L1KvOk(g, StoreSlot(l1, k % 2, LoadSlot(ws, k % 2)), t)
    {
      if t != k { assert L1KvOk(g, l1, t); }
    }
  }

  // ----- workspace s

  lemma ScoreOfBuffers(g: Job, q: Matrix, l1: Slots, t: int, h: int, j: int)
    requires L1KvOk(g, l1, t) && QueryOk(g, q, t) && ScoresAreDots(g) && 0 <= j < g.tail(t)
    ensures Scores(g, q, l1, t % 2)(h, j) == g.score(t, h, j)
  {
    assert g.score(t, h, j) == Dot(g, t, h, j);
    var f := (d: int) => g.Q(g.bt(t), g.sq(t), h, d) * Gathered(g, t, j, d);
    forall d ensures QkTerms(q, l1, t % 2, h, j)(d) == f(d) {
      assert l1(t % 2, j, d) == Gathered(g, t, j, d);
    }
    SumCongruent(QkTerms(q, l1, t % 2, h, j), f, 0, g.dim);
  }

  lemma StoreScore(g: Job, ws: Slots, q: Matrix, l1: Slots, k: int, lo: int)
    requires ScoreInv(g, ws, lo, k) && k - 1 <= lo
    requires L1KvOk(g, l1, k) && QueryOk(g, q, k) && ScoresAreDots(g)
    ensures ScoreInv(g, StoreSlot(ws, k % 2, Scores(g, q, l1, k % 2)), lo, k + 1)
  {
    forall t | lo <= t < k + 1
      ensures ScoreOk(g, StoreSlot(ws, k % 2, Scores(g, q, l1, k % 2)), t)
    {
      if t == k {
        forall h, j | 0 <= j < g.tail(k) ensures Scores(g, q, l1, k % 2)(h, j) == g.score(k, h, j) {
          ScoreOfBuffers(g, q, l1, k, h, j);
        }
      } else {
        assert ScoreOk(g, ws, t);
      }
    }
  }

  // ----- V1P and workspace p

  /** The masked exponentials are the block's probabilities whatever the stale columns hold. */
  lemma ExpsAreProbs(g: Job, u: Ub, v: int, t: int, h: int, j: int)
    requires CrossScore(g, u.cross, v, t) && IdxOk(g, u.idx, t)
    requires 0 <= h < g.half && 0 <= j < g.block && 0 <= g.tail(t) <= g.block
    ensures Exps(g, u, t)(h, j) == Prob(g, t, Head(g, v, h), NewMax(g, u, t)(h), j)
  {
    assert u.idx(t % 2, j) == g.idx(t, j);
    assert Unmasked(g, u, t, j) <==> Live(g, t, j);
    if Live(g, t, j) {
      assert u.cross(h, j) == g.score(t, Head(g, v, h), j);
    }
  }

  lemma StoreProb(g: Job, ws: Slots, u: Ub, v: int, k: int, lo: int)
    requires IsVid(v) && ProbInv(g, ws, u.maxOf, v, lo, k) && k - 1 <= lo
    requires CrossScore(g, u.cross, v, k) && IdxOk(g, u.idx, k) && 0 <= g.tail(k) <= g.block
    ensures ProbInv(g, StoreHeads(g, ws, k % 2, v, Exps(g, u, k)), RecordMax(u, k, NewMax(g, u, k)), v, lo, k + 1)
  {
    var ws', m' := StoreHeads(g, ws, k % 2, v, Exps(g, u, k)), RecordMax(u, k, NewMax(g, u, k));
    forall t | lo <= t < k + 1
      ensures ProbOk(g, ws', m', v, t)
    {
      forall h, j | 0 <= h < g.half && 0 <= j < g.block
        ensures ws'(t % 2, Head(g, v, h), j) == Prob(g, t, Head(g, v, h), m'(t, h), j)
      {
        HeadsApart(g, v, v, h);
        if t == k {
          ExpsAreProbs(g, u, v, k, h, j);
        } else {
          assert ProbOk(g, ws, u.maxOf, v, t);
        }
      }
    }
  }

  /** The store of the other sub-core goes to other heads. */
  lemma StoreProbOther(g: Job, ws: Slots, e: Matrix, w: int, v: int, m: Matrix, slot: int, lo: int, hi: int)
    requires IsVid(w) && IsVid(v) && w != v && ProbInv(g, ws, m, v, lo, hi)
    ensures ProbInv(g, StoreHeads(g, ws, slot, w, e), m, v, lo, hi)
  {
    forall t | lo <= t < hi
      ensures ProbOk(g, StoreHeads(g, ws, slot, w, e), m, v, t)
    {
      assert ProbOk(g, ws, m, v, t);
      forall h | 0 <= h < g.half
        ensures !(HeadLo(g, w) <= Head(g, v, h) < HeadLo(g, w) + g.half)
      {
        HeadsApart(g, v, w, h);
      }
    }
  }

  // ----- C2P and workspace o

  /** Stale rows of the block are multiplied by probability zero. */
  lemma ProductIsContribution(g: Job, a: Matrix, m: Matrix, l1: Slots, v: int, t: int, h: int, d: int)
    requires L1ProbOk(g, a, m, v, t) && L1KvOk(g, l1, t) && 0 <= h < g.half
    ensures Products(g, a, l1, t % 2)(Head(g, v, h), d) == Contribution(g, t, Head(g, v, h), m(t, h), d)
  {
    var f, f' := PvTerms(a, l1, t % 2, Head(g, v, h), d), ProbTerms(g, t, Head(g, v, h), m(t, h), d);
    forall j | 0 <= j < g.block ensures f(j) == f'(j) {
      assert a(Head(g, v, h), j) == Prob(g, t, Head(g, v, h), m(t, h), j);
      if j < g.tail(t) {
        assert l1(t % 2, j, d) == Gathered(g, t, j, d);
      }
    }
    SumCongruent(f, f', 0, g.block);
  }

  lemma StoreOutput(g: Job, ws: Slots, a: Matrix, m: Matrix, l1: Slots, v: int, k: int, lo: int)
    requires OutInv(g, ws, m, v, lo, k) && k - 1 <= lo && L1ProbOk(g, a, m, v, k) && L1KvOk(g, l1, k)
    ensures OutInv(g, StoreSlot(ws, k % 2, Products(g, a, l1, k % 2)), m, v, lo, k + 1)
  {
    var ws' := StoreSlot(ws, k % 2, Products(g, a, l1, k % 2));
    forall t | lo <= t < k + 1
      ensures OutOk(g, ws', m, v, t)
    {
      if t == k {
        forall h, d | 0 <= h < g.half
          ensures ws'(t % 2, Head(g, v, h), d) == Contribution(g, t, Head(g, v, h), m(t, h), d)
        {
          ProductIsContribution(g, a, m, l1, v, k, h, d);
        }
      } else {
        assert OutOk(g, ws, m, v, t);
      }
    }
  }

  // ----- the buffers of one sub-core

  lemma FillIndices(g: Job, idx: (int, int) -> int, k: int, lo: int)
    requires IdxInv(g, idx, lo, k) && k - 1 <= lo
    ensures IdxInv(g, LoadIndices(g, idx, k), lo, k + 1)
  {
    forall t | lo <= t < k + 1
      ensures IdxOk(g, LoadIndices(g, idx, k), t)
    {
      if t != k { assert IdxOk(g, idx, t); }
    }
  }

  lemma FillScore(g: Job, ws: Slots, v: int, t: int)
    requires ScoreOk(g, ws, t)
    ensures CrossScore(g, LoadHeads(g, ws, t % 2, v), v, t)
  {
  }

  lemma FillOut(g: Job, ws: Slots, m: Matrix, v: int, t: int)
    requires OutOk(g, ws, m, v, t)
    ensures CrossOut(g, LoadHeads(g, ws, t % 2, v), m, v, t)
  {
  }

  lemma FillProb(g: Job, ws: Slots, m: Matrix, v: int, t: int)
    requires ProbOk(g, ws, m, v, t)
    ensures L1ProbOk(g, LoadSlot(ws, t % 2), m, v, t)
  {
  }

  /** V1P leaves the probabilities of task k in the buffer and the new maximum and scale in place. */
  lemma V1P(g: Job, u: Ub, v: int, k: int, lo: int)
    requires CrossScore(g, u.cross, v, k) && IdxOk(g, u.idx, k) && 0 <= g.tail(k) <= g.block
    requires ScaleInv(g, u.scale, u.maxOf, lo, k) && k - 1 <= lo
    requires (k > 0 ==> MaxOk(g, u.max, u.maxOf, k - 1)) && (k == 0 ==> g.first(0)) && k >= 0
    ensures var m := RecordMax(u, k, NewMax(g, u, k));
      && CrossProb(g, Exps(g, u, k), m, v, k)
      && (forall h :: NewMax(g, u, k)(h) == m(k, h))
      && ScaleInv(g, PutRow(u.scale, k % 2, NewScale(g, u, k)), m, lo, k + 1)
  {
    var m, sc := RecordMax(u, k, NewMax(g, u, k)), PutRow(u.scale, k % 2, NewScale(g, u, k));
    forall h, j | 0 <= h < g.half && 0 <= j < g.block
      ensures Exps(g, u, k)(h, j) == Prob(g, k, Head(g, v, h), m(k, h), j)
    {
      ExpsAreProbs(g, u, v, k, h, j);
    }
    forall t | lo <= t < k + 1
      ensures ScaleOk(g, sc, m, t)
    {
      if t != k { assert ScaleOk(g, u.scale, u.maxOf, t); }
    }
  }

  /** Recording the maximum of task k changes nothing said about earlier tasks. */
  lemma RecordKeeps(g: Job, u: Ub, x: int -> real, k: int, v: int, t: int)
    requires t < k
    ensures forall ws: Slots :: OutOk(g, ws, u.maxOf, v, t) ==> OutOk(g, ws, RecordMax(u, k, x), v, t)
    ensures forall a: Matrix :: L1ProbOk(g, a, u.maxOf, v, t) ==> L1ProbOk(g, a, RecordMax(u, k, x), v, t)
    ensures SumOk(g, u.sum, u.sink, u.maxOf, v, t) ==> SumOk(g, u.sum, u.sink, RecordMax(u, k, x), v, t)
  {
    assert forall h :: RecordMax(u, k, x)(t, h) == u.maxOf(t, h);
  }

  lemma RecordKeepsSums(g: Job, u: Ub, x: int -> real, k: int, v: int, lo: int, hi: int)
    requires SumInv(g, u.sum, u.sink, u.maxOf, v, lo, hi) && hi <= k
    ensures SumInv(g, u.sum, u.sink, RecordMax(u, k, x), v, lo, hi)
  {
    forall t | lo <= t < hi
      ensures SumOk(g, u.sum, u.sink, RecordMax(u, k, x), v, t)
    {
      assert SumOk(g, u.sum, u.sink, u.maxOf, v, t);
      RecordKeeps(g, u, x, k, v, t);
    }
  }

  lemma RecordKeepsAcc(g: Job, u: Ub, x: int -> real, k: int, v: int, t: int)
    requires t < k && AccOk(g, u.log, u.acc, u.maxOf, v, t)
    ensures AccOk(g, u.log, u.acc, RecordMax(u, k, x), v, t)
  {
    var m := RecordMax(u, k, x);
    assert forall h :: m(t, h) == u.maxOf(t, h);
  }

  lemma SumsOfProbs(g: Job, u: Ub, v: int, t: int, h: int)
    requires CrossProb(g, u.cross, u.maxOf, v, t) && 0 <= h < g.half
    ensures RowSums(g, u)(h) == ProbSum(g, t, Head(g, v, h), u.maxOf(t, h))
  {
    var f, f' := CrossRow(u, h), Probs(g, t, Head(g, v, h), u.maxOf(t, h));
    forall j | 0 <= j < g.block ensures f(j) == f'(j) {
      assert u.cross(h, j) == Prob(g, t, Head(g, v, h), u.maxOf(t, h), j);
    }
    SumCongruent(f, f', 0, g.block);
  }

  lemma V1Post(g: Job, u: Ub, u': Ub, v: int, k: int, lo: int)
    requires CrossProb(g, u.cross, u.maxOf, v, k) && MaxOk(g, u.max, u.maxOf, k)
    requires SumInv(g, u.sum, u.sink, u.maxOf, v, lo, k) && k - 1 <= lo
    requires u'.sum == PutRow(u.sum, k % 2, RowSums(g, u))
    requires u'.sink == if g.last(k) then PutRow(u.sink, k % 2, SinkTerms(g, u, v)) else u.sink
    ensures SumInv(g, u'.sum, u'.sink, u.maxOf, v, lo, k + 1)
  {
    forall t | lo <= t < k + 1
      ensures SumOk(g, u'.sum, u'.sink, u.maxOf, v, t)
    {
      if t == k {
        forall h | 0 <= h < g.half
          ensures u'.sum(t % 2, h) == ProbSum(g, t, Head(g, v, h), u.maxOf(t, h))
          ensures g.last(t) ==> u'.sink(t % 2, h) == g.E(g.sink(Head(g, v, h)) - u.maxOf(t, h))
        {
          SumsOfProbs(g, u, v, k, h);
        }
      } else {
        assert SumOk(g, u.sum, u.sink, u.maxOf, v, t);
      }
    }
  }

  // ----- V1P: the running maximum

  lemma {:induction false} RowMaxIs(g: Job, x: (int, int) -> real, h: int, k: int)
    requires k >= 1
    ensures forall j :: 0 <= j < k ==> ScaleBy(g.smScale, x(h, j)) <= RowMax(g, x, h, k)
    ensures exists j :: 0 <= j < k && ScaleBy(g.smScale, x(h, j)) == RowMax(g, x, h, k)
    decreases k
  {
    if k == 1 {
      assert ScaleBy(g.smScale, x(h, 0)) == RowMax(g, x, h, 1);
    } else {
      RowMaxIs(g, x, h, k - 1);
      var i :| 0 <= i < k - 1 && ScaleBy(g.smScale, x(h, i)) == RowMax(g, x, h, k - 1);
      var top := if RowMax(g, x, h, k - 1) < ScaleBy(g.smScale, x(h, k - 1)) then k - 1 else i;
      assert ScaleBy(g.smScale, x(h, top)) == RowMax(g, x, h, k);
    }
  }
  /** The new maximum is the largest of the old one and the block's scaled scores, so no exponent is positive. */
  lemma RunningMax(g: Job, u: Ub, t: int, h: int)
    requires g.block >= 1
    ensures forall j :: 0 <= j < g.block ==> ScaleBy(g.smScale, u.cross(h, j)) <= NewMax(g, u, t)(h)
    ensures !g.first(t) ==> u.max(h) <= NewMax(g, u, t)(h)
    ensures (!g.first(t) && NewMax(g, u, t)(h) == u.max(h)) || exists j ::
      0 <= j < g.block && NewMax(g, u, t)(h) == ScaleBy(g.smScale, u.cross(h, j))
  {
    RowMaxIs(g, u.cross, h, g.block);
    var m, top := NewMax(g, u, t)(h), RowMax(g, u.cross, h, g.block);
    assert m == if g.first(t) then top else Max(u.max(h), top);
    var i :| 0 <= i < g.block && ScaleBy(g.smScale, u.cross(h, i)) == top;
    assert m == top ==> m == ScaleBy(g.smScale, u.cross(h, i));
  }

  // ----- V2P: accumulate and normalise

  lemma FoldFirst(E: real -> real, x: real, add: real, m: real, blk: real)
    requires StandsFor(E, add, m, blk)
    ensures StandsFor(E, 0.0 * x + add, m, 0.0 + blk)
  {
  }

  lemma FoldNext(E: real -> real, a: real, m0: real, m: real, add: real, ref0: real, blk: real)
    requires IsExp(E) && StandsFor(E, a, m0, ref0) && StandsFor(E, add, m, blk)
    ensures StandsFor(E, a * E(m0 - m) + add, m, ref0 + blk)
  {
    Rescale(E, a, m0, m, add);
  }

  /** The accumulator of one task on from that of the task before, or from nothing at the first task of a query. */
  lemma Folds(E: real -> real, first: bool, a: real, scale: real, add: real, m0: real, m: real, ref0: real, blk: real)
    requires IsExp(E) && scale == (if first then 0.0 else E(m0 - m)) && StandsFor(E, add, m, blk)
    requires !first ==> StandsFor(E, a, m0, ref0)
    ensures StandsFor(E, (if first then 0.0 else a) * scale + add, m, (if first then 0.0 else ref0) + blk)
  {
    if first { FoldFirst(E, scale, add, m, blk); } else { FoldNext(E, a, m0, m, add, ref0, blk); }
  }
  lemma LogTerm(g: Job, u: Ub, v: int, t: int, h: int)
    requires IsExp(g.E) && 0 <= g.tail(t) <= g.block && 0 <= h < g.half && SumOk(g, u.sum, u.sink, u.maxOf, v, t)
    ensures StandsFor(g.E, u.sum(t % 2, h), u.maxOf(t, h), BlockDen(g, t, Head(g, v, h)))
  {
    ProbSumIsDen(g, t, Head(g, v, h), u.maxOf(t, h));
  }
  lemma NewLogOk(g: Job, u: Ub, v: int, t: int, h: int)
    requires IsExp(g.E) && 0 <= g.tail(t) <= g.block && 0 <= h < g.half && t >= 0 && (t == 0 ==> g.first(0))
    requires ScaleOk(g, u.scale, u.maxOf, t) && SumOk(g, u.sum, u.sink, u.maxOf, v, t)
    requires !g.first(t) ==> StandsFor(g.E, u.log(h), u.maxOf(t - 1, h), Den(g, t - 1, Head(g, v, h)))
    ensures StandsFor(g.E, NewLog(g, u, t)(h), u.maxOf(t, h), Den(g, t, Head(g, v, h)))
  {
    var hh := Head(g, v, h);
    LogTerm(g, u, v, t, h);
    Folds(g.E, g.first(t), u.log(h), u.scale(t % 2, h), u.sum(t % 2, h), u.maxOf(t - 1, h), u.maxOf(t, h),
          Den(g, t - 1, hh), BlockDen(g, t, hh));
  }

  lemma AccTerm(g: Job, u: Ub, v: int, t: int, h: int, d: int)
    requires IsExp(g.E) && 0 <= g.tail(t) <= g.block && 0 <= h < g.half && CrossOut(g, u.cross, u.maxOf, v, t)
    ensures StandsFor(g.E, u.cross(h, d), u.maxOf(t, h), BlockNum(g, t, Head(g, v, h), d))
  {
    ContributionIsNum(g, t, Head(g, v, h), u.maxOf(t, h), d);
  }
  lemma NewAccOk(g: Job, u: Ub, v: int, t: int, h: int, d: int)
    requires IsExp(g.E) && 0 <= g.tail(t) <= g.block && 0 <= h < g.half && t >= 0 && (t == 0 ==> g.first(0))
    requires ScaleOk(g, u.scale, u.maxOf, t) && CrossOut(g, u.cross, u.maxOf, v, t)
    requires !g.first(t) ==> StandsFor(g.E, u.acc(h, d), u.maxOf(t - 1, h), Num(g, t - 1, Head(g, v, h), d))
    ensures StandsFor(g.E, NewAcc(g, u, t)(h, d), u.maxOf(t, h), Num(g, t, Head(g, v, h), d))
  {
    var hh := Head(g, v, h);
    AccTerm(g, u, v, t, h, d);
    Folds(g.E, g.first(t), u.acc(h, d), u.scale(t % 2, h), u.cross(h, d), u.maxOf(t - 1, h), u.maxOf(t, h),
          Num(g, t - 1, hh, d), BlockNum(g, t, hh, d));
  }

  lemma NormalisedOk(g: Job, u: Ub, hh: int, t: int, h: int, d: int)
    requires IsExp(g.E) && u.sink(t % 2, h) == g.E(g.sink(hh) - u.maxOf(t, h))
    requires StandsFor(g.E, NewLog(g, u, t)(h), u.maxOf(t, h), Den(g, t, hh))
    requires StandsFor(g.E, NewAcc(g, u, t)(h, d), u.maxOf(t, h), Num(g, t, hh, d))
    ensures Divide(NewAcc(g, u, t), AddSink(u, NewLog(g, u, t), t % 2))(h, d) == Result(g, t, hh, d)
  {
    DenNonNegative(g, t, hh);
    Normalize(g.E, NewAcc(g, u, t)(h, d), NewLog(g, u, t)(h), g.sink(hh), u.maxOf(t, h), Num(g, t, hh, d),
              Den(g, t, hh));
  }
}
