/** The sparse attention kernel over whole runs: the invariant holds in every interleaving, no run gets
    stuck, and a finished run has written every output row of the core exactly once with the right value. */
module SparseRuns {
  import opened Sums
  import opened SparseJob
  import opened SparseProtocol
  import opened SparseAttention
  import opened SparseInvariant
  import opened SparseBuffers

  // ----- Cube steps

  lemma CubeKeepsScore(g: Job, s: State, v: int)
    requires Lined(g.n, s.sync) && IsVid(v) && Enabled(g.n, s.sync, Cube) && ScoresAreDots(g) && CubeInv(g, s)
    requires ScoreInv(g, s.wsS, VecOne(g.n, s.sync, v, V1L_COPY), CubeFirst(g.n, s.sync, C1S_COPY))
    ensures var z := CubeStep(g, s);
      ScoreInv(g, z.wsS, VecOne(g.n, z.sync, v, V1L_COPY), CubeFirst(g.n, z.sync, C1S_COPY))
  {
    CubeCopies(g.n, s.sync);
    if s.sync.cube.phase == C1S_COPY {
      var t := s.sync.cube.stream;
      SlotIsFree(g.n, s.sync, v, v);
      assert L1KvOk(g, s.l1Kv, t) && QueryOk(g, s.l1Q, t);
      StoreScore(g, s.wsS, s.l1Q, s.l1Kv, t, VecOne(g.n, s.sync, v, V1L_COPY));
    }
  }

  lemma CubeKeepsOut(g: Job, s: State, v: int)
    requires Lined(g.n, s.sync) && IsVid(v) && Enabled(g.n, s.sync, Cube) && CubeInv(g, s)
    requires OutInv(g, s.wsO, s.ub(v).maxOf, v, VecTwo(g.n, s.sync, v, V2L_COPY), CubeSecond(g.n, s.sync, C2S_COPY))
    ensures var z := CubeStep(g, s);
      OutInv(g, z.wsO, z.ub(v).maxOf, v, VecTwo(g.n, z.sync, v, V2L_COPY), CubeSecond(g.n, z.sync, C2S_COPY))
  {
    CubeCopies(g.n, s.sync);
    if s.sync.cube.phase == C2S_COPY {
      var t := CubeTask(s.sync.cube);
      SlotIsFree(g.n, s.sync, v, v);
      assert L1KvOk(g, s.l1Kv, t);
      StoreOutput(g, s.wsO, s.l1P, s.ub(v).maxOf, s.l1Kv, v, t, VecTwo(g.n, s.sync, v, V2L_COPY));
    }
  }

  lemma CubeKeepsShared(g: Job, s: State, v: int)
    requires Lined(g.n, s.sync) && IsVid(v) && Enabled(g.n, s.sync, Cube)
    requires ScoresAreDots(g) && SharedInv(g, s, v) && CubeInv(g, s)
    ensures SharedInv(g, CubeStep(g, s), v)
  {
    CubeKeepsScore(g, s, v);
    CubeKeepsOut(g, s, v);
    CubeCopies(g.n, s.sync);
    var z := CubeStep(g, s);
    assert z.wsKv == s.wsKv && z.wsP == s.wsP && z.ub == s.ub;
  }

  lemma CubeKeepsL1Kv(g: Job, s: State)
    requires Lined(g.n, s.sync) && Enabled(g.n, s.sync, Cube) && Tails(g)
    requires SharedInv(g, s, 0) && SharedInv(g, s, 1)
    requires L1KvInv(g, s.l1Kv, CubeSecond(g.n, s.sync, C2S_COPY), CubeFirst(g.n, s.sync, C1L_COPY))
    ensures var z := CubeStep(g, s);
      L1KvInv(g, z.l1Kv, CubeSecond(g.n, z.sync, C2S_COPY), CubeFirst(g.n, z.sync, C1L_COPY))
  {
    CubeCopies(g.n, s.sync);
    if s.sync.cube.phase == C1L_COPY {
      var t := s.sync.cube.stream;
      SlotIsFull(g.n, s.sync, 0);
      SlotIsFull(g.n, s.sync, 1);
      assert KvOk(g, s.wsKv, 0, t) && KvOk(g, s.wsKv, 1, t);
      LoadKv(g, s.wsKv, s.l1Kv, t, CubeSecond(g.n, s.sync, C2S_COPY), t + 1);
    }
  }

  lemma CubeKeepsQuery(g: Job, s: State)
    requires Lined(g.n, s.sync) && Enabled(g.n, s.sync, Cube) && Streams(g)
    requires var m := CubeFirst(g.n, s.sync, C1L_WAIT); m > 0 ==> QueryOk(g, s.l1Q, m - 1)
    ensures var z := CubeStep(g, s); var m := CubeFirst(g.n, z.sync, C1L_WAIT); m > 0 ==> QueryOk(g, z.l1Q, m - 1)
  {
    CubeCopies(g.n, s.sync);
    var t := s.sync.cube.stream;
    if s.sync.cube.phase == C1L_WAIT && t < g.n && !g.first(t) {
      assert SameQuery(g, t);
    }
  }

  /** What the Cube is about to load has been stored by sub-core v. */
  lemma ProbThere(g: Job, s: State, v: int, t: int)
    requires CubePcOk(g.n, s.sync.cube) && Ordered(g.n, s.sync, v) && SharedInv(g, s, v)
    requires s.sync.cube.phase == C2L_COPY && t == CubeTask(s.sync.cube)
    ensures ProbOk(g, s.wsP, s.ub(v).maxOf, v, t)
  {
    SlotIsFull(g.n, s.sync, v);
  }
  lemma CubeKeepsL1P(g: Job, s: State)
    requires Lined(g.n, s.sync) && Enabled(g.n, s.sync, Cube)
    requires SharedInv(g, s, 0) && SharedInv(g, s, 1)
    ensures var z := CubeStep(g, s); z.sync.cube.phase == C2S_COPY ==>
      && L1ProbOk(g, z.l1P, z.ub(0).maxOf, 0, CubeTask(z.sync.cube))
      && L1ProbOk(g, z.l1P, z.ub(1).maxOf, 1, CubeTask(z.sync.cube))
  {
    if s.sync.cube.phase == C2L_COPY {
      var t := CubeTask(s.sync.cube);
      ProbThere(g, s, 0, t);
      ProbThere(g, s, 1, t);
      FillProb(g, s.wsP, s.ub(0).maxOf, 0, t);
      FillProb(g, s.wsP, s.ub(1).maxOf, 1, t);
    }
  }

  lemma CubeKeepsRest(g: Job, s: State, v: int)
    requires IsExp(g.E) && UbInv(g, s.ub(v), s.sync.vec(v), v) && ResultInv(g, s, v)
    ensures var z := CubeStep(g, s); UbInv(g, z.ub(v), z.sync.vec(v), v) && ResultInv(g, z, v)
  {
    var z := CubeStep(g, s);
    assert z.ub == s.ub && z.sync.vec == s.sync.vec && z.out == s.out && z.writes == s.writes;
  }

  // ----- Vector steps: the workspaces

  lemma KvField(g: Job, s: State, u: int)
    ensures var z, pc := VecStep(g, s, u), s.sync.vec(u);
      z.wsKv == if pc.phase == V0S_COPY && !VecSkips(g.n, pc)
                then StoreRows(g, s.wsKv, LoadIndices(g, s.ub(u).idx, VecTask(pc)), VecTask(pc), u) else s.wsKv
  {
  }
  lemma StoresKv(g: Job, s: State, v: int, u: int)
    requires Lined(g.n, s.sync) && IsVid(v) && IsVid(u) && Enabled(g.n, s.sync, Vector(u)) && Tails(g)
    requires s.sync.vec(u).phase == V0S_COPY && s.sync.vec(u).stream < g.n
    requires KvInv(g, s.wsKv, v, CubeFirst(g.n, s.sync, C1L_COPY), VecZero(g.n, s.sync, v, V0S_COPY))
    ensures var t := s.sync.vec(u).stream;
      KvInv(g, StoreRows(g, s.wsKv, LoadIndices(g, s.ub(u).idx, t), t, u), v, CubeFirst(g.n, s.sync, C1L_COPY),
            VecZero(g.n, Step(g.n, s.sync, Vector(u)), v, V0S_COPY))
  {
    var t := s.sync.vec(u).stream;
    var idx := LoadIndices(g, s.ub(u).idx, t);
    VecCopies(g.n, s.sync, u);
    SlotIsFree(g.n, s.sync, v, u);
    assert IdxOk(g, idx, t);
    StoreKv(g, s.wsKv, idx, t, u, v, CubeFirst(g.n, s.sync, C1L_COPY),
            VecZero(g.n, s.sync, v, V0S_COPY), VecZero(g.n, Step(g.n, s.sync, Vector(u)), v, V0S_COPY));
  }
  lemma VecKeepsKv(g: Job, s: State, v: int, u: int)
    requires Lined(g.n, s.sync) && IsVid(v) && IsVid(u) && Enabled(g.n, s.sync, Vector(u)) && Tails(g)
    requires KvInv(g, s.wsKv, v, CubeFirst(g.n, s.sync, C1L_COPY), VecZero(g.n, s.sync, v, V0S_COPY))
    ensures var z := VecStep(g, s, u);
      KvInv(g, z.wsKv, v, CubeFirst(g.n, z.sync, C1L_COPY), VecZero(g.n, z.sync, v, V0S_COPY))
  {
    VecCopies(g.n, s.sync, u);
    NextSync(g, s, Vector(u));
    KvField(g, s, u);
    if s.sync.vec(u).phase == V0S_COPY && s.sync.vec(u).stream < g.n { StoresKv(g, s, v, u); }
  }

  lemma VecWritesNeither(g: Job, s: State, u: int)
    ensures VecStep(g, s, u).wsS == s.wsS && VecStep(g, s, u).wsO == s.wsO
  {
  }
  lemma ScoreWindow(n: nat, y: Sync, v: int, u: int)
    requires VecPcOk(n, y.vec(u)) && !VecDone(n, y.vec(u))
    ensures var z := Step(n, y, Vector(u));
      VecOne(n, y, v, V1L_COPY) <= VecOne(n, z, v, V1L_COPY) && CubeFirst(n, z, C1S_COPY) == CubeFirst(n, y, C1S_COPY)
  {
    VecCopies(n, y, u);
  }
  lemma VecKeepsScore(g: Job, s: State, v: int, u: int)
    requires Lined(g.n, s.sync) && IsVid(v) && IsVid(u) && Enabled(g.n, s.sync, Vector(u))
    requires ScoreInv(g, s.wsS, VecOne(g.n, s.sync, v, V1L_COPY), CubeFirst(g.n, s.sync, C1S_COPY))
    ensures var z := VecStep(g, s, u);
      ScoreInv(g, z.wsS, VecOne(g.n, z.sync, v, V1L_COPY), CubeFirst(g.n, z.sync, C1S_COPY))
  {
    ScoreWindow(g.n, s.sync, v, u);
    NextSync(g, s, Vector(u));
    VecWritesNeither(g, s, u);
  }

  lemma ProbFields(g: Job, s: State, u: int)
    ensures var z, pc := VecStep(g, s, u), s.sync.vec(u);
      if pc.phase == V1S_COPY && !VecSkips(g.n, pc)
      then z.wsP == StoreHeads(g, s.wsP, VecTask(pc) % 2, u, Exps(g, s.ub(u), VecTask(pc))) &&
        z.ub(u) == AfterV1P(g, s.ub(u), VecTask(pc))
      else z.wsP == s.wsP && z.ub(u).maxOf == s.ub(u).maxOf
    ensures forall v :: v != u ==> VecStep(g, s, u).ub(v) == s.ub(v)
  {
  }
  lemma StoresProb(g: Job, s: State, v: int, u: int)
    requires Lined(g.n, s.sync) && IsVid(v) && IsVid(u) && Enabled(g.n, s.sync, Vector(u)) && Tails(g)
    requires UbInv(g, s.ub(u), s.sync.vec(u), u) && s.sync.vec(u).phase == V1S_COPY
    requires ProbInv(g, s.wsP, s.ub(v).maxOf, v, CubeSecond(g.n, s.sync, C2L_COPY), VecOne(g.n, s.sync, v, V1S_COPY))
    ensures var t := VecTask(s.sync.vec(u));
      ProbInv(g, StoreHeads(g, s.wsP, t % 2, u, Exps(g, s.ub(u), t)),
              if u == v then AfterV1P(g, s.ub(u), t).maxOf else s.ub(v).maxOf, v, CubeSecond(g.n, s.sync, C2L_COPY),
              if u == v then t + 1 else VecOne(g.n, s.sync, v, V1S_COPY))
  {
    var t := VecTask(s.sync.vec(u));
    VecCopies(g.n, s.sync, u);
    SlotIsFree(g.n, s.sync, v, u);
    assert IdxOk(g, s.ub(u).idx, t);
    if u == v {
      StoreProb(g, s.wsP, s.ub(u), v, t, CubeSecond(g.n, s.sync, C2L_COPY));
    } else {
      StoreProbOther(g, s.wsP, Exps(g, s.ub(u), t), u, v, s.ub(v).maxOf, t % 2,
                     CubeSecond(g.n, s.sync, C2L_COPY), VecOne(g.n, s.sync, v, V1S_COPY));
    }
  }
  lemma VecKeepsProb(g: Job, s: State, v: int, u: int)
    requires Lined(g.n, s.sync) && IsVid(v) && IsVid(u) && Enabled(g.n, s.sync, Vector(u)) && Tails(g)
    requires UbInv(g, s.ub(u), s.sync.vec(u), u)
    requires ProbInv(g, s.wsP, s.ub(v).maxOf, v, CubeSecond(g.n, s.sync, C2L_COPY), VecOne(g.n, s.sync, v, V1S_COPY))
    ensures var z := VecStep(g, s, u);
      ProbInv(g, z.wsP, z.ub(v).maxOf, v, CubeSecond(g.n, z.sync, C2L_COPY), VecOne(g.n, z.sync, v, V1S_COPY))
  {
    VecCopies(g.n, s.sync, u);
    NextSync(g, s, Vector(u));
    ProbFields(g, s, u);
    if s.sync.vec(u).phase == V1S_COPY { StoresProb(g, s, v, u); }
  }

  /** Recording a new maximum only concerns a task whose probabilities the Cube has not seen yet. */
  lemma MaxIsNew(n: nat, y: Sync, v: int)
    requires CubePcOk(n, y.cube) && Ordered(n, y, v) && y.vec(v).phase == V1S_COPY
    ensures CubeSecond(n, y, C2S_COPY) <= VecTask(y.vec(v))
    ensures y.cube.phase == C2S_COPY ==> CubeTask(y.cube) < VecTask(y.vec(v))
  {
  }

  lemma OutKept(g: Job, ws: Slots, b: Ub, v: int, k: int, lo: int, hi: int, hi2: int)
    requires OutInv(g, ws, b.maxOf, v, lo, hi) && hi <= k && hi2 <= hi
    ensures OutInv(g, ws, AfterV1P(g, b, k).maxOf, v, lo, hi2)
  {
    forall t | lo <= t < hi2 ensures OutOk(g, ws, AfterV1P(g, b, k).maxOf, v, t) {
      assert OutOk(g, ws, b.maxOf, v, t);
      RecordKeeps(g, b, NewMax(g, b, k), k, v, t);
    }
  }
  lemma VecKeepsOut(g: Job, s: State, v: int, u: int)
    requires Lined(g.n, s.sync) && IsVid(v) && IsVid(u) && Enabled(g.n, s.sync, Vector(u))
    requires OutInv(g, s.wsO, s.ub(v).maxOf, v, VecTwo(g.n, s.sync, v, V2L_COPY), CubeSecond(g.n, s.sync, C2S_COPY))
    ensures var z := VecStep(g, s, u);
      OutInv(g, z.wsO, z.ub(v).maxOf, v, VecTwo(g.n, z.sync, v, V2L_COPY), CubeSecond(g.n, z.sync, C2S_COPY))
  {
    VecCopies(g.n, s.sync, u);
    NextSync(g, s, Vector(u));
    ProbFields(g, s, u);
    var z, k := VecStep(g, s, u), VecTask(s.sync.vec(u));
    assert z.wsO == s.wsO;
    if u == v && s.sync.vec(u).phase == V1S_COPY && !VecSkips(g.n, s.sync.vec(u)) {
      MaxIsNew(g.n, s.sync, v);
      OutKept(g, s.wsO, s.ub(v), v, k, VecTwo(g.n, s.sync, v, V2L_COPY), CubeSecond(g.n, s.sync, C2S_COPY),
              CubeSecond(g.n, z.sync, C2S_COPY));
    }
  }

  lemma VecKeepsShared(g: Job, s: State, v: int, u: int)
    requires Lined(g.n, s.sync) && IsVid(v) && IsVid(u) && Enabled(g.n, s.sync, Vector(u)) && Tails(g)
    requires SharedInv(g, s, v) && UbInv(g, s.ub(u), s.sync.vec(u), u)
    ensures SharedInv(g, VecStep(g, s, u), v)
  {
    VecKeepsKv(g, s, v, u);
    VecKeepsScore(g, s, v, u);
    VecKeepsProb(g, s, v, u);
    VecKeepsOut(g, s, v, u);
  }

  lemma VecKeepsL1P(g: Job, s: State, u: int, w: int, t: int)
    requires IsVid(u) && L1ProbOk(g, s.l1P, s.ub(w).maxOf, w, t)
    requires s.sync.vec(u).phase == V1S_COPY ==> t < VecTask(s.sync.vec(u))
    ensures L1ProbOk(g, VecStep(g, s, u).l1P, VecStep(g, s, u).ub(w).maxOf, w, t)
  {
    var z, k := VecStep(g, s, u), VecTask(s.sync.vec(u));
    assert z.l1P == s.l1P;
    if u == w && s.sync.vec(u).phase == V1S_COPY {
      RecordKeeps(g, s.ub(u), NewMax(g, s.ub(u), k), k, u, t);
    }
  }

  lemma VecKeepsL1Ps(g: Job, s: State, u: int)
    requires Lined(g.n, s.sync) && IsVid(u) && Enabled(g.n, s.sync, Vector(u)) && CubeInv(g, s)
    requires s.sync.cube.phase == C2S_COPY
    ensures var z, t := VecStep(g, s, u), CubeTask(s.sync.cube);
      L1ProbOk(g, z.l1P, z.ub(0).maxOf, 0, t) && L1ProbOk(g, z.l1P, z.ub(1).maxOf, 1, t)
  {
    if s.sync.vec(u).phase == V1S_COPY { MaxIsNew(g.n, s.sync, u); }
    VecKeepsL1P(g, s, u, 0, CubeTask(s.sync.cube));
    VecKeepsL1P(g, s, u, 1, CubeTask(s.sync.cube));
  }
  /** What the Cube holds depends on its own position and buffers, and on the recorded maxima. */
  lemma CubeInvKept(g: Job, s: State, z: State)
    requires CubeInv(g, s) && z.sync.cube == s.sync.cube && z.l1Kv == s.l1Kv && z.l1Q == s.l1Q
    requires var t := CubeTask(s.sync.cube);
      s.sync.cube.phase == C2S_COPY ==>
        L1ProbOk(g, z.l1P, z.ub(0).maxOf, 0, t) && L1ProbOk(g, z.l1P, z.ub(1).maxOf, 1, t)
    ensures CubeInv(g, z)
  {
  }
  lemma VecLeavesCube(g: Job, s: State, u: int)
    ensures var z := VecStep(g, s, u); z.sync.cube == s.sync.cube && z.l1Kv == s.l1Kv && z.l1Q == s.l1Q
  {
  }
  lemma VecKeepsCube(g: Job, s: State, u: int)
    requires Lined(g.n, s.sync) && IsVid(u) && Enabled(g.n, s.sync, Vector(u)) && CubeInv(g, s)
    ensures CubeInv(g, VecStep(g, s, u))
  {
    VecLeavesCube(g, s, u);
    if s.sync.cube.phase == C2S_COPY { VecKeepsL1Ps(g, s, u); }
    CubeInvKept(g, s, VecStep(g, s, u));
  }

  // ----- Vector steps: the sub-core's own buffers

  lemma OtherKeepsUb(g: Job, s: State, v: int, u: int)
    requires u != v && UbInv(g, s.ub(v), s.sync.vec(v), v)
    ensures var z := VecStep(g, s, u); UbInv(g, z.ub(v), z.sync.vec(v), v)
  {
    var z := VecStep(g, s, u);
    assert z.ub(v) == s.ub(v) && z.sync.vec(v) == s.sync.vec(v);
  }

  /** The counters UbInv speaks about, before and after an action. */
  lemma PassedMoves(n: nat, pc: Pc)
    requires VecPcOk(n, pc) && !VecDone(n, pc)
    ensures var pc', t := VecAdvance(n, pc), VecTask(pc);
      && Moves(Passed(n, pc, 0, V0S_COPY), Passed(n, pc', 0, V0S_COPY), pc.phase == V0S_COPY && pc.stream < n, t)
      && Moves(Passed(n, pc, 1, V1S_COPY), Passed(n, pc', 1, V1S_COPY), pc.phase == V1S_COPY, t)
      && Moves(Passed(n, pc, 1, V1_POST), Passed(n, pc', 1, V1_POST), pc.phase == V1_POST, t)
      && Moves(Passed(n, pc, 2, V2_STORE), Passed(n, pc', 2, V2_STORE), pc.phase == V2_STORE, t)
  {
  }

  /** Actions that leave the buffer alone. */
  lemma IdleKeepsUb(g: Job, u: Ub, pc: Pc, v: int)
    requires VecPcOk(g.n, pc) && !VecDone(g.n, pc) && UbInv(g, u, pc, v)
    requires VecSkips(g.n, pc) || pc.phase in {V0S_SET, V1L_WAIT, V1S_SET, V2L_WAIT}
    ensures UbInv(g, u, VecAdvance(g.n, pc), v)
  {
    PassedMoves(g.n, pc);
  }

  lemma V0KeepsUb(g: Job, u: Ub, pc: Pc, v: int)
    requires VecPcOk(g.n, pc) && UbInv(g, u, pc, v) && pc.phase == V0S_COPY && pc.stream < g.n
    ensures UbInv(g, AfterV0L(g, u, pc.stream), VecAdvance(g.n, pc), v)
  {
    PassedMoves(g.n, pc);
    FillIndices(g, u.idx, pc.stream, Passed(g.n, pc, 1, V1S_COPY));
  }

  lemma V1LKeepsUb(g: Job, u: Ub, pc: Pc, v: int, ws: Slots)
    requires VecPcOk(g.n, pc) && UbInv(g, u, pc, v) && pc.phase == V1L_COPY && ScoreOk(g, ws, VecTask(pc))
    ensures UbInv(g, u.(cross := LoadHeads(g, ws, VecTask(pc) % 2, v)), VecAdvance(g.n, pc), v)
  {
    PassedMoves(g.n, pc);
    FillScore(g, ws, v, VecTask(pc));
  }

  lemma V2LKeepsUb(g: Job, u: Ub, pc: Pc, v: int, ws: Slots)
    requires VecPcOk(g.n, pc) && UbInv(g, u, pc, v) && pc.phase == V2L_COPY && OutOk(g, ws, u.maxOf, v, VecTask(pc))
    ensures UbInv(g, u.(cross := LoadHeads(g, ws, VecTask(pc) % 2, v)), VecAdvance(g.n, pc), v)
  {
    PassedMoves(g.n, pc);
    FillOut(g, ws, u.maxOf, v, VecTask(pc));
  }

  lemma RecordCounters(n: nat, pc: Pc)
    requires VecPcOk(n, pc) && pc.phase == V1S_COPY
    ensures var k, lo := VecTask(pc), Passed(n, pc, 2, V2_STORE);
      && 0 <= k < n && Passed(n, pc, 1, V1S_COPY) == k == Passed(n, pc, 1, V1_POST) && k < Passed(n, pc, 0, V0S_COPY)
      && k - 1 <= lo <= k
  {
  }
  lemma RecordsMax(g: Job, u: Ub, v: int, k: int, lo: int)
    requires CrossScore(g, u.cross, v, k) && IdxOk(g, u.idx, k) && 0 <= g.tail(k) <= g.block
    requires 0 <= k && k - 1 <= lo <= k && (k > 0 ==> MaxOk(g, u.max, u.maxOf, k - 1)) && (k == 0 ==> g.first(0))
    requires ScaleInv(g, u.scale, u.maxOf, lo, k) && SumInv(g, u.sum, u.sink, u.maxOf, v, lo, k)
    requires lo > 0 && !g.last(lo - 1) ==> AccOk(g, u.log, u.acc, u.maxOf, v, lo - 1)
    ensures var z := AfterV1P(g, u, k);
      && CrossProb(g, z.cross, z.maxOf, v, k) && MaxOk(g, z.max, z.maxOf, k) && ScaleInv(g, z.scale, z.maxOf, lo, k + 1)
      && SumInv(g, z.sum, z.sink, z.maxOf, v, lo, k)
      && (lo > 0 && !g.last(lo - 1) ==> AccOk(g, z.log, z.acc, z.maxOf, v, lo - 1))
  {
    V1P(g, u, v, k, lo);
    RecordKeepsSums(g, u, NewMax(g, u, k), k, v, lo, k);
    if lo > 0 && !g.last(lo - 1) { RecordKeepsAcc(g, u, NewMax(g, u, k), k, v, lo - 1); }
  }
  lemma V1PKeepsUb(g: Job, u: Ub, pc: Pc, v: int)
    requires VecPcOk(g.n, pc) && UbInv(g, u, pc, v) && pc.phase == V1S_COPY && Tails(g) && Streams(g)
    ensures UbInv(g, AfterV1P(g, u, VecTask(pc)), VecAdvance(g.n, pc), v)
  {
    PassedMoves(g.n, pc);
    RecordCounters(g.n, pc);
    RecordsMax(g, u, v, VecTask(pc), Passed(g.n, pc, 2, V2_STORE));
  }

  lemma PostKeepsUb(g: Job, u: Ub, pc: Pc, v: int)
    requires VecPcOk(g.n, pc) && UbInv(g, u, pc, v) && pc.phase == V1_POST
    ensures UbInv(g, AfterPost(g, u, VecTask(pc), v), VecAdvance(g.n, pc), v)
  {
    PassedMoves(g.n, pc);
    V1Post(g, u, AfterPost(g, u, VecTask(pc), v), v, VecTask(pc), Passed(g.n, pc, 2, V2_STORE));
  }

  lemma V2PKeepsUb(g: Job, u: Ub, pc: Pc, v: int)
    requires VecPcOk(g.n, pc) && UbInv(g, u, pc, v) && pc.phase == V2_STORE && Tails(g) && Streams(g) && IsExp(g.E)
    ensures UbInv(g, AfterV2P(g, u, VecTask(pc)), VecAdvance(g.n, pc), v)
  {
    PassedMoves(g.n, pc);
    if !g.last(VecTask(pc)) {
      ReadyToFold(g, u, pc, v);
      FoldsInto(g, u, v, VecTask(pc));
    }
  }

  /** What V2P finds in the buffer although V1P has already run one task further. */
  ghost predicate Foldable(g: Job, u: Ub, v: int, t: int) {
    && 0 <= t && 0 <= g.tail(t) <= g.block && (t == 0 ==> g.first(0))
    && ScaleOk(g, u.scale, u.maxOf, t) && SumOk(g, u.sum, u.sink, u.maxOf, v, t) && CrossOut(g, u.cross, u.maxOf, v, t)
    && (!g.first(t) ==> AccOk(g, u.log, u.acc, u.maxOf, v, t - 1))
  }
  lemma FoldCounters(n: nat, pc: Pc)
    requires VecPcOk(n, pc) && pc.phase == V2_STORE
    ensures var t := VecTask(pc);
      0 <= t < n && t == Passed(n, pc, 2, V2_STORE) < Passed(n, pc, 1, V1_POST) && t < Passed(n, pc, 1, V1S_COPY)
  {
  }
  lemma ReadyToFold(g: Job, u: Ub, pc: Pc, v: int)
    requires VecPcOk(g.n, pc) && UbInv(g, u, pc, v) && pc.phase == V2_STORE && Tails(g) && Streams(g)
    ensures Foldable(g, u, v, VecTask(pc))
  {
    var t := VecTask(pc);
    FoldCounters(g.n, pc);
    assert ScaleOk(g, u.scale, u.maxOf, t) && SumOk(g, u.sum, u.sink, u.maxOf, v, t);
    if !g.first(t) { assert SameQuery(g, t); }
  }
  /** The accumulators after V2P of a task that is not its query's last. */
  lemma FoldsInto(g: Job, u: Ub, v: int, t: int)
    requires Foldable(g, u, v, t) && IsExp(g.E) && !g.last(t)
    ensures var z := AfterV2P(g, u, t); AccOk(g, z.log, z.acc, z.maxOf, v, t)
  {
    var z := AfterV2P(g, u, t);
    forall h | 0 <= h < g.half
      ensures StandsFor(g.E, z.log(h), z.maxOf(t, h), Den(g, t, Head(g, v, h)))
    {
      NewLogOk(g, u, v, t, h);
    }
    forall h, d | 0 <= h < g.half
      ensures StandsFor(g.E, z.acc(h, d), z.maxOf(t, h), Num(g, t, Head(g, v, h), d))
    {
      NewAccOk(g, u, v, t, h, d);
    }
  }

  predicate Loads(pc: Pc) { pc.phase == V1L_COPY || pc.phase == V2L_COPY }
  /** The sub-core's buffer after an action that reads no workspace of the Cube. */
  function OwnUb(g: Job, b: Ub, pc: Pc, v: int): Ub {
    var t := VecTask(pc);
    if VecSkips(g.n, pc) then b
    else if pc.phase == V0S_COPY then AfterV0L(g, b, t)
    else if pc.phase == V1S_COPY then AfterV1P(g, b, t)
    else if pc.phase == V1_POST then AfterPost(g, b, t, v)
    else if pc.phase == V2_STORE then AfterV2P(g, b, t)
    else b
  }
  /** The buffer after a load from the score or the output workspace. */
  function LoadUb(g: Job, b: Ub, pc: Pc, v: int, wsS: Slots, wsO: Slots): Ub {
    b.(cross := LoadHeads(g, if pc.phase == V1L_COPY then wsS else wsO, VecTask(pc) % 2, v))
  }
  lemma OwnField(g: Job, s: State, u: int)
    ensures var z, pc := VecStep(g, s, u), s.sync.vec(u);
      && z.sync.vec(u) == VecAdvance(g.n, pc)
      && z.ub(u) ==
           if Loads(pc) && !VecSkips(g.n, pc) then LoadUb(g, s.ub(u), pc, u, s.wsS, s.wsO) else OwnUb(g, s.ub(u), pc, u)
  {
  }
  lemma OwnUbKept(g: Job, b: Ub, pc: Pc, v: int)
    requires VecPcOk(g.n, pc) && !VecDone(g.n, pc) && UbInv(g, b, pc, v) && Tails(g) && Streams(g) && IsExp(g.E)
    requires !Loads(pc) || VecSkips(g.n, pc)
    ensures UbInv(g, OwnUb(g, b, pc, v), VecAdvance(g.n, pc), v)
  {
    if VecSkips(g.n, pc) {
      IdleKeepsUb(g, b, pc, v);
    } else if pc.phase == V0S_COPY {
      V0KeepsUb(g, b, pc, v);
    } else if pc.phase == V1S_COPY {
      V1PKeepsUb(g, b, pc, v);
    } else if pc.phase == V1_POST {
      PostKeepsUb(g, b, pc, v);
    } else if pc.phase == V2_STORE {
      V2PKeepsUb(g, b, pc, v);
    } else {
      IdleKeepsUb(g, b, pc, v);
    }
  }
  lemma LoadUbKept(g: Job, s: State, u: int)
    requires Lined(g.n, s.sync) && IsVid(u) && SharedInv(g, s, u) && UbInv(g, s.ub(u), s.sync.vec(u), u)
    requires Loads(s.sync.vec(u)) && !VecSkips(g.n, s.sync.vec(u))
    ensures var pc := s.sync.vec(u); UbInv(g, LoadUb(g, s.ub(u), pc, u, s.wsS, s.wsO), VecAdvance(g.n, pc), u)
  {
    var b, pc := s.ub(u), s.sync.vec(u);
    SlotIsFull(g.n, s.sync, u);
    if pc.phase == V1L_COPY {
      assert ScoreOk(g, s.wsS, VecTask(pc));
      V1LKeepsUb(g, b, pc, u, s.wsS);
    } else {
      assert OutOk(g, s.wsO, b.maxOf, u, VecTask(pc));
      V2LKeepsUb(g, b, pc, u, s.wsO);
    }
  }
  lemma VecKeepsOwn(g: Job, s: State, u: int)
    requires Lined(g.n, s.sync) && IsVid(u) && Enabled(g.n, s.sync, Vector(u)) && Tails(g) && Streams(g) && IsExp(g.E)
    requires SharedInv(g, s, u) && UbInv(g, s.ub(u), s.sync.vec(u), u)
    ensures var z := VecStep(g, s, u); UbInv(g, z.ub(u), z.sync.vec(u), u)
  {
    var pc := s.sync.vec(u);
    OwnField(g, s, u);
    if Loads(pc) && !VecSkips(g.n, pc) { LoadUbKept(g, s, u); } else { OwnUbKept(g, s.ub(u), pc, u); }
  }

  // ----- Vector steps: the output

  lemma FinishesNext(g: Job, t: int, b: int, q: int)
    requires t >= 0
    ensures Finishes(g, t + 1, b, q) <==> Finishes(g, t, b, q) || (g.last(t) && g.bt(t) == b && g.sq(t) == q)
  {
  }

  lemma FinishesOnce(g: Job, t: int)
    requires Once(g) && 0 <= t < g.n && g.last(t)
    ensures !Finishes(g, t, g.bt(t), g.sq(t))
  {
    forall w | 0 <= w < t && g.last(w)
      ensures g.bt(w) != g.bt(t) || g.sq(w) != g.sq(t)
    {
      assert Apart(g, w, t);
    }
  }

  lemma CountNext(g: Job, w: (int, int, int) -> int, v: int, t: int)
    requires IsVid(v) && Once(g) && 0 <= t < g.n && CountInv(g, w, v, t) && g.last(t)
    ensures CountInv(g, CountOut(g, w, t, v), v, t + 1)
  {
    FinishesOnce(g, t);
    forall b, q, h | 0 <= h < g.half
      ensures CountOut(g, w, t, v)(b, q, Head(g, v, h)) == (if Finishes(g, t + 1, b, q) then 1 else 0)
    {
      FinishesNext(g, t, b, q);
      HeadsApart(g, v, v, h);
      assert w(b, q, Head(g, v, h)) == (if Finishes(g, t, b, q) then 1 else 0);
    }
  }

  lemma CountSame(g: Job, w: (int, int, int) -> int, v: int, t: int)
    requires t >= 0 && CountInv(g, w, v, t) && !g.last(t)
    ensures CountInv(g, w, v, t + 1)
  {
    forall b, q, h | 0 <= h < g.half
      ensures w(b, q, Head(g, v, h)) == (if Finishes(g, t + 1, b, q) then 1 else 0)
    {
      FinishesNext(g, t, b, q);
      assert w(b, q, Head(g, v, h)) == (if Finishes(g, t, b, q) then 1 else 0);
    }
  }

  lemma CountOther(g: Job, w: (int, int, int) -> int, v: int, u: int, t: int, m: int)
    requires IsVid(v) && IsVid(u) && u != v && CountInv(g, w, v, m)
    ensures CountInv(g, CountOut(g, w, t, u), v, m)
  {
    forall h | 0 <= h < g.half
      ensures !(HeadLo(g, u) <= Head(g, v, h) < HeadLo(g, u) + g.half)
    {
      HeadsApart(g, v, u, h);
    }
  }

  lemma WrittenOther(g: Job, out: (int, int, int, int) -> real, x: Matrix, v: int, u: int, t: int, m: int)
    requires IsVid(v) && IsVid(u) && u != v && IsExp(g.E) && WrittenInv(g, out, v, m)
    ensures WrittenInv(g, StoreOut(g, out, t, u, x), v, m)
  {
    forall h | 0 <= h < g.half
      ensures !(HeadLo(g, u) <= Head(g, v, h) < HeadLo(g, u) + g.half)
    {
      HeadsApart(g, v, u, h);
    }
    forall w | 0 <= w < m && g.last(w)
      ensures Written(g, StoreOut(g, out, t, u, x), v, w)
    {
      assert Written(g, out, v, w);
    }
  }

  lemma WrittenOld(g: Job, out: (int, int, int, int) -> real, x: Matrix, v: int, w: int, t: int)
    requires IsExp(g.E) && Written(g, out, v, w) && Apart(g, w, t)
    ensures Written(g, StoreOut(g, out, t, v, x), v, w)
  {
  }
  lemma FoldedHead(g: Job, b: Ub, v: int, t: int, h: int, d: int)
    requires Foldable(g, b, v, t) && IsExp(g.E) && 0 <= h < g.half && g.last(t)
    ensures AfterV2P(g, b, t).acc(h, d) == Result(g, t, Head(g, v, h), d)
  {
    NewLogOk(g, b, v, t, h);
    NewAccOk(g, b, v, t, h, d);
    NormalisedOk(g, b, Head(g, v, h), t, h, d);
  }
  lemma AllFolded(g: Job, b: Ub, v: int, t: int)
    requires Foldable(g, b, v, t) && IsExp(g.E) && g.last(t)
    ensures forall h, d :: 0 <= h < g.half ==> AfterV2P(g, b, t).acc(h, d) == Result(g, t, Head(g, v, h), d)
  {
    forall h, d | 0 <= h < g.half
      ensures AfterV2P(g, b, t).acc(h, d) == Result(g, t, Head(g, v, h), d)
    {
      FoldedHead(g, b, v, t, h, d);
    }
  }
  lemma StoredAt(g: Job, out: (int, int, int, int) -> real, t: int, v: int, x: Matrix, h: int, d: int)
    requires IsVid(v) && 0 <= h < g.half
    ensures StoreOut(g, out, t, v, x)(g.bt(t), g.sq(t), Head(g, v, h), d) == x(h, d)
  {
    HeadsApart(g, v, v, h);
  }
  lemma WrittenFolded(g: Job, out: (int, int, int, int) -> real, b: Ub, v: int, t: int, x: Matrix)
    requires IsVid(v) && IsExp(g.E) && forall h, d :: 0 <= h < g.half ==> x(h, d) == Result(g, t, Head(g, v, h), d)
    ensures Written(g, StoreOut(g, out, t, v, x), v, t)
  {
    forall h, d | 0 <= h < g.half
      ensures StoreOut(g, out, t, v, x)(g.bt(t), g.sq(t), Head(g, v, h), d) == Result(g, t, Head(g, v, h), d)
    {
      StoredAt(g, out, t, v, x, h, d);
    }
  }
  lemma WrittenReady(g: Job, out: (int, int, int, int) -> real, b: Ub, v: int, t: int)
    requires Foldable(g, b, v, t) && IsVid(v) && IsExp(g.E) && g.last(t)
    ensures Written(g, StoreOut(g, out, t, v, AfterV2P(g, b, t).acc), v, t)
  {
    AllFolded(g, b, v, t);
    WrittenFolded(g, out, b, v, t, AfterV2P(g, b, t).acc);
  }
  lemma WrittenNow(g: Job, out: (int, int, int, int) -> real, b: Ub, pc: Pc, v: int)
    requires IsVid(v) && IsExp(g.E) && Tails(g) && Streams(g)
    requires VecPcOk(g.n, pc) && UbInv(g, b, pc, v) && pc.phase == V2_STORE && g.last(VecTask(pc))
    ensures Written(g, StoreOut(g, out, VecTask(pc), v, AfterV2P(g, b, VecTask(pc)).acc), v, VecTask(pc))
  {
    ReadyToFold(g, b, pc, v);
    WrittenReady(g, out, b, v, VecTask(pc));
  }
  lemma WrittenNext(g: Job, out: (int, int, int, int) -> real, b: Ub, pc: Pc, v: int)
    requires IsVid(v) && IsExp(g.E) && Tails(g) && Streams(g) && Once(g)
    requires VecPcOk(g.n, pc) && UbInv(g, b, pc, v) && pc.phase == V2_STORE
    requires WrittenInv(g, out, v, VecTask(pc)) && g.last(VecTask(pc))
    ensures WrittenInv(g, StoreOut(g, out, VecTask(pc), v, AfterV2P(g, b, VecTask(pc)).acc), v, VecTask(pc) + 1)
  {
    var t := VecTask(pc);
    var x := AfterV2P(g, b, t).acc;
    WrittenNow(g, out, b, pc, v);
    forall w | 0 <= w < t + 1 && g.last(w)
      ensures Written(g, StoreOut(g, out, t, v, x), v, w)
    {
      if w < t { WrittenOld(g, out, x, v, w, t); }
    }
  }

  lemma OutField(g: Job, s: State, u: int)
    requires !VecSkips(g.n, s.sync.vec(u)) || s.sync.vec(u).phase != V2_STORE
    ensures var z, t := VecStep(g, s, u), VecTask(s.sync.vec(u));
      z.out ==
        if s.sync.vec(u).phase == V2_STORE && g.last(t) then StoreOut(g, s.out, t, u, AfterV2P(g, s.ub(u), t).acc)
        else s.out
  {
  }
  lemma StoredTasks(n: nat, y: Sync, u: int)
    requires VecPcOk(n, y.vec(u)) && !VecDone(n, y.vec(u))
    ensures var a, b := VecTwo(n, y, u, V2_STORE), VecTwo(n, Step(n, y, Vector(u)), u, V2_STORE);
      if y.vec(u).phase == V2_STORE then a == VecTask(y.vec(u)) && b == a + 1 else b == a
    ensures y.vec(u).phase == V2_STORE ==> !VecSkips(n, y.vec(u))
  {
  }
  lemma OwnKeepsWritten(g: Job, s: State, u: int)
    requires VecPcOk(g.n, s.sync.vec(u)) && IsVid(u) && Enabled(g.n, s.sync, Vector(u))
    requires IsExp(g.E) && Tails(g) && Streams(g) && Once(g) && UbInv(g, s.ub(u), s.sync.vec(u), u)
    requires WrittenInv(g, s.out, u, VecTwo(g.n, s.sync, u, V2_STORE))
    ensures var z := VecStep(g, s, u); WrittenInv(g, z.out, u, VecTwo(g.n, z.sync, u, V2_STORE))
  {
    NextSync(g, s, Vector(u));
    StoredTasks(g.n, s.sync, u);
    OutField(g, s, u);
    if s.sync.vec(u).phase == V2_STORE {
      if g.last(VecTask(s.sync.vec(u))) {
        WrittenNext(g, s.out, s.ub(u), s.sync.vec(u), u);
      } else {
        WrittenSame(g, s.out, u, VecTask(s.sync.vec(u)));
      }
    }
  }
  lemma WrittenSame(g: Job, out: (int, int, int, int) -> real, v: int, t: int)
    requires IsExp(g.E) && WrittenInv(g, out, v, t) && !g.last(t)
    ensures WrittenInv(g, out, v, t + 1)
  {
  }

  lemma OwnKeepsCount(g: Job, s: State, u: int)
    requires VecPcOk(g.n, s.sync.vec(u)) && IsVid(u) && Enabled(g.n, s.sync, Vector(u)) && Once(g)
    requires CountInv(g, s.writes, u, VecTwo(g.n, s.sync, u, V2_STORE))
    ensures var z := VecStep(g, s, u); CountInv(g, z.writes, u, VecTwo(g.n, z.sync, u, V2_STORE))
  {
    VecCopies(g.n, s.sync, u);
    var t := VecTask(s.sync.vec(u));
    if s.sync.vec(u).phase == V2_STORE {
      if g.last(t) { CountNext(g, s.writes, u, t); } else { CountSame(g, s.writes, u, t); }
    }
  }

  lemma OtherKeepsResult(g: Job, s: State, v: int, u: int)
    requires IsVid(v) && IsVid(u) && u != v && IsExp(g.E) && ResultInv(g, s, v)
    ensures ResultInv(g, VecStep(g, s, u), v)
  {
    var z, pc, t := VecStep(g, s, u), s.sync.vec(u), VecTask(s.sync.vec(u));
    assert z.sync.vec(v) == s.sync.vec(v);
    if pc.phase == V2_STORE && g.last(t) {
      CountOther(g, s.writes, v, u, t, VecTwo(g.n, s.sync, v, V2_STORE));
      WrittenOther(g, s.out, AfterV2P(g, s.ub(u), t).acc, v, u, t, VecTwo(g.n, s.sync, v, V2_STORE));
    } else {
      assert z.out == s.out && z.writes == s.writes;
    }
  }

  // ----- every step keeps the invariant

  lemma CubeKeepsVid(g: Job, s: State, v: int)
    requires Legal(g) && Lined(g.n, s.sync) && CubeInv(g, s) && VidInv(g, s, v) && IsVid(v)
    requires Enabled(g.n, s.sync, Cube)
    ensures VidInv(g, CubeStep(g, s), v)
  {
    CubeKeepsShared(g, s, v);
    CubeKeepsRest(g, s, v);
  }
  lemma CubeKeepsCube(g: Job, s: State)
    requires Legal(g) && Lined(g.n, s.sync) && CubeInv(g, s) && Enabled(g.n, s.sync, Cube)
    requires SharedInv(g, s, 0) && SharedInv(g, s, 1)
    ensures CubeInv(g, CubeStep(g, s))
  {
    CubeKeepsL1Kv(g, s);
    CubeKeepsQuery(g, s);
    CubeKeepsL1P(g, s);
  }
  lemma CubeStepKeeps(g: Job, s: State)
    requires Legal(g) && SparseInvariant.Inv(g, s) && Enabled(g.n, s.sync, Cube)
    ensures SparseInvariant.Inv(g, CubeStep(g, s))
  {
    StepInv(g.n, s.sync, Cube);
    NextSync(g, s, Cube);
    CubeKeepsCube(g, s);
    CubeKeepsVid(g, s, 0);
    CubeKeepsVid(g, s, 1);
  }

  lemma VecKeepsVid(g: Job, s: State, u: int)
    requires Legal(g) && Lined(g.n, s.sync) && VidInv(g, s, u) && IsVid(u) && Enabled(g.n, s.sync, Vector(u))
    ensures VidInv(g, VecStep(g, s, u), u)
  {
    VecKeepsShared(g, s, u, u);
    VecKeepsOwn(g, s, u);
    OwnKeepsWritten(g, s, u);
    OwnKeepsCount(g, s, u);
  }
  lemma VecKeepsOtherVid(g: Job, s: State, v: int, u: int)
    requires Legal(g) && Lined(g.n, s.sync) && VidInv(g, s, v) && VidInv(g, s, u) && IsVid(v) && IsVid(u) && u != v
    requires Enabled(g.n, s.sync, Vector(u))
    ensures VidInv(g, VecStep(g, s, u), v)
  {
    VecKeepsShared(g, s, v, u);
    OtherKeepsUb(g, s, v, u);
    OtherKeepsResult(g, s, v, u);
  }
  lemma VecKeepsVids(g: Job, s: State, u: int)
    requires Legal(g) && Lined(g.n, s.sync) && VidInv(g, s, 0) && VidInv(g, s, 1)
    requires IsVid(u) && Enabled(g.n, s.sync, Vector(u))
    ensures VidInv(g, VecStep(g, s, u), 0) && VidInv(g, VecStep(g, s, u), 1)
  {
    VecKeepsVid(g, s, u);
    if u == 0 { VecKeepsOtherVid(g, s, 1, 0); } else { VecKeepsOtherVid(g, s, 0, 1); }
  }
  lemma VecStepKeeps(g: Job, s: State, u: int)
    requires Legal(g) && SparseInvariant.Inv(g, s) && IsVid(u) && Enabled(g.n, s.sync, Vector(u))
    ensures SparseInvariant.Inv(g, VecStep(g, s, u))
  {
    StepInv(g.n, s.sync, Vector(u));
    NextSync(g, s, Vector(u));
    VecKeepsCube(g, s, u);
    VecKeepsVids(g, s, u);
  }

  lemma StartKeeps(g: Job, s: State)
    requires Legal(g) && Initial(s)
    ensures SparseInvariant.Inv(g, s)
  {
    StartInv(g.n);
  }

  // ----- whole runs

  /** A schedule: the cores that move, one after the other, each of them able to. */
  ghost predicate Schedule(g: Job, s: State, cs: seq<Core>)
    decreases |cs|
  {
    cs == [] || (IsCore(cs[0]) && Enabled(g.n, s.sync, cs[0]) && Schedule(g, Next(g, s, cs[0]), cs[1..]))
  }
  function After(g: Job, s: State, cs: seq<Core>): State
    decreases |cs|
  {
    if cs == [] then s else After(g, Next(g, s, cs[0]), cs[1..])
  }

  /** The invariant holds after every run, and some core can still move unless all loops have ended. */
  lemma {:induction false} RunInv(g: Job, s: State, cs: seq<Core>)
    requires Legal(g) && SparseInvariant.Inv(g, s) && Schedule(g, s, cs)
    ensures SparseInvariant.Inv(g, After(g, s, cs))
    ensures var y := After(g, s, cs).sync;
      Finished(g.n, y) || Enabled(g.n, y, Cube) || Enabled(g.n, y, Vector(0)) || Enabled(g.n, y, Vector(1))
    decreases |cs|
  {
    if cs == [] {
      if !Finished(g.n, s.sync) { NoDeadlock(g.n, s.sync); }
    } else {
      match cs[0] {
        case Cube => CubeStepKeeps(g, s);
        case Vector(u) => VecStepKeeps(g, s, u);
      }
      RunInv(g, Next(g, s, cs[0]), cs[1..]);
    }
  }

  /** Actions left to the three cores, counting skipped ones. */
  function Left(n: nat, y: Sync): int {
    8 * (n + 1 - y.cube.stream) - y.cube.phase
    + 10 * (n + 2 - y.vec(0).stream) - y.vec(0).phase
    + 10 * (n + 2 - y.vec(1).stream) - y.vec(1).phase
  }

  lemma StepsRunOut(n: nat, y: Sync, c: Core)
    requires Lined(n, y) && IsCore(c) && Enabled(n, y, c)
    ensures Left(n, Step(n, y, c)) < Left(n, y)
  {
  }

  lemma LeftNonNegative(n: nat, y: Sync)
    requires Lined(n, y)
    ensures Left(n, y) >= 0
  {
  }

  /** Every run ends: no schedule is longer than 28 n + 48 actions. */
  lemma {:induction false} RunsEnd(g: Job, s: State, cs: seq<Core>)
    requires Legal(g) && SparseInvariant.Inv(g, s) && Schedule(g, s, cs)
    ensures |cs| <= Left(g.n, s.sync)
    decreases |cs|
  {
    LeftNonNegative(g.n, s.sync);
    if cs != [] {
      StepsRunOut(g.n, s.sync, cs[0]);
      NextSync(g, s, cs[0]);
      match cs[0] {
        case Cube => CubeStepKeeps(g, s);
        case Vector(u) => VecStepKeeps(g, s, u);
      }
      RunsEnd(g, Next(g, s, cs[0]), cs[1..]);
    }
  }

  /** A finished run leaves all flags down and every output row of the core written once, correctly. */
  lemma FinishedRun(g: Job, s: State, v: int, h: int)
    requires Legal(g) && SparseInvariant.Inv(g, s) && Finished(g.n, s.sync) && IsVid(v) && 0 <= h < g.half
    ensures forall b :: 0 <= b < 2 ==>
      s.sync.kv(v, b) == 0 && s.sync.s(v, b) == 0 && s.sync.p(v, b) == 0 && s.sync.o(v, b) == 0
    ensures forall b, q :: s.writes(b, q, Head(g, v, h)) == if Finishes(g, g.n, b, q) then 1 else 0
    ensures forall t, d :: 0 <= t < g.n && g.last(t) ==>
      s.out(g.bt(t), g.sq(t), Head(g, v, h), d) == Result(g, t, Head(g, v, h), d)
  {
    FlagsAtEnd(g.n, s.sync, v);
    assert VecTwo(g.n, s.sync, v, V2_STORE) == g.n;
    assert ResultInv(g, s, v);
    forall t, d | 0 <= t < g.n && g.last(t)
      ensures s.out(g.bt(t), g.sq(t), Head(g, v, h), d) == Result(g, t, Head(g, v, h), d)
    {
      assert Written(g, s.out, v, t);
    }
  }

  lemma FlagsAtEnd(n: nat, y: Sync, v: int)
    requires SparseProtocol.Inv(n, y) && Finished(n, y) && IsVid(v)
    ensures forall b :: 0 <= b < 2 ==> y.kv(v, b) == 0 && y.s(v, b) == 0 && y.p(v, b) == 0 && y.o(v, b) == 0
  {
    assert Counted(n, y, v);
  }

  /** With an odd number of heads nobody owns the last one: its rows are never written. */
  lemma {:induction false} OddHeadUnwritten(g: Job, s: State, cs: seq<Core>, b: int, q: int, h: int)
    requires Schedule(g, s, cs) && h >= 2 * g.half && g.half >= 0
    ensures After(g, s, cs).writes(b, q, h) == s.writes(b, q, h) && forall d ::
      After(g, s, cs).out(b, q, h, d) == s.out(b, q, h, d)
    decreases |cs|
  {
    if cs != [] {
      var z := Next(g, s, cs[0]);
      assert z.writes(b, q, h) == s.writes(b, q, h) && forall d :: z.out(b, q, h, d) == s.out(b, q, h, d);
      OddHeadUnwritten(g, z, cs[1..], b, q, h);
    }
  }

  lemma {:induction false} NoHeadBelow(g: Job, s: State, cs: seq<Core>, b: int, q: int, h: int)
    requires Schedule(g, s, cs) && h < 0 && g.half >= 0
    ensures After(g, s, cs).writes(b, q, h) == s.writes(b, q, h)
    decreases |cs|
  {
    if cs != [] {
      WritesRow(g, s, cs[0], b, q, h, 0, s.out);
      NoHeadBelow(g, Next(g, s, cs[0]), cs[1..], b, q, h);
    }
  }
  /** A row that is not written keeps its contents. */
  lemma {:induction false} UnwrittenKept(g: Job, s: State, cs: seq<Core>, b: int, q: int, h: int, d: int)
    requires Schedule(g, s, cs)
    ensures After(g, s, cs).writes(b, q, h) >= s.writes(b, q, h)
    ensures After(g, s, cs).writes(b, q, h) == s.writes(b, q, h) ==>
      After(g, s, cs).out(b, q, h, d) == s.out(b, q, h, d)
    decreases |cs|
  {
    if cs != [] {
      WritesRow(g, s, cs[0], b, q, h, d, s.out);
      UnwrittenKept(g, Next(g, s, cs[0]), cs[1..], b, q, h, d);
    }
  }
}
