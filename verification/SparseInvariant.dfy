/** Data invariants of the sparse attention kernel: what every buffer and workspace slot holds between the
    action that fills it and the last action that reads it, in every interleaving. */
module SparseInvariant {
  import opened Sums
  import opened SparseJob
  import opened SparseProtocol
  import opened SparseAttention

  type Matrix = (int, int) -> real
  type Slots = (int, int, int) -> real

  ghost predicate IsVid(v: int) { v == 0 || v == 1 }

  /** Head h of sub-core v in the numbering of the whole tensor. */
  function Head(g: Job, v: int, h: int): int { HeadLo(g, v) + h }

  // ----- one task

  ghost predicate IdxOk(g: Job, idx: (int, int) -> int, t: int) {
    forall j :: idx(t % 2, j) == g.idx(t, j)
  }
  ghost predicate KvOk(g: Job, ws: Slots, v: int, t: int) {
    forall j, d :: RowLo(g, t, v) <= j < RowHi(g, t, v) ==> ws(t % 2, j, d) == Gathered(g, t, j, d)
  }
  ghost predicate L1KvOk(g: Job, l1: Slots, t: int) {
    forall j, d :: 0 <= j < g.tail(t) ==> l1(t % 2, j, d) == Gathered(g, t, j, d)
  }
  ghost predicate QueryOk(g: Job, q: Matrix, t: int) {
    forall h, d :: q(h, d) == g.Q(g.bt(t), g.sq(t), h, d)
  }
  ghost predicate ScoreOk(g: Job, ws: Slots, t: int) {
    forall h, j :: 0 <= j < g.tail(t) ==> ws(t % 2, h, j) == g.score(t, h, j)
  }
  /** m(t, h) is the running maximum of local head h at task t. */
  ghost predicate ProbOk(g: Job, ws: Slots, m: Matrix, v: int, t: int) {
    forall h, j :: 0 <= h < g.half && 0 <= j < g.block ==>
      ws(t % 2, Head(g, v, h), j) == Prob(g, t, Head(g, v, h), m(t, h), j)
  }
  ghost predicate L1ProbOk(g: Job, a: Matrix, m: Matrix, v: int, t: int) {
    forall h, j :: 0 <= h < g.half && 0 <= j < g.block ==>
      a(Head(g, v, h), j) == Prob(g, t, Head(g, v, h), m(t, h), j)
  }
  ghost predicate OutOk(g: Job, ws: Slots, m: Matrix, v: int, t: int) {
    forall h, d :: 0 <= h < g.half ==>
      ws(t % 2, Head(g, v, h), d) == Contribution(g, t, Head(g, v, h), m(t, h), d)
  }

  /** Contents of a sub-core's 32-bit buffer while it works on task t: scores, probabilities, P.V product. */
  ghost predicate CrossScore(g: Job, x: Matrix, v: int, t: int) {
    forall h, j :: 0 <= h < g.half && 0 <= j < g.tail(t) ==> x(h, j) == g.score(t, Head(g, v, h), j)
  }
  ghost predicate CrossProb(g: Job, x: Matrix, m: Matrix, v: int, t: int) {
    forall h, j :: 0 <= h < g.half && 0 <= j < g.block ==> x(h, j) == Prob(g, t, Head(g, v, h), m(t, h), j)
  }
  ghost predicate CrossOut(g: Job, x: Matrix, m: Matrix, v: int, t: int) {
    forall h, d :: 0 <= h < g.half ==> x(h, d) == Contribution(g, t, Head(g, v, h), m(t, h), d)
  }
  ghost predicate MaxOk(g: Job, max: int -> real, m: Matrix, t: int) {
    forall h :: 0 <= h < g.half ==> max(h) == m(t, h)
  }
  ghost predicate ScaleOk(g: Job, scale: Matrix, m: Matrix, t: int) {
    forall h :: 0 <= h < g.half ==>
      scale(t % 2, h) == (if g.first(t) then 0.0 else g.E(m(t - 1, h) - m(t, h)))
  }
  ghost predicate SumOk(g: Job, sum: Matrix, sink: Matrix, m: Matrix, v: int, t: int) {
    forall h :: 0 <= h < g.half ==>
      && sum(t % 2, h) == ProbSum(g, t, Head(g, v, h), m(t, h))
      && (g.last(t) ==> sink(t % 2, h) == g.E(g.sink(Head(g, v, h)) - m(t, h)))
  }
  /** a, kept relative to reference point m, stands for ref. */
  ghost predicate StandsFor(E: real -> real, a: real, m: real, ref: real) { a * E(m) == ref }

  /** Accumulators after task t, brought back to reference point 0. */
  ghost predicate AccOk(g: Job, log: int -> real, acc: Matrix, m: Matrix, v: int, t: int) {
    && (forall h :: 0 <= h < g.half ==> StandsFor(g.E, log(h), m(t, h), Den(g, t, Head(g, v, h))))
    && (forall h, d :: 0 <= h < g.half ==> StandsFor(g.E, acc(h, d), m(t, h), Num(g, t, Head(g, v, h), d)))
  }
  ghost predicate Written(g: Job, out: (int, int, int, int) -> real, v: int, t: int)
    requires IsExp(g.E)
  {
    forall h, d :: 0 <= h < g.half ==> out(g.bt(t), g.sq(t), Head(g, v, h), d) == Result(g, t, Head(g, v, h), d)
  }

  // ----- the tasks lo .. hi - 1 that are in flight

  ghost predicate IdxInv(g: Job, idx: (int, int) -> int, lo: int, hi: int) {
    forall t :: lo <= t < hi ==> IdxOk(g, idx, t)
  }
  ghost predicate KvInv(g: Job, ws: Slots, v: int, lo: int, hi: int) {
    forall t :: lo <= t < hi ==> KvOk(g, ws, v, t)
  }
  ghost predicate L1KvInv(g: Job, l1: Slots, lo: int, hi: int) {
    forall t :: lo <= t < hi ==> L1KvOk(g, l1, t)
  }
  ghost predicate ScoreInv(g: Job, ws: Slots, lo: int, hi: int) {
    forall t :: lo <= t < hi ==> ScoreOk(g, ws, t)
  }
  ghost predicate ProbInv(g: Job, ws: Slots, m: Matrix, v: int, lo: int, hi: int) {
    forall t :: lo <= t < hi ==> ProbOk(g, ws, m, v, t)
  }
  ghost predicate OutInv(g: Job, ws: Slots, m: Matrix, v: int, lo: int, hi: int) {
    forall t :: lo <= t < hi ==> OutOk(g, ws, m, v, t)
  }
  ghost predicate ScaleInv(g: Job, scale: Matrix, m: Matrix, lo: int, hi: int) {
    forall t :: lo <= t < hi ==> ScaleOk(g, scale, m, t)
  }
  ghost predicate SumInv(g: Job, sum: Matrix, sink: Matrix, m: Matrix, v: int, lo: int, hi: int) {
    forall t :: lo <= t < hi ==> SumOk(g, sum, sink, m, v, t)
  }
  ghost predicate WrittenInv(g: Job, out: (int, int, int, int) -> real, v: int, hi: int)
    requires IsExp(g.E)
  {
    forall t :: 0 <= t < hi && g.last(t) ==> Written(g, out, v, t)
  }

  // ----- the whole state

  /** The four workspaces as sub-core v shares them with the Cube. */
  ghost predicate SharedInv(g: Job, s: State, v: int) {
    var n, y, m := g.n, s.sync, s.ub(v).maxOf;
    && KvInv(g, s.wsKv, v, CubeFirst(n, y, C1L_COPY), VecZero(n, y, v, V0S_COPY))
    && ScoreInv(g, s.wsS, VecOne(n, y, v, V1L_COPY), CubeFirst(n, y, C1S_COPY))
    && ProbInv(g, s.wsP, m, v, CubeSecond(n, y, C2L_COPY), VecOne(n, y, v, V1S_COPY))
    && OutInv(g, s.wsO, m, v, VecTwo(n, y, v, V2L_COPY), CubeSecond(n, y, C2S_COPY))
  }
  ghost predicate CubeInv(g: Job, s: State) {
    var n, y := g.n, s.sync;
    && L1KvInv(g, s.l1Kv, CubeSecond(n, y, C2S_COPY), CubeFirst(n, y, C1L_COPY))
    && (CubeFirst(n, y, C1L_WAIT) > 0 ==> QueryOk(g, s.l1Q, CubeFirst(n, y, C1L_WAIT) - 1))
    && (y.cube.phase == C2S_COPY ==>
          && L1ProbOk(g, s.l1P, s.ub(0).maxOf, 0, CubeTask(y.cube))
          && L1ProbOk(g, s.l1P, s.ub(1).maxOf, 1, CubeTask(y.cube)))
  }
  /** The unified buffer u of sub-core v standing at pc. */
  ghost predicate UbInv(g: Job, u: Ub, pc: Pc, v: int) {
    var v0, v1 := Passed(g.n, pc, 0, V0S_COPY), Passed(g.n, pc, 1, V1S_COPY);
    var v1p, v2 := Passed(g.n, pc, 1, V1_POST), Passed(g.n, pc, 2, V2_STORE);
    && IdxInv(g, u.idx, v1, v0)
    && (pc.phase == V1S_COPY ==> CrossScore(g, u.cross, v, VecTask(pc)))
    && (V1S_COPY < pc.phase <= V1_POST ==> CrossProb(g, u.cross, u.maxOf, v, VecTask(pc)))
    && (pc.phase == V2_STORE ==> CrossOut(g, u.cross, u.maxOf, v, VecTask(pc)))
    && (v1 > 0 ==> MaxOk(g, u.max, u.maxOf, v1 - 1))
    && ScaleInv(g, u.scale, u.maxOf, v2, v1)
    && SumInv(g, u.sum, u.sink, u.maxOf, v, v2, v1p)
    && (v2 > 0 && !g.last(v2 - 1) ==> AccOk(g, u.log, u.acc, u.maxOf, v, v2 - 1))
  }
  /** Query (b, q) is finished by one of the first m tasks. */
  ghost predicate Finishes(g: Job, m: int, b: int, q: int) {
    exists t :: 0 <= t < m && g.last(t) && g.bt(t) == b && g.sq(t) == q
  }
  ghost predicate CountInv(g: Job, w: (int, int, int) -> int, v: int, m: int) {
    forall b, q, h :: 0 <= h < g.half ==> w(b, q, Head(g, v, h)) == (if Finishes(g, m, b, q) then 1 else 0)
  }
  ghost predicate ResultInv(g: Job, s: State, v: int)
    requires IsExp(g.E)
  {
    var m := VecTwo(g.n, s.sync, v, V2_STORE);
    WrittenInv(g, s.out, v, m) && CountInv(g, s.writes, v, m)
  }
  ghost predicate VidInv(g: Job, s: State, v: int)
    requires IsExp(g.E)
  {
    SharedInv(g, s, v) && UbInv(g, s.ub(v), s.sync.vec(v), v) && ResultInv(g, s, v)
  }
  ghost predicate Inv(g: Job, s: State)
    requires IsExp(g.E)
  {
    && SparseProtocol.Inv(g.n, s.sync)
    && CubeInv(g, s)
    && VidInv(g, s, 0)
    && VidInv(g, s, 1)
  }
}
