/** The high-performance sparse attention kernel on one AI core: the protocol of SparseProtocol with the
    workspaces, on-chip buffers and output it protects. Every core is sequential; the cores interleave freely. */
module SparseAttention {
  import opened Sums
  import opened SparseJob
  import opened SparseProtocol

  /** Unified buffer of one Vector sub-core; two-slot buffers are indexed by (slot, ..), heads are local.
      `maxOf` records every running maximum for the proof; no action reads it. */
  datatype Ub = Ub(
    idx: (int, int) -> int, cross: (int, int) -> real, max: int -> real, scale: (int, int) -> real,
    sum: (int, int) -> real, sink: (int, int) -> real, log: int -> real, acc: (int, int) -> real,
    maxOf: (int, int) -> real)

  /** Workspaces are indexed (slot, row or head, column); `writes` counts stores to an output row. */
  datatype State = State(
    sync: Sync,
    wsKv: (int, int, int) -> real, wsS: (int, int, int) -> real,
    wsP: (int, int, int) -> real, wsO: (int, int, int) -> real,
    l1Q: (int, int) -> real, l1Kv: (int, int, int) -> real, l1P: (int, int) -> real,
    ub: int -> Ub,
    out: (int, int, int, int) -> real, writes: (int, int, int) -> int)

  // ----- loads and stores

  /** The first head of sub-core v. */
  function HeadLo(g: Job, v: int): int { v * g.half }

  /** Rows of a block gathered by sub-core v: the two halves of the live rows, the odd one going to sub-core 0. */
  function RowLo(g: Job, t: int, v: int): int { v * ((g.tail(t) + 1) / 2) }
  function RowHi(g: Job, t: int, v: int): int { RowLo(g, t, v) + (g.tail(t) + 1) / 2 - g.tail(t) % 2 * v }

  /** V0L + V0S: only the gathered rows are written, the rest of the slot keeps what it had. */
  function StoreRows(g: Job, ws: (int, int, int) -> real, idx: (int, int) -> int, t: int, v: int)
    : (int, int, int) -> real
  {
    (b: int, j: int, d: int) =>
      if b == t % 2 && RowLo(g, t, v) <= j < RowHi(g, t, v) then g.row(g.bt(t), idx(t % 2, j), d) else ws(b, j, d)
  }
  function LoadIndices(g: Job, idx: (int, int) -> int, t: int): (int, int) -> int {
    (b: int, j: int) => if b == t % 2 then g.idx(t, j) else idx(b, j)
  }
  function StoreSlot(ws: (int, int, int) -> real, slot: int, m: (int, int) -> real): (int, int, int) -> real {
    (b: int, r: int, c: int) => if b == slot then m(r, c) else ws(b, r, c)
  }
  /** A sub-core stores the rows of its own heads. */
  function StoreHeads(g: Job, ws: (int, int, int) -> real, slot: int, v: int, m: (int, int) -> real)
    : (int, int, int) -> real
  {
    (b: int, h: int, c: int) =>
      if b == slot && HeadLo(g, v) <= h < HeadLo(g, v) + g.half then m(h - HeadLo(g, v), c) else ws(b, h, c)
  }
  function LoadSlot(ws: (int, int, int) -> real, slot: int): (int, int) -> real {
    (r: int, c: int) => ws(slot, r, c)
  }
  function LoadHeads(g: Job, ws: (int, int, int) -> real, slot: int, v: int): (int, int) -> real {
    (h: int, c: int) => ws(slot, HeadLo(g, v) + h, c)
  }
  function LoadQuery(g: Job, t: int): (int, int) -> real {
    (h: int, d: int) => g.Q(g.bt(t), g.sq(t), h, d)
  }
  function PutRow(f: (int, int) -> real, slot: int, r: int -> real): (int, int) -> real {
    (b: int, h: int) => if b == slot then r(h) else f(b, h)
  }

  // ----- computations

  function QkTerms(a: (int, int) -> real, k: (int, int, int) -> real, slot: int, h: int, j: int): int -> real {
    (d: int) => a(h, d) * k(slot, j, d)
  }
  /** C1P: Q . K^T. */
  function Scores(g: Job, q: (int, int) -> real, k: (int, int, int) -> real, slot: int): (int, int) -> real {
    (h: int, j: int) => Sum(QkTerms(q, k, slot, h, j), 0, g.dim)
  }
  function PvTerms(a: (int, int) -> real, k: (int, int, int) -> real, slot: int, h: int, d: int): int -> real {
    (j: int) => a(h, j) * k(slot, j, d)
  }
  /** C2P: P . V over the whole block, stale rows included. */
  function Products(g: Job, a: (int, int) -> real, k: (int, int, int) -> real, slot: int): (int, int) -> real {
    (h: int, d: int) => Sum(PvTerms(a, k, slot, h, d), 0, g.block)
  }

  function Max(a: real, b: real): real { if a < b then b else a }
  /** Row maximum of the scaled scores over the first k columns, stale columns included. */
  function RowMax(g: Job, x: (int, int) -> real, h: int, k: int): real {
    if k <= 1 then ScaleBy(g.smScale, x(h, 0)) else Max(RowMax(g, x, h, k - 1), ScaleBy(g.smScale, x(h, k - 1)))
  }
  function NewMax(g: Job, u: Ub, t: int): int -> real {
    (h: int) => if g.first(t) then RowMax(g, u.cross, h, g.block) else Max(u.max(h), RowMax(g, u.cross, h, g.block))
  }
  function NewScale(g: Job, u: Ub, t: int): int -> real {
    (h: int) => if g.first(t) then 0.0 else g.E(u.max(h) - NewMax(g, u, t)(h))
  }
  /** The mask of V1P: index not -1 and, in a short block, column below the tail. */
  predicate Unmasked(g: Job, u: Ub, t: int, j: int) {
    u.idx(t % 2, j) != -1 && (g.tail(t) < g.block ==> j < g.tail(t))
  }
  function Exps(g: Job, u: Ub, t: int): (int, int) -> real {
    (h: int, j: int) =>
      if Unmasked(g, u, t, j) then g.E(ScaleBy(g.smScale, u.cross(h, j)) - NewMax(g, u, t)(h)) else 0.0
  }
  function CrossRow(u: Ub, h: int): int -> real { (j: int) => u.cross(h, j) }
  function RowSums(g: Job, u: Ub): int -> real { (h: int) => Sum(CrossRow(u, h), 0, g.block) }
  function SinkTerms(g: Job, u: Ub, v: int): int -> real { (h: int) => g.E(g.sink(HeadLo(g, v) + h) - u.max(h)) }
  function RecordMax(u: Ub, t: int, m: int -> real): (int, int) -> real {
    (k: int, h: int) => if k == t then m(h) else u.maxOf(k, h)
  }

  /** V2P: the first block starts from zero, later ones rescale; the last block normalises. */
  function NewLog(g: Job, u: Ub, t: int): int -> real {
    (h: int) => (if g.first(t) then 0.0 else u.log(h)) * u.scale(t % 2, h) + u.sum(t % 2, h)
  }
  function NewAcc(g: Job, u: Ub, t: int): (int, int) -> real {
    (h: int, d: int) => (if g.first(t) then 0.0 else u.acc(h, d)) * u.scale(t % 2, h) + u.cross(h, d)
  }
  function AddSink(u: Ub, log: int -> real, slot: int): int -> real { (h: int) => log(h) + u.sink(slot, h) }
  /** Division as the vector unit does it: any total function that is division on nonzero divisors. */
  function Div(a: real, b: real): real { if b == 0.0 then 0.0 else a / b }
  function Divide(acc: (int, int) -> real, log: int -> real): (int, int) -> real {
    (h: int, d: int) => Div(acc(h, d), log(h))
  }
  function StoreOut(g: Job, out: (int, int, int, int) -> real, t: int, v: int, m: (int, int) -> real)
    : (int, int, int, int) -> real
  {
    (b: int, q: int, h: int, d: int) =>
      if b == g.bt(t) && q == g.sq(t) && HeadLo(g, v) <= h < HeadLo(g, v) + g.half then
        m(h - HeadLo(g, v), d)
      else
        out(b, q, h, d)
  }
  function CountOut(g: Job, w: (int, int, int) -> int, t: int, v: int): (int, int, int) -> int {
    (b: int, q: int, h: int) =>
      if b == g.bt(t) && q == g.sq(t) && HeadLo(g, v) <= h < HeadLo(g, v) + g.half then w(b, q, h) + 1 else w(b, q, h)
  }

  // ----- steps

  function CubeStep(g: Job, s: State): State {
    var t, ph := CubeTask(s.sync.cube), s.sync.cube.phase;
    var z := s.(sync := Step(g.n, s.sync, Cube));
    if CubeSkips(g.n, s.sync.cube) then z
    else if ph == C1L_WAIT then z.(l1Q := if g.first(t) then LoadQuery(g, t) else s.l1Q)
    else if ph == C1L_COPY then z.(l1Kv := StoreSlot(s.l1Kv, t % 2, LoadSlot(s.wsKv, t % 2)))
    else if ph == C1S_COPY then z.(wsS := StoreSlot(s.wsS, t % 2, Scores(g, s.l1Q, s.l1Kv, t % 2)))
    else if ph == C2L_COPY then z.(l1P := LoadSlot(s.wsP, t % 2))
    else if ph == C2S_COPY then z.(wsO := StoreSlot(s.wsO, t % 2, Products(g, s.l1P, s.l1Kv, t % 2)))
    else z
  }

  function SetUb(s: State, v: int, u: Ub): int -> Ub { (w: int) => if w == v then u else s.ub(w) }

  /** The unified buffer after V0L, V1P, V1P_post and V2P of task t. */
  function AfterV0L(g: Job, u: Ub, t: int): Ub { u.(idx := LoadIndices(g, u.idx, t)) }
  function AfterV1P(g: Job, u: Ub, t: int): Ub {
    u.(max := NewMax(g, u, t), scale := PutRow(u.scale, t % 2, NewScale(g, u, t)), cross := Exps(g, u, t),
       maxOf := RecordMax(u, t, NewMax(g, u, t)))
  }
  function AfterPost(g: Job, u: Ub, t: int, v: int): Ub {
    u.(sum := PutRow(u.sum, t % 2, RowSums(g, u)),
       sink := if g.last(t) then PutRow(u.sink, t % 2, SinkTerms(g, u, v)) else u.sink)
  }
  function AfterV2P(g: Job, u: Ub, t: int): Ub {
    var log := NewLog(g, u, t);
    if g.last(t) then u.(log := AddSink(u, log, t % 2), acc := Divide(NewAcc(g, u, t), AddSink(u, log, t % 2)))
    else u.(log := log, acc := NewAcc(g, u, t))
  }

  function VecStep(g: Job, s: State, v: int): State {
    var t, ph, u := VecTask(s.sync.vec(v)), s.sync.vec(v).phase, s.ub(v);
    var z := s.(sync := Step(g.n, s.sync, Vector(v)));
    if VecSkips(g.n, s.sync.vec(v)) then z
    else if ph == V0S_COPY then
      z.(ub := SetUb(s, v, AfterV0L(g, u, t)), wsKv := StoreRows(g, s.wsKv, AfterV0L(g, u, t).idx, t, v))
    else if ph == V1L_COPY then z.(ub := SetUb(s, v, u.(cross := LoadHeads(g, s.wsS, t % 2, v))))
    else if ph == V1S_COPY then
      z.(ub := SetUb(s, v, AfterV1P(g, u, t)), wsP := StoreHeads(g, s.wsP, t % 2, v, AfterV1P(g, u, t).cross))
    else if ph == V1_POST then z.(ub := SetUb(s, v, AfterPost(g, u, t, v)))
    else if ph == V2L_COPY then z.(ub := SetUb(s, v, u.(cross := LoadHeads(g, s.wsO, t % 2, v))))
    else if ph == V2_STORE then
      var z' := z.(ub := SetUb(s, v, AfterV2P(g, u, t)));
      if g.last(t) then
        z'.(out := StoreOut(g, s.out, t, v, AfterV2P(g, u, t).acc), writes := CountOut(g, s.writes, t, v))
      else z'
    else z
  }

  function Next(g: Job, s: State, c: Core): State {
    match c case Cube => CubeStep(g, s) case Vector(v) => VecStep(g, s, v)
  }

  type Out = (int, int, int, int) -> real
  /** What an action of a core in state s does to an output. */
  function NextOut(g: Job, s: State, c: Core, out: Out): Out {
    match c
    case Cube => out
    case Vector(v) =>
      var pc := s.sync.vec(v);
      if !VecSkips(g.n, pc) && pc.phase == V2_STORE && g.last(VecTask(pc)) then
        StoreOut(g, out, VecTask(pc), v, AfterV2P(g, s.ub(v), VecTask(pc)).acc)
      else out
  }
  lemma NextOutIs(g: Job, s: State, c: Core)
    ensures Next(g, s, c).out == NextOut(g, s, c, s.out)
  {
  }
  /** The action writes row (b, q, h). */
  predicate Writes(g: Job, s: State, c: Core, b: int, q: int, h: int) {
    match c
    case Cube => false
    case Vector(v) =>
      var pc := s.sync.vec(v);
      && !VecSkips(g.n, pc) && pc.phase == V2_STORE && g.last(VecTask(pc))
      && b == g.bt(VecTask(pc)) && q == g.sq(VecTask(pc)) && HeadLo(g, v) <= h < HeadLo(g, v) + g.half
  }
  /** The row is counted when written; then every output gets the same values, otherwise each keeps its own. */
  lemma WritesRow(g: Job, s: State, c: Core, b: int, q: int, h: int, d: int, out: Out)
    ensures Next(g, s, c).writes(b, q, h) == s.writes(b, q, h) + (if Writes(g, s, c, b, q, h) then 1 else 0)
    ensures Writes(g, s, c, b, q, h) ==> NextOut(g, s, c, out)(b, q, h, d) == Next(g, s, c).out(b, q, h, d)
    ensures !Writes(g, s, c, b, q, h) ==> Next(g, s, c).out(b, q, h, d) == s.out(b, q, h, d)
    ensures !Writes(g, s, c, b, q, h) ==> NextOut(g, s, c, out)(b, q, h, d) == out(b, q, h, d)
    ensures Writes(g, s, c, b, q, h) ==> exists t :: g.bt(t) == b && g.sq(t) == q
  {
    NextOutIs(g, s, c);
    if Writes(g, s, c, b, q, h) { assert g.bt(VecTask(s.sync.vec(c.vid))) == b; }
  }

  /** Any contents are allowed at launch: workspaces, buffers and output are uninitialised memory. */
  ghost predicate Initial(s: State) { s.sync == Start() && forall b, q, h :: s.writes(b, q, h) == 0 }

  lemma NextSync(g: Job, s: State, c: Core)
    ensures Next(g, s, c).sync == Step(g.n, s.sync, c)
  {
  }
}
