/** The multi-buffered vector add: every physical kernel runs the pipeline of PipeProtocol on its own unified
    buffer; all of them write tiles of one output matrix. Kernels and their pipes interleave freely. */
module VecAdd {
  import opened PipeProtocol

  type Matrix = (int, int) -> real
  type Slots = (int, int, int) -> real

  /** `num` kernels; kernel p has tasks(p) tasks, task t adding the bm x bn tile whose corner is (ox, oy)(p, t). */
  datatype Grid = Grid(num: nat, tasks: int -> nat, ox: (int, int) -> int, oy: (int, int) -> int,
                       bm: int, bn: int, A: Matrix, B: Matrix)

  /** `vec` is VEC: slots 0 .. 2 for A and the sum, slots 3 and 4 for B. */
  datatype Kernel = Kernel(sync: Sync, vec: Slots)
  datatype Machine = Machine(kernel: int -> Kernel, C: Matrix)
  datatype Act = Act(p: int, pipe: Pipe)

  predicate InTile(g: Grid, p: int, t: int, x: int, y: int) {
    g.ox(p, t) <= x < g.ox(p, t) + g.bm && g.oy(p, t) <= y < g.oy(p, t) + g.bn
  }
  /** What the tile index function must provide: different tasks, of whatever kernels, have disjoint tiles. */
  ghost predicate Apart(g: Grid, p: int, t: int, q: int, u: int) {
    forall x, y :: !(InTile(g, p, t, x, y) && InTile(g, q, u, x, y))
  }
  predicate IsTask(g: Grid, p: int, t: int) { 0 <= p < g.num && 0 <= t < g.tasks(p) }
  ghost predicate Legal(g: Grid) {
    forall p, t, q, u :: IsTask(g, p, t) && IsTask(g, q, u) && (p != q || t != u) ==> Apart(g, p, t, q, u)
  }

  // ----- actions

  function SlotA(t: int): int { t % 3 }
  function SlotB(t: int): int { 3 + t % 2 }
  /** Elements of the tile of a task. */
  function TileA(g: Grid, p: int, t: int, i: int, j: int): real { g.A(g.ox(p, t) + i, g.oy(p, t) + j) }
  function TileB(g: Grid, p: int, t: int, i: int, j: int): real { g.B(g.ox(p, t) + i, g.oy(p, t) + j) }

  function CopyA(g: Grid, vec: Slots, p: int, t: int): Slots {
    (b: int, i: int, j: int) => if b == SlotA(t) then TileA(g, p, t, i, j) else vec(b, i, j)
  }
  function CopyB(g: Grid, vec: Slots, p: int, t: int): Slots {
    (b: int, i: int, j: int) => if b == SlotB(t) then TileB(g, p, t, i, j) else vec(b, i, j)
  }
  function Add(vec: Slots, t: int): Slots {
    (b: int, i: int, j: int) => if b == SlotA(t) then vec(SlotA(t), i, j) + vec(SlotB(t), i, j) else vec(b, i, j)
  }
  function CopyOut(g: Grid, C: Matrix, vec: Slots, p: int, t: int): Matrix {
    (x: int, y: int) => if InTile(g, p, t, x, y) then vec(SlotA(t), x - g.ox(p, t), y - g.oy(p, t)) else C(x, y)
  }

  /** The buffer and output effect of one action. */
  function NewVec(g: Grid, k: Kernel, a: Act): Slots {
    var p, t, u := a.p, k.sync.load.task, k.sync.comp.task;
    match a.pipe
    case MTE2 =>
      if t < g.tasks(p) && k.sync.load.phase == COPY_A then CopyA(g, k.vec, p, t)
      else if t < g.tasks(p) && k.sync.load.phase == COPY_B then CopyB(g, k.vec, p, t)
      else k.vec
    case V => if u >= 0 && k.sync.comp.phase == ADD then Add(k.vec, u) else k.vec
    case MTE3 => k.vec
  }
  predicate Stores(k: Kernel, pipe: Pipe) { pipe == MTE3 && k.sync.store.task >= 0 && k.sync.store.phase == COPY_OUT }

  function Next(g: Grid, m: Machine, a: Act): Machine {
    var k := m.kernel(a.p);
    var k' := Kernel(Step(g.tasks(a.p), k.sync, a.pipe), NewVec(g, k, a));
    Machine((q: int) => if q == a.p then k' else m.kernel(q),
            if Stores(k, a.pipe) then CopyOut(g, m.C, k.vec, a.p, k.sync.store.task) else m.C)
  }
  predicate CanAct(g: Grid, m: Machine, a: Act) {
    0 <= a.p < g.num && Enabled(g.tasks(a.p), m.kernel(a.p).sync, a.pipe)
  }
  ghost predicate Initial(g: Grid, m: Machine) { forall p :: 0 <= p < g.num ==> m.kernel(p).sync == Start() }
  ghost predicate AllFinished(g: Grid, m: Machine) {
    forall p :: 0 <= p < g.num ==> Finished(g.tasks(p), m.kernel(p).sync)
  }

  // ----- buffers of one kernel

  ghost predicate AOk(g: Grid, vec: Slots, p: int, t: int) {
    forall i, j :: vec(SlotA(t), i, j) == TileA(g, p, t, i, j)
  }
  ghost predicate BOk(g: Grid, vec: Slots, p: int, t: int) {
    forall i, j :: vec(SlotB(t), i, j) == TileB(g, p, t, i, j)
  }
  ghost predicate SumOk(g: Grid, vec: Slots, p: int, t: int) {
    forall i, j :: vec(SlotA(t), i, j) == TileA(g, p, t, i, j) + TileB(g, p, t, i, j)
  }
  ghost predicate AInv(g: Grid, vec: Slots, p: int, lo: int, hi: int) { forall t :: lo <= t < hi ==> AOk(g, vec, p, t) }
  ghost predicate BInv(g: Grid, vec: Slots, p: int, lo: int, hi: int) { forall t :: lo <= t < hi ==> BOk(g, vec, p, t) }
  ghost predicate SumInv(g: Grid, vec: Slots, p: int, lo: int, hi: int) {
    forall t :: lo <= t < hi ==> SumOk(g, vec, p, t)
  }

  /** Slots hold A from its load to the add, the sum from the add to the store; B from its load to the add. */
  ghost predicate VecInv(g: Grid, k: Kernel, p: int) {
    var n, y := g.tasks(p), k.sync;
    && AInv(g, k.vec, p, Passed(n, y.comp, ADD), Passed(n, y.load, COPY_A))
    && BInv(g, k.vec, p, Passed(n, y.comp, ADD), Passed(n, y.load, COPY_B))
    && SumInv(g, k.vec, p, Passed(n, y.store, COPY_OUT), Passed(n, y.comp, ADD))
  }

  lemma OtherA(k: int, t: int)
    requires k != t && k - 2 <= t <= k + 2
    ensures SlotA(t) != SlotA(k)
  {
  }
  lemma OtherB(k: int, t: int)
    requires k != t && k - 1 <= t <= k + 1
    ensures SlotB(t) != SlotB(k)
  {
  }
  /** The buffer has three slots for A, then two for B. */
  lemma SlotsApart(t: int, k: int)
    ensures 0 <= SlotA(t) < 3 <= SlotB(k) < 5
  {
  }

  lemma LoadA(g: Grid, vec: Slots, p: int, k: int, lo: int, mid: int)
    requires AInv(g, vec, p, mid, k) && BInv(g, vec, p, mid, k) && SumInv(g, vec, p, lo, mid) && k - 2 <= lo <= mid <= k
    ensures var v := CopyA(g, vec, p, k);
      AInv(g, v, p, mid, k + 1) && BInv(g, v, p, mid, k) && SumInv(g, v, p, lo, mid)
  {
    var v := CopyA(g, vec, p, k);
    forall t | mid <= t < k ensures AOk(g, v, p, t) { assert AOk(g, vec, p, t); OtherA(k, t); }
    forall t | mid <= t < k ensures BOk(g, v, p, t) { assert BOk(g, vec, p, t); SlotsApart(k, t); }
    forall t | lo <= t < mid ensures SumOk(g, v, p, t) { assert SumOk(g, vec, p, t); OtherA(k, t); }
  }

  lemma LoadB(g: Grid, vec: Slots, p: int, k: int, lo: int, mid: int)
    requires AInv(g, vec, p, mid, k + 1) && BInv(g, vec, p, mid, k) && SumInv(g, vec, p, lo, mid) && k - 1 <= mid
    ensures var v := CopyB(g, vec, p, k);
      AInv(g, v, p, mid, k + 1) && BInv(g, v, p, mid, k + 1) && SumInv(g, v, p, lo, mid)
  {
    var v := CopyB(g, vec, p, k);
    forall t | mid <= t < k + 1 ensures AOk(g, v, p, t) { assert AOk(g, vec, p, t); SlotsApart(t, k); }
    forall t | mid <= t < k ensures BOk(g, v, p, t) { assert BOk(g, vec, p, t); OtherB(k, t); }
    forall t | lo <= t < mid ensures SumOk(g, v, p, t) { assert SumOk(g, vec, p, t); SlotsApart(t, k); }
  }

  lemma AddKeepsA(g: Grid, vec: Slots, p: int, k: int, t: int)
    requires AOk(g, vec, p, t) && k < t <= k + 2
    ensures AOk(g, Add(vec, k), p, t)
  {
    OtherA(k, t);
  }
  lemma AddKeepsB(g: Grid, vec: Slots, p: int, k: int, t: int)
    requires BOk(g, vec, p, t)
    ensures BOk(g, Add(vec, k), p, t)
  {
    SlotsApart(k, t);
  }
  lemma AddKeepsSum(g: Grid, vec: Slots, p: int, k: int, t: int)
    requires SumOk(g, vec, p, t) && k - 2 <= t < k
    ensures SumOk(g, Add(vec, k), p, t)
  {
    OtherA(k, t);
  }
  lemma AddMakesSum(g: Grid, vec: Slots, p: int, k: int)
    requires AOk(g, vec, p, k) && BOk(g, vec, p, k)
    ensures SumOk(g, Add(vec, k), p, k)
  {
  }
  lemma AddTask(g: Grid, vec: Slots, p: int, k: int, lo: int, ha: int, hb: int)
    requires AInv(g, vec, p, k, ha) && BInv(g, vec, p, k, hb) && SumInv(g, vec, p, lo, k)
    requires k < ha <= lo + 3 && k < hb && lo <= k
    ensures var v := Add(vec, k);
      AInv(g, v, p, k + 1, ha) && BInv(g, v, p, k + 1, hb) && SumInv(g, v, p, lo, k + 1)
  {
    var v := Add(vec, k);
    forall t | k + 1 <= t < ha ensures AOk(g, v, p, t) { AddKeepsA(g, vec, p, k, t); }
    forall t | k + 1 <= t < hb ensures BOk(g, v, p, t) { AddKeepsB(g, vec, p, k, t); }
    forall t | lo <= t < k + 1 ensures SumOk(g, v, p, t) {
      if t < k { AddKeepsSum(g, vec, p, k, t); } else { AddMakesSum(g, vec, p, k); }
    }
  }

  /** How far the copies and the add have come, before and after an action; and what the waits guarantee. */
  lemma Copies(n: nat, y: Sync, pipe: Pipe)
    requires PcsOk(n, y) && Enabled(n, y, pipe)
    ensures var z := Step(n, y, pipe);
      && Moves(Passed(n, y.load, COPY_A), Passed(n, z.load, COPY_A),
               pipe == MTE2 && y.load.task < n && y.load.phase == COPY_A)
      && Moves(Passed(n, y.load, COPY_B), Passed(n, z.load, COPY_B),
               pipe == MTE2 && y.load.task < n && y.load.phase == COPY_B)
      && Moves(Passed(n, y.comp, ADD), Passed(n, z.comp, ADD), pipe == V && y.comp.task >= 0 && y.comp.phase == ADD)
      && Moves(Passed(n, y.store, COPY_OUT), Passed(n, z.store, COPY_OUT),
               pipe == MTE3 && y.store.task >= 0 && y.store.phase == COPY_OUT)
  {
  }

  lemma SlotsFree(n: nat, y: Sync)
    requires Ordered(n, y)
    ensures y.load.task < n && y.load.phase == COPY_A ==>
      && Passed(n, y.load, COPY_A) == y.load.task == Passed(n, y.load, COPY_B)
      && y.load.task - 2 <= Passed(n, y.store, COPY_OUT) <= Passed(n, y.comp, ADD) <= y.load.task
    ensures y.load.task < n && y.load.phase == COPY_B ==>
      && Passed(n, y.load, COPY_A) == y.load.task + 1 && Passed(n, y.load, COPY_B) == y.load.task
      && y.load.task - 1 <= Passed(n, y.comp, ADD)
    ensures 0 <= y.comp.task < n && y.comp.phase == ADD ==>
      && Passed(n, y.comp, ADD) == y.comp.task
      && y.comp.task < Passed(n, y.load, COPY_B) <= Passed(n, y.load, COPY_A) <= Passed(n, y.store, COPY_OUT) + 3
      && Passed(n, y.store, COPY_OUT) <= y.comp.task
    ensures 0 <= y.store.task < n && y.store.phase == COPY_OUT ==>
      Passed(n, y.store, COPY_OUT) == y.store.task < Passed(n, y.comp, ADD)
  {
    Windows(n, y);
  }

  lemma VecStep(g: Grid, k: Kernel, a: Act)
    requires VecInv(g, k, a.p) && Ordered(g.tasks(a.p), k.sync) && Enabled(g.tasks(a.p), k.sync, a.pipe)
    ensures VecInv(g, Kernel(Step(g.tasks(a.p), k.sync, a.pipe), NewVec(g, k, a)), a.p)
  {
    var n, y, p := g.tasks(a.p), k.sync, a.p;
    Copies(n, y, a.pipe);
    SlotsFree(n, y);
    if a.pipe == MTE2 && y.load.task < n && y.load.phase == COPY_A {
      LoadA(g, k.vec, p, y.load.task, Passed(n, y.store, COPY_OUT), Passed(n, y.comp, ADD));
    } else if a.pipe == MTE2 && y.load.task < n && y.load.phase == COPY_B {
      LoadB(g, k.vec, p, y.load.task, Passed(n, y.store, COPY_OUT), Passed(n, y.comp, ADD));
    } else if a.pipe == V && y.comp.task >= 0 && y.comp.phase == ADD {
      AddTask(g, k.vec, p, y.comp.task, Passed(n, y.store, COPY_OUT), Passed(n, y.load, COPY_A),
              Passed(n, y.load, COPY_B));
    } else {
      assert NewVec(g, k, a) == k.vec;
    }
  }

  // ----- the output matrix

  function Stored(g: Grid, m: Machine, p: int): int { Passed(g.tasks(p), m.kernel(p).sync.store, COPY_OUT) }

  ghost predicate TileOk(g: Grid, C: Matrix, p: int, t: int) {
    forall x, y :: InTile(g, p, t, x, y) ==> C(x, y) == g.A(x, y) + g.B(x, y)
  }
  predicate IsStored(g: Grid, m: Machine, p: int, t: int) { 0 <= p < g.num && 0 <= t < Stored(g, m, p) }

  /** Stored tiles hold the sum, everything else is as it was at launch. */
  ghost predicate OutInv(g: Grid, m: Machine, C0: Matrix) {
    && (forall p, t :: IsStored(g, m, p, t) ==> TileOk(g, m.C, p, t))
    && (forall x, y :: m.C(x, y) == C0(x, y) || exists p, t :: IsStored(g, m, p, t) && InTile(g, p, t, x, y))
  }
  ghost predicate KernelOk(g: Grid, k: Kernel, p: int) { Inv(g.tasks(p), k.sync) && VecInv(g, k, p) }
  ghost predicate MachineInv(g: Grid, m: Machine, C0: Matrix) {
    && (forall p :: 0 <= p < g.num ==> KernelOk(g, m.kernel(p), p))
    && OutInv(g, m, C0)
  }

  lemma StoreTile(g: Grid, C: Matrix, vec: Slots, p: int, t: int)
    requires SumOk(g, vec, p, t)
    ensures TileOk(g, CopyOut(g, C, vec, p, t), p, t)
  {
    var D := CopyOut(g, C, vec, p, t);
    forall x, y | InTile(g, p, t, x, y)
      ensures D(x, y) == g.A(x, y) + g.B(x, y)
    {
      var i, j := x - g.ox(p, t), y - g.oy(p, t);
      assert vec(SlotA(t), i, j) == TileA(g, p, t, i, j) + TileB(g, p, t, i, j);
    }
  }

  lemma StoreKeepsTile(g: Grid, C: Matrix, vec: Slots, p: int, t: int, q: int, u: int)
    requires TileOk(g, C, q, u) && Apart(g, p, t, q, u)
    ensures TileOk(g, CopyOut(g, C, vec, p, t), q, u)
  {
  }

  lemma StoredMoves(g: Grid, m: Machine, a: Act, q: int)
    requires CanAct(g, m, a) && PcsOk(g.tasks(a.p), m.kernel(a.p).sync)
    ensures var k := m.kernel(a.p);
      Moves(Stored(g, m, q), Stored(g, Next(g, m, a), q), q == a.p && Stores(k, a.pipe))
    ensures Stores(m.kernel(a.p), a.pipe) ==> Stored(g, m, a.p) == m.kernel(a.p).sync.store.task < g.tasks(a.p)
  {
    Copies(g.tasks(a.p), m.kernel(a.p).sync, a.pipe);
  }

  /** One store, seen on the output alone: z has one more stored task of kernel p than m. */
  lemma StoreKeepsOld(g: Grid, m: Machine, z: Machine, vec: Slots, p: int, t: int, C0: Matrix)
    requires Legal(g) && OutInv(g, m, C0) && IsTask(g, p, t) && z.C == CopyOut(g, m.C, vec, p, t) && SumOk(g, vec, p, t)
    requires forall q, u :: IsStored(g, z, q, u) <==> IsStored(g, m, q, u) || (q == p && u == t)
    requires forall q, u :: IsStored(g, m, q, u) ==> IsTask(g, q, u) && (q != p || u != t)
    ensures forall q, u :: IsStored(g, z, q, u) ==> TileOk(g, z.C, q, u)
  {
    StoreTile(g, m.C, vec, p, t);
    forall q, u | IsStored(g, m, q, u)
      ensures TileOk(g, z.C, q, u)
    {
      assert Apart(g, p, t, q, u);
      StoreKeepsTile(g, m.C, vec, p, t, q, u);
    }
  }

  lemma StoreKeepsRest(g: Grid, m: Machine, z: Machine, vec: Slots, p: int, t: int, C0: Matrix)
    requires OutInv(g, m, C0) && z.C == CopyOut(g, m.C, vec, p, t)
    requires forall q, u :: IsStored(g, z, q, u) <==> IsStored(g, m, q, u) || (q == p && u == t)
    ensures forall x, y :: z.C(x, y) == C0(x, y) || exists q, u :: IsStored(g, z, q, u) && InTile(g, q, u, x, y)
  {
    forall x, y
      ensures z.C(x, y) == C0(x, y) || exists q, u :: IsStored(g, z, q, u) && InTile(g, q, u, x, y)
    {
      if InTile(g, p, t, x, y) {
        assert IsStored(g, z, p, t);
      } else if m.C(x, y) != C0(x, y) {
        var q, u :| IsStored(g, m, q, u) && InTile(g, q, u, x, y);
        assert IsStored(g, z, q, u);
      }
    }
  }

  lemma StoredOnce(g: Grid, m: Machine, z: Machine, p: int, t: int)
    requires 0 <= p < g.num && Stored(g, m, p) == t && t >= 0
    requires forall q :: Moves(Stored(g, m, q), Stored(g, z, q), q == p)
    ensures forall q, u :: IsStored(g, z, q, u) <==> IsStored(g, m, q, u) || (q == p && u == t)
    ensures forall q, u :: IsStored(g, m, q, u) ==> IsTask(g, q, u) && (q != p || u != t)
  {
    forall q, u
      ensures IsStored(g, z, q, u) <==> IsStored(g, m, q, u) || (q == p && u == t)
    {
      assert Moves(Stored(g, m, q), Stored(g, z, q), q == p);
    }
    StoredInTasks(g, m);
  }
  lemma SumReady(g: Grid, k: Kernel, p: int)
    requires Inv(g.tasks(p), k.sync) && VecInv(g, k, p) && 0 <= k.sync.store.task < g.tasks(p)
    requires k.sync.store.phase == COPY_OUT
    ensures SumOk(g, k.vec, p, k.sync.store.task)
  {
    SlotsFree(g.tasks(p), k.sync);
  }
  lemma OutStep(g: Grid, m: Machine, a: Act, C0: Matrix)
    requires Legal(g) && MachineInv(g, m, C0) && CanAct(g, m, a)
    ensures OutInv(g, Next(g, m, a), C0)
  {
    var z, k, t := Next(g, m, a), m.kernel(a.p), m.kernel(a.p).sync.store.task;
    forall q { StoredMoves(g, m, a, q); }
    if Stores(k, a.pipe) {
      SumReady(g, k, a.p);
      StoredOnce(g, m, z, a.p, t);
      StoreKeepsOld(g, m, z, k.vec, a.p, t, C0);
      StoreKeepsRest(g, m, z, k.vec, a.p, t, C0);
    } else {
      SameStored(g, m, z, C0);
    }
  }

  lemma StoredInTasks(g: Grid, m: Machine)
    ensures forall q, u :: IsStored(g, m, q, u) ==> IsTask(g, q, u)
  {
  }

  lemma SameStored(g: Grid, m: Machine, z: Machine, C0: Matrix)
    requires OutInv(g, m, C0) && z.C == m.C && forall q :: Stored(g, z, q) == Stored(g, m, q)
    ensures OutInv(g, z, C0)
  {
    forall q, u ensures IsStored(g, z, q, u) <==> IsStored(g, m, q, u) {}
  }

  lemma KernelStep(g: Grid, k: Kernel, a: Act)
    requires KernelOk(g, k, a.p) && Enabled(g.tasks(a.p), k.sync, a.pipe)
    ensures KernelOk(g, Kernel(Step(g.tasks(a.p), k.sync, a.pipe), NewVec(g, k, a)), a.p)
  {
    StepInv(g.tasks(a.p), k.sync, a.pipe);
    VecStep(g, k, a);
  }
  lemma KernelsStep(g: Grid, m: Machine, a: Act)
    requires CanAct(g, m, a) && forall p :: 0 <= p < g.num ==> KernelOk(g, m.kernel(p), p)
    ensures forall p :: 0 <= p < g.num ==> KernelOk(g, Next(g, m, a).kernel(p), p)
  {
    KernelStep(g, m.kernel(a.p), a);
  }

  // ----- whole runs

  ghost predicate Schedule(g: Grid, m: Machine, acts: seq<Act>)
    decreases |acts|
  {
    acts == [] || (CanAct(g, m, acts[0]) && Schedule(g, Next(g, m, acts[0]), acts[1..]))
  }
  function After(g: Grid, m: Machine, acts: seq<Act>): Machine
    decreases |acts|
  {
    if acts == [] then m else After(g, Next(g, m, acts[0]), acts[1..])
  }

  lemma StartKeeps(g: Grid, m: Machine)
    requires Initial(g, m)
    ensures MachineInv(g, m, m.C)
  {
    forall p | 0 <= p < g.num ensures KernelOk(g, m.kernel(p), p) { StartInv(g.tasks(p)); }
  }

  /** In a state of the invariant, a kernel that has not ended can act. */
  ghost predicate NoneStuck(g: Grid, m: Machine) {
    forall p :: 0 <= p < g.num && !Finished(g.tasks(p), m.kernel(p).sync) ==> exists pipe :: CanAct(g, m, Act(p, pipe))
  }
  lemma KernelActs(g: Grid, m: Machine, p: int)
    requires 0 <= p < g.num && Inv(g.tasks(p), m.kernel(p).sync) && !Finished(g.tasks(p), m.kernel(p).sync)
    ensures exists pipe :: CanAct(g, m, Act(p, pipe))
  {
    var pipe := EnabledPipe(g.tasks(p), m.kernel(p).sync);
    assert CanAct(g, m, Act(p, pipe));
  }
  lemma MachineStep(g: Grid, m: Machine, a: Act, C0: Matrix)
    requires Legal(g) && MachineInv(g, m, C0) && CanAct(g, m, a)
    ensures MachineInv(g, Next(g, m, a), C0)
  {
    OutStep(g, m, a, C0);
    KernelsStep(g, m, a);
  }
  /** The invariant holds after every interleaving, and a kernel that has not ended can always act. */
  lemma {:induction false} RunInv(g: Grid, m: Machine, acts: seq<Act>, C0: Matrix)
    requires Legal(g) && MachineInv(g, m, C0) && Schedule(g, m, acts)
    ensures MachineInv(g, After(g, m, acts), C0) && NoneStuck(g, After(g, m, acts))
    decreases |acts|
  {
    if acts == [] {
      forall p | 0 <= p < g.num && !Finished(g.tasks(p), m.kernel(p).sync)
        ensures exists pipe :: CanAct(g, m, Act(p, pipe))
      {
        KernelActs(g, m, p);
      }
    } else {
      var z := Next(g, m, acts[0]);
      MachineStep(g, m, acts[0], C0);
      RunInv(g, z, acts[1..], C0);
    }
  }

  /** When all kernels have ended, every tile holds the sum, whatever the interleaving, and nothing else was written. */
  lemma FinishedRun(g: Grid, m: Machine, acts: seq<Act>)
    requires Legal(g) && Initial(g, m) && Schedule(g, m, acts) && AllFinished(g, After(g, m, acts))
    ensures forall p, t :: IsTask(g, p, t) ==> TileOk(g, After(g, m, acts).C, p, t)
    ensures forall x, y :: (forall p, t :: IsTask(g, p, t) ==> !InTile(g, p, t, x, y)) ==>
      After(g, m, acts).C(x, y) == m.C(x, y)
  {
    StartKeeps(g, m);
    RunInv(g, m, acts, m.C);
    var z := After(g, m, acts);
    forall p, t ensures IsTask(g, p, t) <==> IsStored(g, z, p, t) {}
  }

  /** Actions left to a kernel whose pipes stand at y. */
  function Left(n: nat, y: Sync): int {
    5 * (n - y.load.task) + 5 - y.load.phase + 4 * (n - y.comp.task) - y.comp.phase +
      3 * (n - y.store.task) - y.store.phase
  }
  function ActsOf(acts: seq<Act>, p: int): nat {
    if acts == [] then 0 else (if acts[0].p == p then 1 else 0) + ActsOf(acts[1..], p)
  }

  lemma LeftShrinks(n: nat, y: Sync, pipe: Pipe)
    requires PcsOk(n, y) && Enabled(n, y, pipe)
    ensures Left(n, Step(n, y, pipe)) < Left(n, y)
  {
  }
  lemma LeftNonNegative(n: nat, y: Sync)
    requires PcsOk(n, y)
    ensures Left(n, y) >= 0
  {
  }

  lemma LeftAtStart(n: nat)
    ensures Left(n, Start()) <= 12 * n + 12
  {
  }
  lemma LeftFalls(g: Grid, m: Machine, a: Act, p: int)
    requires CanAct(g, m, a) && PcsOk(g.tasks(a.p), m.kernel(a.p).sync)
    ensures Left(g.tasks(p), Next(g, m, a).kernel(p).sync) + (if a.p == p then 1 else 0)
              <= Left(g.tasks(p), m.kernel(p).sync)
  {
    if a.p == p {
      assert Next(g, m, a).kernel(p).sync == Step(g.tasks(p), m.kernel(p).sync, a.pipe);
      LeftShrinks(g.tasks(p), m.kernel(p).sync, a.pipe);
    }
  }
  /** Every run ends: a kernel with n tasks never acts more than 12 n + 12 times. */
  lemma {:induction false} RunsEnd(g: Grid, m: Machine, acts: seq<Act>, p: int, C0: Matrix)
    requires Legal(g) && MachineInv(g, m, C0) && Schedule(g, m, acts) && 0 <= p < g.num
    ensures ActsOf(acts, p) <= Left(g.tasks(p), m.kernel(p).sync)
    ensures Initial(g, m) ==> ActsOf(acts, p) <= 12 * g.tasks(p) + 12
    decreases |acts|
  {
    if acts == [] {
      LeftNonNegative(g.tasks(p), m.kernel(p).sync);
    } else {
      var z := Next(g, m, acts[0]);
      MachineStep(g, m, acts[0], C0);
      LeftFalls(g, m, acts[0], p);
      RunsEnd(g, z, acts[1..], p, C0);
    }
    if Initial(g, m) { LeftAtStart(g.tasks(p)); }
  }
}
