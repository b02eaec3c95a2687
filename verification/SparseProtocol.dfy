/** Synchronisation of the high-performance sparse attention kernel: one Cube core and two Vector
    sub-cores run skewed task loops joined by four double-buffered workspaces (kv, s, p, o).
    The flags say "slot is full"; nothing says "slot is free", so reuse of a slot is safe only
    because of the order in which the three loops wait for each other. */
module SparseProtocol {

  /** Position in a task loop: `stream` counts loop iterations, `phase` the actions inside one. */
  datatype Pc = Pc(stream: int, phase: int)

  /** Positions of the three cores, and the pending flags of each workspace by (sub-core, slot).
      kv and p are raised by the sub-cores, one bit each; the Cube waits until both bits are up.
      s and o are raised by the Cube for both sub-cores at once. */
  datatype Sync = Sync(cube: Pc, vec: int -> Pc,
                       kv: (int, int) -> int, s: (int, int) -> int,
                       p: (int, int) -> int, o: (int, int) -> int)

  datatype Core = Cube | Vector(vid: int)

  predicate IsCore(c: Core) { c.Vector? ==> c.vid == 0 || c.vid == 1 }

  /** Cube iteration k: C1L wait, C1L copy, C1P + C1S copy, C1S set for task k;
      C2L wait, C2L copy, C2P + C2S copy, C2S set for task k - 1. */
  const C1L_WAIT := 0
  const C1L_COPY := 1
  const C1S_COPY := 2
  const C1S_SET := 3
  const C2L_WAIT := 4
  const C2L_COPY := 5
  const C2S_COPY := 6
  const C2S_SET := 7

  /** Vector iteration k: V0L + V0S copy, V0S set for task k; V1L wait, V1L copy, V1P + V1S copy,
      V1S set, V1P_post for task k - 1; V2L wait, V2L copy, V2P + V2S for task k - 2. */
  const V0S_COPY := 0
  const V0S_SET := 1
  const V1L_WAIT := 2
  const V1L_COPY := 3
  const V1S_COPY := 4
  const V1S_SET := 5
  const V1_POST := 6
  const V2L_WAIT := 7
  const V2L_COPY := 8
  const V2_STORE := 9

  predicate CubeDone(n: nat, pc: Pc) { pc.stream == n + 1 }
  predicate VecDone(n: nat, pc: Pc) { pc.stream == n + 2 }

  /** The `if` guards of the two loops: whether the block the core stands at is skipped. */
  predicate CubeSkips(n: nat, pc: Pc) {
    || (pc.phase == C1L_WAIT && !(pc.stream < n))
    || (pc.phase == C2L_WAIT && !(pc.stream > 0))
  }
  predicate VecSkips(n: nat, pc: Pc) {
    || (pc.phase == V0S_COPY && !(pc.stream < n))
    || (pc.phase == V1L_WAIT && !(pc.stream > 0 && pc.stream - 1 < n))
    || (pc.phase == V2L_WAIT && !(pc.stream > 1))
  }

  function CubeAdvance(n: nat, pc: Pc): Pc {
    if pc.phase == C1L_WAIT && CubeSkips(n, pc) then Pc(pc.stream, C2L_WAIT)
    else if pc.phase == C2S_SET || CubeSkips(n, pc) then Pc(pc.stream + 1, 0)
    else Pc(pc.stream, pc.phase + 1)
  }
  function VecAdvance(n: nat, pc: Pc): Pc {
    if pc.phase == V0S_COPY && VecSkips(n, pc) then Pc(pc.stream, V1L_WAIT)
    else if pc.phase == V1L_WAIT && VecSkips(n, pc) then Pc(pc.stream, V2L_WAIT)
    else if pc.phase == V2_STORE || VecSkips(n, pc) then Pc(pc.stream + 1, 0)
    else Pc(pc.stream, pc.phase + 1)
  }

  /** The task a core is working on. */
  function CubeTask(pc: Pc): int { if pc.phase < C2L_WAIT then pc.stream else pc.stream - 1 }
  function VecTask(pc: Pc): int {
    if pc.phase < V1L_WAIT then pc.stream else if pc.phase < V2L_WAIT then pc.stream - 1 else pc.stream - 2
  }

  /** A core is blocked only at a wait whose flag is not up yet. */
  predicate Enabled(n: nat, y: Sync, c: Core) {
    match c
    case Cube =>
      var slot := CubeTask(y.cube) % 2;
      && !CubeDone(n, y.cube)
      && (CubeSkips(n, y.cube)
          || ((y.cube.phase == C1L_WAIT ==> y.kv(0, slot) > 0 && y.kv(1, slot) > 0)
              && (y.cube.phase == C2L_WAIT ==> y.p(0, slot) > 0 && y.p(1, slot) > 0)))
    case Vector(v) =>
      var slot := VecTask(y.vec(v)) % 2;
      && !VecDone(n, y.vec(v))
      && (VecSkips(n, y.vec(v))
          || ((y.vec(v).phase == V1L_WAIT ==> y.s(v, slot) > 0)
              && (y.vec(v).phase == V2L_WAIT ==> y.o(v, slot) > 0)))
  }

  /** Adding d to a flag of one sub-core, or of both. */
  function Bump(f: (int, int) -> int, v: int, slot: int, d: int): (int, int) -> int {
    (u: int, b: int) => if u == v && b == slot then f(u, b) + d else f(u, b)
  }
  function BumpBoth(f: (int, int) -> int, slot: int, d: int): (int, int) -> int {
    (u: int, b: int) => if b == slot then f(u, b) + d else f(u, b)
  }

  function Step(n: nat, y: Sync, c: Core): Sync {
    match c
    case Cube =>
      var slot, ph, go := CubeTask(y.cube) % 2, y.cube.phase, !CubeSkips(n, y.cube);
      y.(cube := CubeAdvance(n, y.cube),
         kv := if go && ph == C1L_WAIT then BumpBoth(y.kv, slot, -1) else y.kv,
         s := if ph == C1S_SET then BumpBoth(y.s, slot, 1) else y.s,
         p := if go && ph == C2L_WAIT then BumpBoth(y.p, slot, -1) else y.p,
         o := if ph == C2S_SET then BumpBoth(y.o, slot, 1) else y.o)
    case Vector(v) =>
      var pc := y.vec(v);
      var slot, ph, go := VecTask(pc) % 2, pc.phase, !VecSkips(n, pc);
      y.(vec := (u: int) => if u == v then VecAdvance(n, pc) else y.vec(u),
         kv := if ph == V0S_SET then Bump(y.kv, v, slot, 1) else y.kv,
         s := if go && ph == V1L_WAIT then Bump(y.s, v, slot, -1) else y.s,
         p := if ph == V1S_SET then Bump(y.p, v, slot, 1) else y.p,
         o := if go && ph == V2L_WAIT then Bump(y.o, v, slot, -1) else y.o)
  }

  function Start(): Sync {
    Sync(Pc(0, 0), (v: int) => Pc(0, 0), (v: int, b: int) => 0, (v: int, b: int) => 0,
         (v: int, b: int) => 0, (v: int, b: int) => 0)
  }

  predicate Finished(n: nat, y: Sync) {
    CubeDone(n, y.cube) && VecDone(n, y.vec(0)) && VecDone(n, y.vec(1))
  }

  // ----- counting

  /** How many tasks have passed the action `phase`, which a core does for task stream - skew. */
  function Passed(n: nat, pc: Pc, skew: int, phase: int): int {
    var c := pc.stream - skew + (if pc.phase > phase then 1 else 0);
    if c < 0 then 0 else if c > n then n else c
  }
  function CubeFirst(n: nat, y: Sync, phase: int): int { Passed(n, y.cube, 0, phase) }
  function CubeSecond(n: nat, y: Sync, phase: int): int { Passed(n, y.cube, 1, phase) }
  function VecZero(n: nat, y: Sync, v: int, phase: int): int { Passed(n, y.vec(v), 0, phase) }
  function VecOne(n: nat, y: Sync, v: int, phase: int): int { Passed(n, y.vec(v), 1, phase) }
  function VecTwo(n: nat, y: Sync, v: int, phase: int): int { Passed(n, y.vec(v), 2, phase) }

  /** The flags of sub-core v after `sets` raises and `waits` consumptions in task order, tasks
      alternating between the slots: the oldest outstanding task is task `waits`. */
  predicate Tally(f: (int, int) -> int, v: int, sets: int, waits: int) {
    && f(v, waits % 2) == (if waits < sets then 1 else 0)
    && f(v, 1 - waits % 2) == (if waits + 1 < sets then 1 else 0)
  }

  predicate CubePcOk(n: nat, pc: Pc) {
    && 0 <= pc.stream <= n + 1 && 0 <= pc.phase <= C2S_SET
    && (pc.stream == n + 1 ==> pc.phase == 0)
    && (pc.stream >= n ==> pc.phase == 0 || pc.phase >= C2L_WAIT)
    && (pc.stream == 0 ==> pc.phase <= C2L_WAIT)
  }
  predicate VecPcOk(n: nat, pc: Pc) {
    && 0 <= pc.stream <= n + 2 && 0 <= pc.phase <= V2_STORE
    && (pc.stream == n + 2 ==> pc.phase == 0)
    && (pc.stream >= n ==> pc.phase != V0S_SET)
    && (pc.stream == 0 || pc.stream > n ==> pc.phase <= V1L_WAIT || pc.phase >= V2L_WAIT)
    && (pc.stream < 2 ==> pc.phase <= V2L_WAIT)
  }

  /** No wait has overtaken its set, on any of the four channels of a sub-core. */
  predicate Ordered(n: nat, y: Sync, v: int) {
    && VecPcOk(n, y.vec(v))
    && CubeFirst(n, y, C1L_WAIT) <= VecZero(n, y, v, V0S_SET)
    && VecOne(n, y, v, V1L_WAIT) <= CubeFirst(n, y, C1S_SET)
    && CubeSecond(n, y, C2L_WAIT) <= VecOne(n, y, v, V1S_SET)
    && VecTwo(n, y, v, V2L_WAIT) <= CubeSecond(n, y, C2S_SET)
  }
  predicate Counted(n: nat, y: Sync, v: int) {
    && Tally(y.kv, v, VecZero(n, y, v, V0S_SET), CubeFirst(n, y, C1L_WAIT))
    && Tally(y.s, v, CubeFirst(n, y, C1S_SET), VecOne(n, y, v, V1L_WAIT))
    && Tally(y.p, v, VecOne(n, y, v, V1S_SET), CubeSecond(n, y, C2L_WAIT))
    && Tally(y.o, v, CubeSecond(n, y, C2S_SET), VecTwo(n, y, v, V2L_WAIT))
  }
  predicate Lined(n: nat, y: Sync) { CubePcOk(n, y.cube) && Ordered(n, y, 0) && Ordered(n, y, 1) }
  predicate Inv(n: nat, y: Sync) { Lined(n, y) && Counted(n, y, 0) && Counted(n, y, 1) }

  // ----- arithmetic of one flag

  /** A counter that moves from a to b: by one past task t when `hit`, not at all otherwise. */
  predicate Moves(a: int, b: int, hit: bool, t: int) {
    if hit then a == t && b == t + 1 else b == a
  }

  /** The flag of task t's slot changes by d, the other one keeps its value. */
  predicate Flips(f: (int, int) -> int, g: (int, int) -> int, v: int, d: int, t: int) {
    g(v, t % 2) == f(v, t % 2) + d && g(v, 1 - t % 2) == f(v, 1 - t % 2)
  }

  lemma TallySet(f: (int, int) -> int, g: (int, int) -> int, v: int, sets: int, sets': int, waits: int, hit: bool,
                 t: int)
    requires Tally(f, v, sets, waits) && InWindow(sets, waits) && InWindow(sets', waits)
    requires Moves(sets, sets', hit, t) && Flips(f, g, v, if hit then 1 else 0, t)
    ensures Tally(g, v, sets', waits)
  {
  }

  lemma TallyWait(f: (int, int) -> int, g: (int, int) -> int, v: int, sets: int, waits: int, waits': int, hit: bool,
                  t: int)
    requires Tally(f, v, sets, waits) && InWindow(sets, waits) && InWindow(sets, waits')
    requires Moves(waits, waits', hit, t) && Flips(f, g, v, if hit then -1 else 0, t)
    ensures Tally(g, v, sets, waits')
  {
  }

  lemma TallyBits(f: (int, int) -> int, v: int, sets: int, waits: int)
    requires Tally(f, v, sets, waits)
    ensures 0 <= f(v, 0) <= 1 && 0 <= f(v, 1) <= 1
  {
  }

  // ----- the invariant holds in every reachable state

  lemma StartInv(n: nat)
    ensures Inv(n, Start())
  {
  }

  /** How one Cube action moves its four counters. */
  lemma CubeMoves(n: nat, y: Sync)
    requires CubePcOk(n, y.cube) && !CubeDone(n, y.cube)
    ensures var z, go, t := Step(n, y, Cube), !CubeSkips(n, y.cube), CubeTask(y.cube);
      && Moves(CubeFirst(n, y, C1L_WAIT), CubeFirst(n, z, C1L_WAIT), go && y.cube.phase == C1L_WAIT, t)
      && Moves(CubeFirst(n, y, C1S_SET), CubeFirst(n, z, C1S_SET), y.cube.phase == C1S_SET, t)
      && Moves(CubeSecond(n, y, C2L_WAIT), CubeSecond(n, z, C2L_WAIT), go && y.cube.phase == C2L_WAIT, t)
      && Moves(CubeSecond(n, y, C2S_SET), CubeSecond(n, z, C2S_SET), y.cube.phase == C2S_SET, t)
  {
  }

  /** A wait that passes has its set before it. */
  lemma CubeWaitMet(n: nat, y: Sync, v: int)
    requires CubePcOk(n, y.cube) && Ordered(n, y, v) && Counted(n, y, v) && (v == 0 || v == 1)
    requires Enabled(n, y, Cube) && !CubeSkips(n, y.cube)
    ensures y.cube.phase == C1L_WAIT ==> CubeFirst(n, y, C1L_WAIT) < VecZero(n, y, v, V0S_SET)
    ensures y.cube.phase == C2L_WAIT ==> CubeSecond(n, y, C2L_WAIT) < VecOne(n, y, v, V1S_SET)
  {
    CubeMoves(n, y);
  }
  lemma CubeLeavesVec(n: nat, y: Sync, v: int)
    requires CubePcOk(n, y.cube) && !CubeDone(n, y.cube)
    ensures var z := Step(n, y, Cube);
      && CubePcOk(n, z.cube) && z.vec(v) == y.vec(v)
      && VecZero(n, z, v, V0S_SET) == VecZero(n, y, v, V0S_SET)
      && VecOne(n, z, v, V1L_WAIT) == VecOne(n, y, v, V1L_WAIT)
      && VecOne(n, z, v, V1S_SET) == VecOne(n, y, v, V1S_SET)
      && VecTwo(n, z, v, V2L_WAIT) == VecTwo(n, y, v, V2L_WAIT)
  {
  }
  lemma CubeStepOrder(n: nat, y: Sync, v: int)
    requires CubePcOk(n, y.cube) && Ordered(n, y, v) && Counted(n, y, v) && (v == 0 || v == 1)
    requires Enabled(n, y, Cube)
    ensures CubePcOk(n, Step(n, y, Cube).cube) && Ordered(n, Step(n, y, Cube), v)
  {
    CubeMoves(n, y);
    CubeLeavesVec(n, y, v);
    if !CubeSkips(n, y.cube) { CubeWaitMet(n, y, v); }
  }

  lemma VecMoves(n: nat, y: Sync, v: int)
    requires VecPcOk(n, y.vec(v)) && !VecDone(n, y.vec(v))
    ensures var z, pc := Step(n, y, Vector(v)), y.vec(v);
      var go, t := !VecSkips(n, pc), VecTask(pc);
      && Moves(VecZero(n, y, v, V0S_SET), VecZero(n, z, v, V0S_SET), pc.phase == V0S_SET, t)
      && Moves(VecOne(n, y, v, V1L_WAIT), VecOne(n, z, v, V1L_WAIT), go && pc.phase == V1L_WAIT, t)
      && Moves(VecOne(n, y, v, V1S_SET), VecOne(n, z, v, V1S_SET), pc.phase == V1S_SET, t)
      && Moves(VecTwo(n, y, v, V2L_WAIT), VecTwo(n, z, v, V2L_WAIT), go && pc.phase == V2L_WAIT, t)
  {
  }

  /** How one action of a core changes the flags of sub-core v. */
  lemma CubeFlips(n: nat, y: Sync, v: int)
    ensures var z, go, ph, t := Step(n, y, Cube), !CubeSkips(n, y.cube), y.cube.phase, CubeTask(y.cube);
      && Flips(y.kv, z.kv, v, if go && ph == C1L_WAIT then -1 else 0, t)
      && Flips(y.s, z.s, v, if ph == C1S_SET then 1 else 0, t)
      && Flips(y.p, z.p, v, if go && ph == C2L_WAIT then -1 else 0, t)
      && Flips(y.o, z.o, v, if ph == C2S_SET then 1 else 0, t)
  {
  }

  lemma VecFlips(n: nat, y: Sync, v: int)
    ensures var z, pc := Step(n, y, Vector(v)), y.vec(v);
      var go, t := !VecSkips(n, pc), VecTask(pc);
      && Flips(y.kv, z.kv, v, if pc.phase == V0S_SET then 1 else 0, t)
      && Flips(y.s, z.s, v, if go && pc.phase == V1L_WAIT then -1 else 0, t)
      && Flips(y.p, z.p, v, if pc.phase == V1S_SET then 1 else 0, t)
      && Flips(y.o, z.o, v, if go && pc.phase == V2L_WAIT then -1 else 0, t)
  {
  }

  predicate InWindow(sets: int, waits: int) { waits <= sets <= waits + 2 }

  lemma FlagWindows(n: nat, y: Sync, v: int)
    requires CubePcOk(n, y.cube) && Ordered(n, y, v)
    ensures InWindow(VecZero(n, y, v, V0S_SET), CubeFirst(n, y, C1L_WAIT))
    ensures InWindow(CubeFirst(n, y, C1S_SET), VecOne(n, y, v, V1L_WAIT))
    ensures InWindow(VecOne(n, y, v, V1S_SET), CubeSecond(n, y, C2L_WAIT))
    ensures InWindow(CubeSecond(n, y, C2S_SET), VecTwo(n, y, v, V2L_WAIT))
  {
  }

  lemma CubeStepCounts(n: nat, y: Sync, v: int)
    requires CubePcOk(n, y.cube) && Ordered(n, y, v) && Counted(n, y, v) && (v == 0 || v == 1)
    requires Enabled(n, y, Cube)
    ensures Counted(n, Step(n, y, Cube), v)
  {
    var z, go, ph, t := Step(n, y, Cube), !CubeSkips(n, y.cube), y.cube.phase, CubeTask(y.cube);
    CubeStepOrder(n, y, v);
    FlagWindows(n, y, v);
    FlagWindows(n, z, v);
    CubeMoves(n, y);
    CubeFlips(n, y, v);
    TallyWait(y.kv, z.kv, v, VecZero(n, y, v, V0S_SET), CubeFirst(n, y, C1L_WAIT), CubeFirst(n, z, C1L_WAIT),
              go && ph == C1L_WAIT, t);
    TallySet(y.s, z.s, v, CubeFirst(n, y, C1S_SET), CubeFirst(n, z, C1S_SET), VecOne(n, y, v, V1L_WAIT),
             ph == C1S_SET, t);
    TallyWait(y.p, z.p, v, VecOne(n, y, v, V1S_SET), CubeSecond(n, y, C2L_WAIT), CubeSecond(n, z, C2L_WAIT),
              go && ph == C2L_WAIT, t);
    TallySet(y.o, z.o, v, CubeSecond(n, y, C2S_SET), CubeSecond(n, z, C2S_SET), VecTwo(n, y, v, V2L_WAIT),
             ph == C2S_SET, t);
  }

  lemma VecWaitMet(n: nat, y: Sync, v: int)
    requires Ordered(n, y, v) && Counted(n, y, v) && Enabled(n, y, Vector(v)) && !VecSkips(n, y.vec(v))
    ensures y.vec(v).phase == V1L_WAIT ==> VecOne(n, y, v, V1L_WAIT) < CubeFirst(n, y, C1S_SET)
    ensures y.vec(v).phase == V2L_WAIT ==> VecTwo(n, y, v, V2L_WAIT) < CubeSecond(n, y, C2S_SET)
  {
    VecMoves(n, y, v);
  }
  lemma VecLeavesCube(n: nat, y: Sync, v: int)
    requires VecPcOk(n, y.vec(v)) && !VecDone(n, y.vec(v))
    ensures var z := Step(n, y, Vector(v));
      && VecPcOk(n, z.vec(v)) && z.cube == y.cube
      && CubeFirst(n, z, C1L_WAIT) == CubeFirst(n, y, C1L_WAIT) && CubeFirst(n, z, C1S_SET) == CubeFirst(n, y, C1S_SET)
      && CubeSecond(n, z, C2L_WAIT) == CubeSecond(n, y, C2L_WAIT)
      && CubeSecond(n, z, C2S_SET) == CubeSecond(n, y, C2S_SET)
  {
  }
  lemma VecStepOrder(n: nat, y: Sync, v: int)
    requires CubePcOk(n, y.cube) && Ordered(n, y, v) && Counted(n, y, v) && Enabled(n, y, Vector(v))
    ensures Ordered(n, Step(n, y, Vector(v)), v)
  {
    VecMoves(n, y, v);
    VecLeavesCube(n, y, v);
    if !VecSkips(n, y.vec(v)) { VecWaitMet(n, y, v); }
  }

  lemma VecStepCounts(n: nat, y: Sync, v: int)
    requires CubePcOk(n, y.cube) && Ordered(n, y, v) && Counted(n, y, v) && Enabled(n, y, Vector(v))
    ensures Counted(n, Step(n, y, Vector(v)), v)
  {
    var z := Step(n, y, Vector(v));
    VecStepOrder(n, y, v);
    FlagWindows(n, y, v);
    FlagWindows(n, z, v);
    VecMoves(n, y, v);
    VecFlips(n, y, v);
    var go, ph, t := !VecSkips(n, y.vec(v)), y.vec(v).phase, VecTask(y.vec(v));
    TallySet(y.kv, z.kv, v, VecZero(n, y, v, V0S_SET), VecZero(n, z, v, V0S_SET), CubeFirst(n, y, C1L_WAIT),
             ph == V0S_SET, t);
    TallyWait(y.s, z.s, v, CubeFirst(n, y, C1S_SET), VecOne(n, y, v, V1L_WAIT), VecOne(n, z, v, V1L_WAIT),
              go && ph == V1L_WAIT, t);
    TallySet(y.p, z.p, v, VecOne(n, y, v, V1S_SET), VecOne(n, z, v, V1S_SET), CubeSecond(n, y, C2L_WAIT),
             ph == V1S_SET, t);
    TallyWait(y.o, z.o, v, CubeSecond(n, y, C2S_SET), VecTwo(n, y, v, V2L_WAIT), VecTwo(n, z, v, V2L_WAIT),
              go && ph == V2L_WAIT, t);
  }

  /** A sub-core does not touch the flags or the position of the other one. */
  lemma OtherVec(n: nat, y: Sync, v: int, u: int)
    requires Ordered(n, y, v) && Counted(n, y, v) && u != v
    ensures Ordered(n, Step(n, y, Vector(u)), v) && Counted(n, Step(n, y, Vector(u)), v)
  {
    var z := Step(n, y, Vector(u));
    assert z.vec(v) == y.vec(v) && z.cube == y.cube;
  }

  lemma StepInv(n: nat, y: Sync, c: Core)
    requires Inv(n, y) && IsCore(c) && Enabled(n, y, c)
    ensures Inv(n, Step(n, y, c))
  {
    match c
    case Cube =>
      CubeStepOrder(n, y, 0); CubeStepCounts(n, y, 0);
      CubeStepOrder(n, y, 1); CubeStepCounts(n, y, 1);
    case Vector(u) =>
      VecStepOrder(n, y, u);
      VecStepCounts(n, y, u);
      OtherVec(n, y, 1 - u, u);
  }

  // ----- what the invariant gives

  /** At most two tasks are between a store and its load on every channel. */
  lemma WindowOfTwo(n: nat, y: Sync, v: int)
    requires CubePcOk(n, y.cube) && Ordered(n, y, v)
    ensures VecZero(n, y, v, V0S_COPY) <= CubeFirst(n, y, C1L_COPY) + 2
    ensures CubeFirst(n, y, C1S_COPY) <= VecOne(n, y, v, V1L_COPY) + 2
    ensures VecOne(n, y, v, V1S_COPY) <= CubeSecond(n, y, C2L_COPY) + 2
    ensures CubeSecond(n, y, C2S_COPY) <= VecTwo(n, y, v, V2L_COPY) + 2
  {
  }

  /** No flag is ever raised twice. */
  lemma FlagsAreBits(n: nat, y: Sync, v: int, b: int)
    requires Inv(n, y) && (v == 0 || v == 1) && (b == 0 || b == 1)
    ensures 0 <= y.kv(v, b) <= 1 && 0 <= y.s(v, b) <= 1 && 0 <= y.p(v, b) <= 1 && 0 <= y.o(v, b) <= 1
  {
    WindowOfTwo(n, y, v);
    TallyBits(y.kv, v, VecZero(n, y, v, V0S_SET), CubeFirst(n, y, C1L_WAIT));
    TallyBits(y.s, v, CubeFirst(n, y, C1S_SET), VecOne(n, y, v, V1L_WAIT));
    TallyBits(y.p, v, VecOne(n, y, v, V1S_SET), CubeSecond(n, y, C2L_WAIT));
    TallyBits(y.o, v, CubeSecond(n, y, C2S_SET), VecTwo(n, y, v, V2L_WAIT));
  }

  datatype Channel = KV | S | P | O

  /** Whether a core stands at the copy into, or out of, a workspace; and for which task. */
  predicate Writing(n: nat, y: Sync, v: int, ch: Channel) {
    match ch
    case KV => y.vec(v).phase == V0S_COPY && y.vec(v).stream < n
    case S => y.cube.phase == C1S_COPY
    case P => y.vec(v).phase == V1S_COPY
    case O => y.cube.phase == C2S_COPY
  }
  predicate Reading(y: Sync, u: int, ch: Channel) {
    match ch
    case KV => y.cube.phase == C1L_COPY
    case S => y.vec(u).phase == V1L_COPY
    case P => y.cube.phase == C2L_COPY
    case O => y.vec(u).phase == V2L_COPY
  }
  function WriteTask(y: Sync, v: int, ch: Channel): int {
    if ch == KV || ch == P then VecTask(y.vec(v)) else CubeTask(y.cube)
  }
  function ReadTask(y: Sync, u: int, ch: Channel): int {
    if ch == KV || ch == P then CubeTask(y.cube) else VecTask(y.vec(u))
  }

  /** While a slot is being read, the only task that can be in the middle of its store on that channel
      is the next one, which uses the other slot; so copies need not be atomic. */
  lemma NoConflict(n: nat, y: Sync, v: int, u: int, ch: Channel)
    requires Inv(n, y) && (v == 0 || v == 1) && (u == 0 || u == 1)
    requires Writing(n, y, v, ch) && Reading(y, u, ch)
    ensures WriteTask(y, v, ch) == ReadTask(y, u, ch) + 1
  {
  }

  /** Some core can always move until all three loops have ended. */
  lemma NoDeadlock(n: nat, y: Sync)
    requires Inv(n, y) && !Finished(n, y)
    ensures Enabled(n, y, Cube) || Enabled(n, y, Vector(0)) || Enabled(n, y, Vector(1))
  {
  }

  /** When a core starts to store task k, the slot's previous task k - 2 has been read by everyone,
      and no sub-core is more than one task ahead. */
  lemma SlotIsFree(n: nat, y: Sync, v: int, u: int)
    requires CubePcOk(n, y.cube) && Ordered(n, y, v) && Ordered(n, y, u)
    ensures y.vec(u).phase == V0S_COPY && y.vec(u).stream < n ==>
      y.vec(u).stream - 1 <= CubeFirst(n, y, C1L_COPY) && VecZero(n, y, v, V0S_COPY) <= y.vec(u).stream + 2
    ensures y.cube.phase == C1S_COPY ==> y.cube.stream - 1 <= VecOne(n, y, v, V1L_COPY)
    ensures y.vec(u).phase == V1S_COPY ==>
      y.vec(u).stream - 2 <= CubeSecond(n, y, C2L_COPY) && VecOne(n, y, v, V1S_COPY) <= y.vec(u).stream + 1
    ensures y.cube.phase == C2S_COPY ==> y.cube.stream - 2 <= VecTwo(n, y, v, V2L_COPY)
  {
  }

  /** When a core loads task t, both sub-cores (or the Cube) have stored it. */
  lemma SlotIsFull(n: nat, y: Sync, v: int)
    requires CubePcOk(n, y.cube) && Ordered(n, y, v)
    ensures y.cube.phase == C1L_COPY ==> y.cube.stream < VecZero(n, y, v, V0S_COPY)
    ensures y.vec(v).phase == V1L_COPY ==> y.vec(v).stream - 1 < CubeFirst(n, y, C1S_COPY)
    ensures y.cube.phase == C2L_COPY ==> y.cube.stream - 1 < VecOne(n, y, v, V1S_COPY)
    ensures y.vec(v).phase == V2L_COPY ==> y.vec(v).stream - 2 < CubeSecond(n, y, C2S_COPY)
  {
  }

  // ----- progress of the copies

  /** How one action moves the copy counters of its own core; the other cores' counters stay. */
  lemma CubeCopies(n: nat, y: Sync)
    requires CubePcOk(n, y.cube) && !CubeDone(n, y.cube)
    ensures var z, ph, t := Step(n, y, Cube), y.cube.phase, CubeTask(y.cube);
      && z.vec == y.vec
      && Moves(CubeFirst(n, y, C1L_WAIT), CubeFirst(n, z, C1L_WAIT), !CubeSkips(n, y.cube) && ph == C1L_WAIT, t)
      && Moves(CubeFirst(n, y, C1L_COPY), CubeFirst(n, z, C1L_COPY), ph == C1L_COPY, t)
      && Moves(CubeFirst(n, y, C1S_COPY), CubeFirst(n, z, C1S_COPY), ph == C1S_COPY, t)
      && Moves(CubeSecond(n, y, C2L_COPY), CubeSecond(n, z, C2L_COPY), ph == C2L_COPY, t)
      && Moves(CubeSecond(n, y, C2S_COPY), CubeSecond(n, z, C2S_COPY), ph == C2S_COPY, t)
  {
  }

  lemma VecCopies(n: nat, y: Sync, v: int)
    requires VecPcOk(n, y.vec(v)) && !VecDone(n, y.vec(v))
    ensures var z, pc := Step(n, y, Vector(v)), y.vec(v);
      && z.cube == y.cube && (forall u :: u != v ==> z.vec(u) == y.vec(u))
      && Moves(VecZero(n, y, v, V0S_COPY), VecZero(n, z, v, V0S_COPY),
               pc.phase == V0S_COPY && pc.stream < n, VecTask(pc))
      && Moves(VecOne(n, y, v, V1L_COPY), VecOne(n, z, v, V1L_COPY), pc.phase == V1L_COPY, VecTask(pc))
      && Moves(VecOne(n, y, v, V1S_COPY), VecOne(n, z, v, V1S_COPY), pc.phase == V1S_COPY, VecTask(pc))
      && Moves(VecOne(n, y, v, V1_POST), VecOne(n, z, v, V1_POST), pc.phase == V1_POST, VecTask(pc))
      && Moves(VecTwo(n, y, v, V2L_COPY), VecTwo(n, z, v, V2L_COPY), pc.phase == V2L_COPY, VecTask(pc))
      && Moves(VecTwo(n, y, v, V2_STORE), VecTwo(n, z, v, V2_STORE), pc.phase == V2_STORE, VecTask(pc))
  {
  }
}
