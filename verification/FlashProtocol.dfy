/** Synchronisation of the flash attention kernel.  The Cube core raises flag i twice for the Vector sub-cores, once
    for the scores of block i and once for its product; the sub-cores raise flag i once, for the probabilities. */
module FlashProtocol {

  /** n key blocks.  score(i) is the block of scores the Cube computes first, prob(v, h) the probabilities sub-core v
      writes after having loaded the scores h of blocks 0 .. |h| - 1, prod(i, a, b) what the Cube computes from the two
      halves of the probabilities, and final(v, h, o) the rows sub-core v writes at the end, having loaded the scores h
      and the products o of all blocks. */
  datatype Job<!S, !P, !O, W> =
    Job(n: nat, score: int -> S, prob: (int, seq<S>) -> P, prod: (int, P, P) -> O, final: (int, seq<S>, seq<O>) -> W)

  /** `iter` runs through both loops: below n the first, from n on the second.
      Cube: store, set | wait, load, store, set.  Vector: wait, load, store, set | wait, load | write. */
  datatype Pc = Pc(iter: int, phase: int)
  datatype State<S, P, O, W> =
    State(cube: Pc, vec: int -> Pc, toVec: (int, int) -> int, toCube: (int, int) -> int,
          w1: int -> S, w2: (int, int) -> P, w3: int -> O,
          scores: int -> seq<S>, half: int -> P, got: int -> seq<O>, out: int -> W)
  datatype Core = Cube | Vector(vid: int)
  predicate IsCore(c: Core) { c.Vector? ==> c.vid == 0 || c.vid == 1 }

  function Block(n: nat, pc: Pc): int { if pc.iter < n then pc.iter else pc.iter - n }
  function CubeAdvance(n: nat, pc: Pc): Pc {
    if pc.phase == (if pc.iter < n then 1 else 3) then Pc(pc.iter + 1, 0) else Pc(pc.iter, pc.phase + 1)
  }
  function VecAdvance(n: nat, pc: Pc): Pc {
    if pc.phase == (if pc.iter < n then 3 else if pc.iter < 2 * n then 1 else 0) then
      Pc(pc.iter + 1, 0)
    else
      Pc(pc.iter, pc.phase + 1)
  }
  predicate Enabled(g: Job, s: State, c: Core) {
    match c
    case Cube =>
      var i := Block(g.n, s.cube);
      s.cube.iter < 2 * g.n && (s.cube.iter >= g.n && s.cube.phase == 0 ==> s.toCube(0, i) > 0 && s.toCube(1, i) > 0)
    case Vector(v) =>
      s.vec(v).iter <= 2 * g.n &&
        (s.vec(v).iter < 2 * g.n && s.vec(v).phase == 0 ==> s.toVec(v, Block(g.n, s.vec(v))) > 0)
  }
  function Bump(f: (int, int) -> int, v: int, i: int, d: int): (int, int) -> int {
    (u: int, k: int) => if u == v && k == i then f(u, k) + d else f(u, k)
  }
  function BumpBoth(f: (int, int) -> int, i: int, d: int): (int, int) -> int {
    (u: int, k: int) => if k == i then f(u, k) + d else f(u, k)
  }
  function Put<T>(f: int -> T, i: int, x: T): int -> T { (k: int) => if k == i then x else f(k) }
  function Put2<T>(f: (int, int) -> T, v: int, i: int, x: T): (int, int) -> T {
    (u: int, k: int) => if u == v && k == i then x else f(u, k)
  }
  function Halves<T>(w2: (int, int) -> T, i: int): int -> T { (v: int) => w2(v, i) }
  function Append<T>(f: int -> seq<T>, v: int, x: T): int -> seq<T> { (u: int) => if u == v then f(u) + [x] else f(u) }
  function Move(f: int -> Pc, v: int, pc: Pc): int -> Pc { (u: int) => if u == v then pc else f(u) }

  function CubeNext(g: Job, s: State): State {
    var i, ph, z := Block(g.n, s.cube), s.cube.phase, s.(cube := CubeAdvance(g.n, s.cube));
    if s.cube.iter < g.n then
      if ph == 0 then z.(w1 := Put(s.w1, i, g.score(i))) else z.(toVec := BumpBoth(s.toVec, i, 1))
    else if ph == 0 then z.(toCube := BumpBoth(s.toCube, i, -1))
    else if ph == 1 then z.(half := Halves(s.w2, i))
    else if ph == 2 then z.(w3 := Put(s.w3, i, g.prod(i, s.half(0), s.half(1))))
    else z.(toVec := BumpBoth(s.toVec, i, 1))
  }
  function VecNext(g: Job, s: State, v: int): State {
    var pc := s.vec(v);
    var i, ph, z := Block(g.n, pc), pc.phase, s.(vec := Move(s.vec, v, VecAdvance(g.n, pc)));
    if pc.iter >= 2 * g.n then z.(out := Put(s.out, v, g.final(v, s.scores(v), s.got(v))))
    else if ph == 0 then z.(toVec := Bump(s.toVec, v, i, -1))
    else if pc.iter < g.n then
      if ph == 1 then z.(scores := Append(s.scores, v, s.w1(i)))
      else if ph == 2 then z.(w2 := Put2(s.w2, v, i, g.prob(v, s.scores(v))))
      else z.(toCube := Bump(s.toCube, v, i, 1))
    else z.(got := Append(s.got, v, s.w3(i)))
  }
  function Next(g: Job, s: State, c: Core): State {
    match c
    case Cube => CubeNext(g, s)
    case Vector(v) => VecNext(g, s, v)
  }
  ghost predicate Initial(s: State) {
    && s.cube == Pc(0, 0) && s.vec(0) == Pc(0, 0) && s.vec(1) == Pc(0, 0) && s.scores(0) == [] && s.scores(1) == []
    && s.got(0) == [] && s.got(1) == []
    && forall v, i :: s.toVec(v, i) == 0 && s.toCube(v, i) == 0
  }
  predicate Finished(g: Job, s: State) { s.cube.iter == 2 * g.n && s.vec(0).iter == s.vec(1).iter == 2 * g.n + 1 }

  // ----- counting

  function First(n: nat, pc: Pc, phase: int): int {
    if pc.iter < n then pc.iter + (if pc.phase > phase then 1 else 0) else n
  }
  function Second(n: nat, pc: Pc, phase: int): int {
    if pc.iter < n then 0 else if pc.iter < 2 * n then pc.iter - n + (if pc.phase > phase then 1 else 0) else n
  }
  function B(b: bool): int { if b then 1 else 0 }

  predicate CubeOk(n: nat, pc: Pc) {
    0 <= pc.iter <= 2 * n && 0 <= pc.phase <= (if pc.iter < n then 1 else if pc.iter < 2 * n then 3 else 0)
  }
  predicate VecOk(n: nat, pc: Pc) {
    0 <= pc.iter <= 2 * n + 1 && 0 <= pc.phase <= (if pc.iter < n then 3 else if pc.iter < 2 * n then 1 else 0)
  }

  /** Flag i of sub-core v holds the sets not yet waited for; each counter pair in order. */
  predicate ToVecIs(n: nat, cube: Pc, vec: Pc, flag: int, i: int) {
    flag == B(i < First(n, cube, 1)) + B(i < Second(n, cube, 3)) - B(i < First(n, vec, 0)) - B(i < Second(n, vec, 0))
  }
  predicate ToCubeIs(n: nat, cube: Pc, vec: Pc, flag: int, i: int) {
    flag == B(i < First(n, vec, 3)) - B(i < Second(n, cube, 0))
  }
  predicate Ordered(n: nat, cube: Pc, vec: Pc) {
    && CubeOk(n, cube) && VecOk(n, vec)
    && First(n, vec, 0) <= First(n, cube, 1) && Second(n, cube, 0) <= First(n, vec, 3)
    && Second(n, vec, 0) <= Second(n, cube, 3)
  }
  ghost predicate Flags(g: Job, s: State, v: int) {
    forall i :: 0 <= i < g.n ==>
      ToVecIs(g.n, s.cube, s.vec(v), s.toVec(v, i), i) && ToCubeIs(g.n, s.cube, s.vec(v), s.toCube(v, i), i)
  }

  // ----- data

  function ScoresOf<S, P, O, W>(g: Job<S, P, O, W>, k: nat): seq<S> { seq(k, i => g.score(i)) }
  function ProbOf<S, P, O, W>(g: Job<S, P, O, W>, v: int, i: nat): P { g.prob(v, ScoresOf(g, i + 1)) }
  function ProdOf<S, P, O, W>(g: Job<S, P, O, W>, i: nat): O { g.prod(i, ProbOf(g, 0, i), ProbOf(g, 1, i)) }
  function ProdsOf<S, P, O, W>(g: Job<S, P, O, W>, k: nat): seq<O> { seq(k, (i: nat) => ProdOf(g, i)) }
  function FinalOf<S, P, O, W>(g: Job<S, P, O, W>, v: int): W { g.final(v, ScoresOf(g, g.n), ProdsOf(g, g.n)) }

  ghost predicate W1Held(g: Job, s: State) { forall i :: 0 <= i < First(g.n, s.cube, 0) ==> s.w1(i) == g.score(i) }
  ghost predicate W3Held(g: Job, s: State) { forall i: nat :: i < Second(g.n, s.cube, 2) ==> s.w3(i) == ProdOf(g, i) }
  ghost predicate HalfHeld(g: Job, s: State) {
    s.cube.iter >= g.n && s.cube.phase == 2 ==>
      s.half(0) == ProbOf(g, 0, s.cube.iter - g.n) && s.half(1) == ProbOf(g, 1, s.cube.iter - g.n)
  }
  ghost predicate W2Held(g: Job, s: State, v: int) {
    forall i: nat :: i < First(g.n, s.vec(v), 2) ==> s.w2(v, i) == ProbOf(g, v, i)
  }
  ghost predicate ScoresHeld(g: Job, s: State, v: int) {
    0 <= First(g.n, s.vec(v), 1) && s.scores(v) == ScoresOf(g, First(g.n, s.vec(v), 1))
  }
  ghost predicate GotHeld(g: Job, s: State, v: int) {
    0 <= Second(g.n, s.vec(v), 1) && s.got(v) == ProdsOf(g, Second(g.n, s.vec(v), 1))
  }
  ghost predicate OutHeld(g: Job, s: State, v: int) { s.vec(v).iter == 2 * g.n + 1 ==> s.out(v) == FinalOf(g, v) }

  ghost predicate VecInv(g: Job, s: State, v: int) {
    && Ordered(g.n, s.cube, s.vec(v)) && Flags(g, s, v)
    && ScoresHeld(g, s, v) && W2Held(g, s, v) && GotHeld(g, s, v) && OutHeld(g, s, v)
  }
  ghost predicate Inv(g: Job, s: State) {
    VecInv(g, s, 0) && VecInv(g, s, 1) && W1Held(g, s) && W3Held(g, s) && HalfHeld(g, s)
  }

  lemma InitialInv(g: Job, s: State)
    requires Initial(s)
    ensures Inv(g, s)
  {
  }

  // ----- steps

  lemma CubeOrdered(g: Job, s: State, v: int)
    requires Inv(g, s) && Enabled(g, s, Cube) && (v == 0 || v == 1)
    ensures Ordered(g.n, CubeAdvance(g.n, s.cube), s.vec(v))
  {
    var i := Block(g.n, s.cube);
    assert ToCubeIs(g.n, s.cube, s.vec(v), s.toCube(v, i), i);
  }
  /** How one action moves the counters: by one past block i when it hits, else not. */
  predicate Moves(a: int, b: int, hit: bool, i: int) { b == (if hit then a + 1 else a) && (hit ==> a == i) }
  lemma CubeMoves(n: nat, pc: Pc)
    requires CubeOk(n, pc) && pc.iter < 2 * n
    ensures var z, i := CubeAdvance(n, pc), Block(n, pc);
            && Moves(First(n, pc, 1), First(n, z, 1), pc.iter < n && pc.phase == 1, i)
            && Moves(Second(n, pc, 3), Second(n, z, 3), pc.iter >= n && pc.phase == 3, i)
            && Moves(Second(n, pc, 0), Second(n, z, 0), pc.iter >= n && pc.phase == 0, i)
  {
  }
  lemma VecMoves(n: nat, pc: Pc)
    requires VecOk(n, pc) && pc.iter <= 2 * n
    ensures var z, i := VecAdvance(n, pc), Block(n, pc);
            && Moves(First(n, pc, 0), First(n, z, 0), pc.iter < n && pc.phase == 0, i)
            && Moves(First(n, pc, 3), First(n, z, 3), pc.iter < n && pc.phase == 3, i)
            && Moves(Second(n, pc, 0), Second(n, z, 0), n <= pc.iter < 2 * n && pc.phase == 0, i)
  {
  }
  /** What a Cube action does to the flags. */
  lemma CubeBumps(g: Job, s: State, v: int, i: int)
    requires CubeOk(g.n, s.cube) && s.cube.iter < 2 * g.n
    ensures var t, pc, hit := CubeNext(g, s), s.cube, i == Block(g.n, s.cube);
            && t.cube == CubeAdvance(g.n, pc) && t.vec == s.vec
            && t.toVec(v, i) == s.toVec(v, i) + B(hit && pc.phase == (if pc.iter < g.n then 1 else 3))
            && t.toCube(v, i) == s.toCube(v, i) - B(hit && pc.iter >= g.n && pc.phase == 0)
  {
  }
  lemma CubeFlag(g: Job, s: State, v: int, i: int)
    requires CubeOk(g.n, s.cube) && Enabled(g, s, Cube)
    requires ToVecIs(g.n, s.cube, s.vec(v), s.toVec(v, i), i) && ToCubeIs(g.n, s.cube, s.vec(v), s.toCube(v, i), i)
    ensures var t := CubeNext(g, s);
            ToVecIs(g.n, t.cube, t.vec(v), t.toVec(v, i), i) && ToCubeIs(g.n, t.cube, t.vec(v), t.toCube(v, i), i)
  {
    CubeBumps(g, s, v, i);
    CubeCounted(g.n, s.cube, s.vec(v), s.toVec(v, i), s.toCube(v, i), i);
  }
  lemma CubeCounted(n: nat, cube: Pc, vec: Pc, toVec: int, toCube: int, i: int)
    requires CubeOk(n, cube) && cube.iter < 2 * n && ToVecIs(n, cube, vec, toVec, i)
    requires ToCubeIs(n, cube, vec, toCube, i)
    ensures var hit := i == Block(n, cube);
            && ToVecIs(n, CubeAdvance(n, cube), vec,
                       toVec + B(hit && cube.phase == (if cube.iter < n then 1 else 3)), i)
            && ToCubeIs(n, CubeAdvance(n, cube), vec, toCube - B(hit && cube.iter >= n && cube.phase == 0), i)
  {
    CubeMoves(n, cube);
  }
  lemma CubeFlags(g: Job, s: State, v: int)
    requires CubeOk(g.n, s.cube) && Flags(g, s, v) && Enabled(g, s, Cube)
    ensures Flags(g, CubeNext(g, s), v)
  {
    var t := CubeNext(g, s);
    forall i | 0 <= i < g.n
      ensures ToVecIs(g.n, t.cube, t.vec(v), t.toVec(v, i), i) && ToCubeIs(g.n, t.cube, t.vec(v), t.toCube(v, i), i)
    {
      CubeFlag(g, s, v, i);
    }
  }
  lemma CubeData(g: Job, s: State)
    requires Inv(g, s) && Enabled(g, s, Cube)
    ensures W1Held(g, CubeNext(g, s)) && W3Held(g, CubeNext(g, s)) && HalfHeld(g, CubeNext(g, s))
  {
    var i := Block(g.n, s.cube);
    assert ToCubeIs(g.n, s.cube, s.vec(0), s.toCube(0, i), i) || s.cube.iter >= 0;
    if s.cube.iter >= g.n && s.cube.phase == 1 {
      assert i < First(g.n, s.vec(0), 2) && i < First(g.n, s.vec(1), 2);
      assert s.w2(0, i) == ProbOf(g, 0, i) && s.w2(1, i) == ProbOf(g, 1, i);
    }
  }
  lemma CubeStepInv(g: Job, s: State)
    requires Inv(g, s) && Enabled(g, s, Cube)
    ensures Inv(g, CubeNext(g, s))
  {
    CubeOrdered(g, s, 0);
    CubeOrdered(g, s, 1);
    CubeFlags(g, s, 0);
    CubeFlags(g, s, 1);
    CubeData(g, s);
  }

  lemma VecOrdered(g: Job, s: State, v: int)
    requires VecInv(g, s, v) && Enabled(g, s, Vector(v))
    ensures Ordered(g.n, s.cube, VecAdvance(g.n, s.vec(v)))
  {
    var i := Block(g.n, s.vec(v));
    if s.vec(v).iter < 2 * g.n { assert ToVecIs(g.n, s.cube, s.vec(v), s.toVec(v, i), i); }
  }
  /** What a Vector action does to its flags. */
  lemma VecBumps(g: Job, s: State, v: int, i: int)
    requires VecOk(g.n, s.vec(v)) && s.vec(v).iter <= 2 * g.n
    ensures var t, pc, hit := VecNext(g, s, v), s.vec(v), i == Block(g.n, s.vec(v));
            && t.cube == s.cube && t.vec(v) == VecAdvance(g.n, pc)
            && t.toVec(v, i) == s.toVec(v, i) - B(hit && pc.iter < 2 * g.n && pc.phase == 0)
            && t.toCube(v, i) == s.toCube(v, i) + B(hit && pc.iter < g.n && pc.phase == 3)
  {
  }
  lemma VecCounted(n: nat, cube: Pc, vec: Pc, toVec: int, toCube: int, i: int)
    requires VecOk(n, vec) && vec.iter <= 2 * n && ToVecIs(n, cube, vec, toVec, i) && ToCubeIs(n, cube, vec, toCube, i)
    ensures var hit := i == Block(n, vec);
            && ToVecIs(n, cube, VecAdvance(n, vec), toVec - B(hit && vec.iter < 2 * n && vec.phase == 0), i)
            && ToCubeIs(n, cube, VecAdvance(n, vec), toCube + B(hit && vec.iter < n && vec.phase == 3), i)
  {
    VecMoves(n, vec);
  }
  lemma VecFlag(g: Job, s: State, v: int, i: int)
    requires VecOk(g.n, s.vec(v)) && Enabled(g, s, Vector(v))
    requires ToVecIs(g.n, s.cube, s.vec(v), s.toVec(v, i), i) && ToCubeIs(g.n, s.cube, s.vec(v), s.toCube(v, i), i)
    ensures var t := VecNext(g, s, v);
            ToVecIs(g.n, t.cube, t.vec(v), t.toVec(v, i), i) && ToCubeIs(g.n, t.cube, t.vec(v), t.toCube(v, i), i)
  {
    VecBumps(g, s, v, i);
    VecCounted(g.n, s.cube, s.vec(v), s.toVec(v, i), s.toCube(v, i), i);
  }
  lemma VecFlags(g: Job, s: State, v: int)
    requires VecOk(g.n, s.vec(v)) && Flags(g, s, v) && Enabled(g, s, Vector(v))
    ensures Flags(g, VecNext(g, s, v), v)
  {
    var t := VecNext(g, s, v);
    forall i | 0 <= i < g.n
      ensures ToVecIs(g.n, t.cube, t.vec(v), t.toVec(v, i), i) && ToCubeIs(g.n, t.cube, t.vec(v), t.toCube(v, i), i)
    {
      VecFlag(g, s, v, i);
    }
  }
  lemma VecScores(g: Job, s: State, v: int)
    requires VecInv(g, s, v) && W1Held(g, s) && Enabled(g, s, Vector(v))
    ensures ScoresHeld(g, VecNext(g, s, v), v)
  {
    var i, pc := Block(g.n, s.vec(v)), s.vec(v);
    if pc.iter < g.n && pc.phase == 1 {
      assert i < First(g.n, s.cube, 1) <= First(g.n, s.cube, 0);
      assert s.w1(i) == g.score(i);
      assert ScoresOf(g, i + 1) == ScoresOf(g, i) + [g.score(i)];
    }
  }
  lemma VecProbs(g: Job, s: State, v: int)
    requires VecInv(g, s, v) && Enabled(g, s, Vector(v))
    ensures W2Held(g, VecNext(g, s, v), v)
  {
    var t := VecNext(g, s, v);
    forall i: nat | i < First(g.n, t.vec(v), 2) ensures t.w2(v, i) == ProbOf(g, v, i) {
      if i < First(g.n, s.vec(v), 2) { assert s.w2(v, i) == ProbOf(g, v, i); }
    }
  }
  lemma VecGot(g: Job, s: State, v: int)
    requires VecInv(g, s, v) && W3Held(g, s) && Enabled(g, s, Vector(v))
    ensures GotHeld(g, VecNext(g, s, v), v)
  {
    var i, pc := Block(g.n, s.vec(v)), s.vec(v);
    if g.n <= pc.iter < 2 * g.n && pc.phase == 1 {
      assert i < Second(g.n, s.cube, 3) <= Second(g.n, s.cube, 2);
      assert s.w3(i) == ProdOf(g, i);
      assert ProdsOf(g, i + 1) == ProdsOf(g, i) + [ProdOf(g, i)];
    }
  }
  lemma VecOut(g: Job, s: State, v: int)
    requires VecInv(g, s, v) && Enabled(g, s, Vector(v))
    ensures OutHeld(g, VecNext(g, s, v), v)
  {
  }
  /** Whatever one sub-core does, the other's share of the invariant stays. */
  lemma VecOther(g: Job, s: State, v: int, u: int)
    requires VecInv(g, s, u) && u != v
    ensures VecInv(g, VecNext(g, s, v), u)
  {
    var t := VecNext(g, s, v);
    assert t.vec(u) == s.vec(u) && t.cube == s.cube && t.scores(u) == s.scores(u) && t.got(u) == s.got(u) &&
      t.out(u) == s.out(u);
    forall i ensures t.toVec(u, i) == s.toVec(u, i) && t.toCube(u, i) == s.toCube(u, i) && t.w2(u, i) == s.w2(u, i) {}
  }
  lemma VecSelf(g: Job, s: State, v: int)
    requires Inv(g, s) && Enabled(g, s, Vector(v)) && (v == 0 || v == 1)
    ensures VecInv(g, VecNext(g, s, v), v)
  {
    VecOrdered(g, s, v);
    VecFlags(g, s, v);
    VecScores(g, s, v);
    VecProbs(g, s, v);
    VecGot(g, s, v);
    VecOut(g, s, v);
    assert VecNext(g, s, v).cube == s.cube && VecNext(g, s, v).vec(v) == VecAdvance(g.n, s.vec(v));
  }
  lemma VecShared(g: Job, s: State, v: int)
    requires W1Held(g, s) && W3Held(g, s) && HalfHeld(g, s)
    ensures W1Held(g, VecNext(g, s, v)) && W3Held(g, VecNext(g, s, v)) && HalfHeld(g, VecNext(g, s, v))
  {
    var t := VecNext(g, s, v);
    assert t.cube == s.cube && t.w1 == s.w1 && t.w3 == s.w3 && t.half == s.half;
  }
  lemma VecStepInv(g: Job, s: State, v: int)
    requires Inv(g, s) && Enabled(g, s, Vector(v)) && (v == 0 || v == 1)
    ensures Inv(g, VecNext(g, s, v))
  {
    VecSelf(g, s, v);
    VecShared(g, s, v);
    if v == 0 { VecOther(g, s, 0, 1); } else { VecOther(g, s, 1, 0); }
  }
  lemma StepInv(g: Job, s: State, c: Core)
    requires Inv(g, s) && IsCore(c) && Enabled(g, s, c)
    ensures Inv(g, Next(g, s, c))
  {
    match c
    case Cube => CubeStepInv(g, s);
    case Vector(v) => VecStepInv(g, s, v);
  }

  // ----- runs

  ghost predicate StepAt(g: Job, s: State, c: Core, z: State) { IsCore(c) && Enabled(g, s, c) && z == Next(g, s, c) }
  ghost predicate Run(g: Job, tr: seq<State>, who: seq<Core>) {
    && |tr| == |who| + 1 && Initial(tr[0])
    && forall k {:trigger who[k]} :: 0 <= k < |who| ==> StepAt(g, tr[k], who[k], tr[k + 1])
  }
  lemma RunStep(g: Job, tr: seq<State>, who: seq<Core>, k: nat)
    requires Run(g, tr, who) && k < |who|
    ensures StepAt(g, tr[k], who[k], tr[k + 1])
  {
  }
  lemma StepKeeps(g: Job, s: State, c: Core, z: State)
    requires Inv(g, s) && StepAt(g, s, c, z)
    ensures Inv(g, z)
  {
    StepInv(g, s, c);
  }
  lemma {:induction false} RunInv(g: Job, tr: seq<State>, who: seq<Core>, k: nat)
    requires Run(g, tr, who) && k < |tr|
    ensures Inv(g, tr[k])
    decreases k
  {
    if k == 0 {
      InitialInv(g, tr[0]);
    } else {
      RunInv(g, tr, who, k - 1);
      RunStep(g, tr, who, k - 1);
      StepKeeps(g, tr[k - 1], who[k - 1], tr[k]);
    }
  }
  /** Every flag is 0 or 1 in every reachable state, although the Cube raises each twice. */
  lemma FlagsAreBits(g: Job, s: State, v: int, i: int)
    requires Inv(g, s) && (v == 0 || v == 1) && 0 <= i < g.n
    ensures 0 <= s.toVec(v, i) <= 1 && 0 <= s.toCube(v, i) <= 1
  {
    assert ToVecIs(g.n, s.cube, s.vec(v), s.toVec(v, i), i) && ToCubeIs(g.n, s.cube, s.vec(v), s.toCube(v, i), i);
  }
  /** A sub-core's first wait on flag i passes exactly when the scores are set and its second exactly when the product
      is: a set for one message is never taken for the other. */
  lemma WaitMatchesSet(g: Job, s: State, v: int)
    requires Inv(g, s) && (v == 0 || v == 1) && s.vec(v).iter < 2 * g.n && s.vec(v).phase == 0
    ensures var i := Block(g.n, s.vec(v));
            && (s.vec(v).iter < g.n ==>
                (Enabled(g, s, Vector(v)) <==> i < First(g.n, s.cube, 1)) && !(i < Second(g.n, s.cube, 3)))
            && (s.vec(v).iter >= g.n ==> (Enabled(g, s, Vector(v)) <==> i < Second(g.n, s.cube, 3)))
  {
    var i := Block(g.n, s.vec(v));
    assert ToVecIs(g.n, s.cube, s.vec(v), s.toVec(v, i), i);
  }
  /** Some core can always move until all are done. */
  lemma NoDeadlock(g: Job, s: State)
    requires Inv(g, s) && !Finished(g, s)
    ensures exists c :: IsCore(c) && Enabled(g, s, c)
  {
    if Enabled(g, s, Cube) {
      assert IsCore(Cube);
    } else {
      var v := if s.vec(0).iter <= s.vec(1).iter then 0 else 1;
      if s.cube.iter >= 2 * g.n && s.vec(v).iter == 2 * g.n {
        assert IsCore(Vector(v)) && Enabled(g, s, Vector(v));
        return;
      }
      if s.cube.iter < 2 * g.n {
        var i := Block(g.n, s.cube);
        v := if s.toCube(0, i) > 0 then 1 else 0;
        assert ToCubeIs(g.n, s.cube, s.vec(v), s.toCube(v, i), i);
      }
      var j := Block(g.n, s.vec(v));
      assert s.vec(v).iter < 2 * g.n;
      assert ToVecIs(g.n, s.cube, s.vec(v), s.toVec(v, j), j);
      assert IsCore(Vector(v)) && Enabled(g, s, Vector(v));
    }
  }
  /** Steps left. */
  function CubeLeft(n: nat, pc: Pc): int {
    if pc.iter < n then 4 * n + 2 * (n - pc.iter) - pc.phase else 4 * (2 * n - pc.iter) - pc.phase
  }
  function VecLeft(n: nat, pc: Pc): int {
    if pc.iter < n then 1 + 2 * n + 4 * (n - pc.iter) - pc.phase
    else if pc.iter < 2 * n then 1 + 2 * (2 * n - pc.iter) - pc.phase
    else 2 * n + 1 - pc.iter
  }
  function Left(g: Job, s: State): int { CubeLeft(g.n, s.cube) + VecLeft(g.n, s.vec(0)) + VecLeft(g.n, s.vec(1)) }
  lemma CubeDescends(n: nat, pc: Pc)
    requires CubeOk(n, pc) && pc.iter < 2 * n
    ensures CubeLeft(n, CubeAdvance(n, pc)) == CubeLeft(n, pc) - 1
  {
  }
  lemma VecDescends(n: nat, pc: Pc)
    requires VecOk(n, pc) && pc.iter <= 2 * n
    ensures VecLeft(n, VecAdvance(n, pc)) == VecLeft(n, pc) - 1
  {
  }
  lemma LeftNonNegative(n: nat, cube: Pc, vec: Pc)
    requires CubeOk(n, cube) && VecOk(n, vec)
    ensures CubeLeft(n, cube) >= 0 && VecLeft(n, vec) >= 0
  {
  }
  lemma StepDescends(g: Job, s: State, c: Core)
    requires Inv(g, s) && IsCore(c) && Enabled(g, s, c)
    ensures Left(g, Next(g, s, c)) == Left(g, s) - 1
  {
    match c
    case Cube =>
      CubeDescends(g.n, s.cube);
      assert CubeNext(g, s).vec == s.vec && CubeNext(g, s).cube == CubeAdvance(g.n, s.cube);
    case Vector(v) =>
      VecDescends(g.n, s.vec(v));
      assert VecNext(g, s, v).vec == Move(s.vec, v, VecAdvance(g.n, s.vec(v))) && VecNext(g, s, v).cube == s.cube;
  }
  lemma NoneLess(g: Job, s: State)
    requires Inv(g, s)
    ensures Left(g, s) >= 0
  {
    LeftNonNegative(g.n, s.cube, s.vec(0));
    LeftNonNegative(g.n, s.cube, s.vec(1));
  }
  lemma AllLeft(g: Job, s: State)
    requires Initial(s)
    ensures Left(g, s) == 18 * g.n + 2
  {
  }
  lemma OneLess(g: Job, s: State, c: Core, z: State)
    requires Inv(g, s) && StepAt(g, s, c, z)
    ensures Left(g, z) == Left(g, s) - 1
  {
    StepDescends(g, s, c);
  }
  lemma LeftNext(g: Job, tr: seq<State>, who: seq<Core>, k: nat)
    requires Run(g, tr, who) && k < |who|
    ensures Left(g, tr[k + 1]) == Left(g, tr[k]) - 1
  {
    RunInv(g, tr, who, k);
    RunStep(g, tr, who, k);
    OneLess(g, tr[k], who[k], tr[k + 1]);
  }
  lemma {:induction false} LeftAt(g: Job, tr: seq<State>, who: seq<Core>, k: nat)
    requires Run(g, tr, who) && k < |tr|
    ensures Left(g, tr[k]) == 18 * g.n + 2 - k
    decreases k
  {
    if k == 0 {
      AllLeft(g, tr[0]);
    } else {
      LeftAt(g, tr, who, k - 1);
      LeftNext(g, tr, who, k - 1);
    }
  }
  /** Every run has at most 18 n + 2 steps. */
  lemma RunsEnd(g: Job, tr: seq<State>, who: seq<Core>, k: nat)
    requires Run(g, tr, who) && k < |tr|
    ensures Left(g, tr[k]) == 18 * g.n + 2 - k && k <= 18 * g.n + 2
  {
    LeftAt(g, tr, who, k);
    RunInv(g, tr, who, k);
    NoneLess(g, tr[k]);
  }
  /** At the end each sub-core has written what follows from the scores of all blocks and, for every block, the product
      of the probabilities that both computed from the scores of blocks 0 .. i; and every flag is down. */
  lemma FinishedRun(g: Job, tr: seq<State>, who: seq<Core>, v: int)
    requires Run(g, tr, who) && Finished(g, tr[|who|]) && (v == 0 || v == 1)
    ensures tr[|who|].out(v) == FinalOf(g, v)
    ensures forall i :: 0 <= i < g.n ==> tr[|who|].toVec(v, i) == 0 && tr[|who|].toCube(v, i) == 0
  {
    var s := tr[|who|];
    RunInv(g, tr, who, |who|);
    forall i | 0 <= i < g.n ensures s.toVec(v, i) == 0 && s.toCube(v, i) == 0 {
      assert ToVecIs(g.n, s.cube, s.vec(v), s.toVec(v, i), i) && ToCubeIs(g.n, s.cube, s.vec(v), s.toCube(v, i), i);
    }
  }
}
