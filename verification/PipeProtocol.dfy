/** The hand-written software pipeline of the multi-buffered vector add: three in-order hardware pipes (MTE2
    loads, V computes, MTE3 stores) share three A slots and two B slots, kept apart by four families of event flags. */
module PipeProtocol {

  /** Position of a pipe: task -1 is the pipe's share of init_flag; for MTE2, task n is clear_flag. */
  datatype Pc = Pc(task: int, phase: int)

  /** Pending event flags by id: aFree (MTE3 -> MTE2), bFree (V -> MTE2), ready (MTE2 -> V), done (V -> MTE3). */
  datatype Sync = Sync(load: Pc, comp: Pc, store: Pc,
                       aFree: int -> int, bFree: int -> int, ready: int -> int, done: int -> int)

  datatype Pipe = MTE2 | V | MTE3

  /** load: wait A slot, copy A, wait B slot, copy B, set ready. */
  const WAIT_A := 0
  const COPY_A := 1
  const WAIT_B := 2
  const COPY_B := 3
  const SET_READY := 4
  /** compute: wait ready, add, set B slot free, set done. */
  const WAIT_READY := 0
  const ADD := 1
  const SET_B := 2
  const SET_DONE := 3
  /** store: wait done, copy out, set A slot free. */
  const WAIT_DONE := 0
  const COPY_OUT := 1
  const SET_A := 2

  predicate LoadEnded(n: nat, pc: Pc) { pc.task == n && pc.phase == 5 }
  predicate CompEnded(n: nat, pc: Pc) { pc.task == n }
  predicate StoreEnded(n: nat, pc: Pc) { pc.task == n }
  predicate Finished(n: nat, y: Sync) { LoadEnded(n, y.load) && CompEnded(n, y.comp) && StoreEnded(n, y.store) }

  /** clear_flag waits for the A flags 0, 1, 2 and then for the B flags 0, 1. */
  predicate Enabled(n: nat, y: Sync, p: Pipe) {
    match p
    case MTE2 =>
      var t, ph := y.load.task, y.load.phase;
      if t < n then
        && (ph == WAIT_A ==> y.aFree(t % 3) > 0)
        && (ph == WAIT_B ==> y.bFree(t % 2) > 0)
      else !LoadEnded(n, y.load) && (if ph < 3 then y.aFree(ph) > 0 else y.bFree(ph - 3) > 0)
    case V => !CompEnded(n, y.comp) && (y.comp.task >= 0 && y.comp.phase == WAIT_READY ==> y.ready(y.comp.task % 3) > 0)
    case MTE3 =>
      !StoreEnded(n, y.store) && (y.store.task >= 0 && y.store.phase == WAIT_DONE ==> y.done(y.store.task % 3) > 0)
  }

  function Bump(f: int -> int, slot: int, d: int): int -> int {
    (b: int) => if b == slot then f(b) + d else f(b)
  }

  function LoadAdvance(n: nat, pc: Pc): Pc {
    if pc.task < n && pc.phase == SET_READY then Pc(pc.task + 1, 0) else Pc(pc.task, pc.phase + 1)
  }
  function CompAdvance(pc: Pc): Pc {
    if (if pc.task < 0 then pc.phase == 1 else pc.phase == SET_DONE) then
      Pc(pc.task + 1, 0)
    else
      Pc(pc.task, pc.phase + 1)
  }
  function StoreAdvance(pc: Pc): Pc {
    if (if pc.task < 0 then pc.phase == 2 else pc.phase == SET_A) then Pc(pc.task + 1, 0) else Pc(pc.task, pc.phase + 1)
  }

  function Step(n: nat, y: Sync, p: Pipe): Sync {
    match p
    case MTE2 =>
      var t, ph := y.load.task, y.load.phase;
      y.(load := LoadAdvance(n, y.load),
         aFree := if t < n && ph == WAIT_A then Bump(y.aFree, t % 3, -1)
                  else if t == n && ph < 3 then Bump(y.aFree, ph, -1)
                  else y.aFree,
         bFree := if t < n && ph == WAIT_B then Bump(y.bFree, t % 2, -1)
                  else if t == n && ph >= 3 then Bump(y.bFree, ph - 3, -1)
                  else y.bFree,
         ready := if t < n && ph == SET_READY then Bump(y.ready, t % 3, 1) else y.ready)
    case V =>
      var t, ph := y.comp.task, y.comp.phase;
      y.(comp := CompAdvance(y.comp),
         bFree := if t < 0 then Bump(y.bFree, ph, 1) else if ph == SET_B then Bump(y.bFree, t % 2, 1) else y.bFree,
         ready := if t >= 0 && ph == WAIT_READY then Bump(y.ready, t % 3, -1) else y.ready,
         done := if t >= 0 && ph == SET_DONE then Bump(y.done, t % 3, 1) else y.done)
    case MTE3 =>
      var t, ph := y.store.task, y.store.phase;
      y.(store := StoreAdvance(y.store),
         aFree := if t < 0 then Bump(y.aFree, ph, 1) else if ph == SET_A then Bump(y.aFree, t % 3, 1) else y.aFree,
         done := if t >= 0 && ph == WAIT_DONE then Bump(y.done, t % 3, -1) else y.done)
  }

  function Start(): Sync {
    Sync(Pc(0, 0), Pc(-1, 0), Pc(-1, 0), (b: int) => 0, (b: int) => 0, (b: int) => 0, (b: int) => 0)
  }

  // ----- counting

  /** Tasks that have passed an action of a pipe. */
  function Passed(n: nat, pc: Pc, phase: int): int {
    if pc.task < 0 then 0 else if pc.task >= n then n else pc.task + (if pc.phase > phase then 1 else 0)
  }
  /** Sets of the free flags, the initial ones included: the m-th set concerns slot m modulo the slot count. */
  function SetsA(n: nat, y: Sync): int { if y.store.task < 0 then y.store.phase else 3 + Passed(n, y.store, SET_A) }
  function SetsB(n: nat, y: Sync): int { if y.comp.task < 0 then y.comp.phase else 2 + Passed(n, y.comp, SET_B) }
  function Cleared(n: nat, y: Sync): int { if y.load.task < n then 0 else y.load.phase }

  /** The counters the flags are made of, one family each. */
  function WaitsA(n: nat, y: Sync): int { Passed(n, y.load, WAIT_A) }
  function WaitsB(n: nat, y: Sync): int { Passed(n, y.load, WAIT_B) }
  function SetsReady(n: nat, y: Sync): int { Passed(n, y.load, SET_READY) }
  function WaitsReady(n: nat, y: Sync): int { Passed(n, y.comp, WAIT_READY) }
  function SetsDone(n: nat, y: Sync): int { Passed(n, y.comp, SET_DONE) }
  function WaitsDone(n: nat, y: Sync): int { Passed(n, y.store, WAIT_DONE) }
  predicate PcsOk(n: nat, y: Sync) {
    && 0 <= y.load.task <= n && 0 <= y.load.phase <= (if y.load.task < n then SET_READY else 5)
    && -1 <= y.comp.task <= n && 0 <= y.comp.phase <= (if y.comp.task < 0 then 1 else SET_DONE)
    && (y.comp.task == n ==> y.comp.phase == 0)
    && -1 <= y.store.task <= n && 0 <= y.store.phase <= SET_A && (y.store.task == n ==> y.store.phase == 0)
  }

  /** No wait has overtaken its set. */
  predicate Ordered(n: nat, y: Sync) {
    && PcsOk(n, y)
    && WaitsA(n, y) <= SetsA(n, y) && WaitsB(n, y) <= SetsB(n, y)
    && WaitsReady(n, y) <= SetsReady(n, y) && WaitsDone(n, y) <= SetsDone(n, y)
  }

  /** Flags after `sets` raises and `waits` consumptions in order over k slots, k = 2 or 3. */
  predicate Tally3(f: int -> int, sets: int, waits: int) {
    && f(waits % 3) == (if waits < sets then 1 else 0)
    && f((waits + 1) % 3) == (if waits + 1 < sets then 1 else 0)
    && f((waits + 2) % 3) == (if waits + 2 < sets then 1 else 0)
  }
  predicate Tally2(f: int -> int, sets: int, waits: int) {
    && f(waits % 2) == (if waits < sets then 1 else 0)
    && f((waits + 1) % 2) == (if waits + 1 < sets then 1 else 0)
  }
  /** A flag counted as if clear_flag had not consumed it yet. */
  function Unclear(f: int -> int, k: int): int -> int { (b: int) => if 0 <= b < k then f(b) + 1 else f(b) }

  function FlagsA(n: nat, y: Sync): int -> int { Unclear(y.aFree, Cleared(n, y)) }
  function FlagsB(n: nat, y: Sync): int -> int { Unclear(y.bFree, Cleared(n, y) - 3) }

  predicate Counted(n: nat, y: Sync) {
    && Tally3(FlagsA(n, y), SetsA(n, y), WaitsA(n, y))
    && Tally2(FlagsB(n, y), SetsB(n, y), WaitsB(n, y))
    && Tally3(y.ready, SetsReady(n, y), WaitsReady(n, y))
    && Tally3(y.done, SetsDone(n, y), WaitsDone(n, y))
    && (forall b :: 0 <= b < 3 ==> y.aFree(b) >= 0) && (forall b :: 0 <= b < 2 ==> y.bFree(b) >= 0)
  }
  predicate Inv(n: nat, y: Sync) { Ordered(n, y) && Counted(n, y) }

  // ----- windows

  /** At most three tasks between loading A and storing, at most two between loading B and adding. */
  lemma Windows(n: nat, y: Sync)
    requires Ordered(n, y)
    ensures SetsA(n, y) <= WaitsA(n, y) + 3 && SetsB(n, y) <= WaitsB(n, y) + 2
    ensures SetsReady(n, y) <= WaitsReady(n, y) + 2 && SetsDone(n, y) <= WaitsDone(n, y) + 3
    ensures Passed(n, y.store, COPY_OUT) <= Passed(n, y.comp, ADD) <= Passed(n, y.load, COPY_B)
    ensures Passed(n, y.load, COPY_A) <= Passed(n, y.store, COPY_OUT) + 3
    ensures Passed(n, y.load, COPY_B) <= Passed(n, y.comp, ADD) + 2
  {
  }

  // ----- arithmetic of one flag family

  /** g is f with d added at one slot, on slots 0 .. k - 1. */
  predicate Bumped(f: int -> int, g: int -> int, slot: int, d: int, k: int) {
    forall b :: 0 <= b < k ==> g(b) == (if b == slot then f(b) + d else f(b))
  }

  /** A counter that moves past `at` when hit, and stays otherwise. */
  predicate Moves(a: int, b: int, hit: bool) { b == if hit then a + 1 else a }

  lemma Set3(f: int -> int, g: int -> int, sets: int, sets': int, waits: int, hit: bool, slot: int)
    requires Tally3(f, sets, waits) && waits <= sets && sets' <= waits + 3 && Moves(sets, sets', hit)
    requires (hit ==> slot == sets % 3) && Bumped(f, g, slot, if hit then 1 else 0, 3)
    ensures Tally3(g, sets', waits)
  {
  }
  lemma Wait3(f: int -> int, g: int -> int, sets: int, waits: int, waits': int, hit: bool, slot: int)
    requires Tally3(f, sets, waits) && waits' <= sets <= waits + 3 && Moves(waits, waits', hit)
    requires (hit ==> slot == waits % 3) && Bumped(f, g, slot, if hit then -1 else 0, 3)
    ensures Tally3(g, sets, waits')
  {
  }
  lemma Set2(f: int -> int, g: int -> int, sets: int, sets': int, waits: int, hit: bool, slot: int)
    requires Tally2(f, sets, waits) && waits <= sets && sets' <= waits + 2 && Moves(sets, sets', hit)
    requires (hit ==> slot == sets % 2) && Bumped(f, g, slot, if hit then 1 else 0, 2)
    ensures Tally2(g, sets', waits)
  {
  }
  lemma Wait2(f: int -> int, g: int -> int, sets: int, waits: int, waits': int, hit: bool, slot: int)
    requires Tally2(f, sets, waits) && waits' <= sets <= waits + 2 && Moves(waits, waits', hit)
    requires (hit ==> slot == waits % 2) && Bumped(f, g, slot, if hit then -1 else 0, 2)
    ensures Tally2(g, sets, waits')
  {
  }

  // ----- every action keeps the invariant

  lemma StartInv(n: nat)
    ensures Inv(n, Start())
  {
  }

  lemma LoadMoves(n: nat, y: Sync)
    requires PcsOk(n, y) && !LoadEnded(n, y.load)
    ensures var z, t, ph := Step(n, y, MTE2), y.load.task, y.load.phase;
      && z.comp == y.comp && z.store == y.store && PcsOk(n, z)
      && (if t < n && ph == WAIT_A then WaitsA(n, y) == t && WaitsA(n, z) == t + 1 else WaitsA(n, z) == WaitsA(n, y))
      && (if t < n && ph == WAIT_B then WaitsB(n, y) == t && WaitsB(n, z) == t + 1 else WaitsB(n, z) == WaitsB(n, y))
      && (if t < n && ph == SET_READY then SetsReady(n, y) == t && SetsReady(n, z) == t + 1
          else SetsReady(n, z) == SetsReady(n, y))
  {
  }

  lemma LoadFlags(n: nat, y: Sync)
    requires PcsOk(n, y) && !LoadEnded(n, y.load)
    ensures var z, t, ph := Step(n, y, MTE2), y.load.task, y.load.phase;
      && Bumped(FlagsA(n, y), FlagsA(n, z), t % 3, if t < n && ph == WAIT_A then -1 else 0, 3)
      && Bumped(FlagsB(n, y), FlagsB(n, z), t % 2, if t < n && ph == WAIT_B then -1 else 0, 2)
      && Bumped(y.ready, z.ready, t % 3, if t < n && ph == SET_READY then 1 else 0, 3) && z.done == y.done
  {
  }

  lemma LoadOrder(n: nat, y: Sync)
    requires Inv(n, y) && Enabled(n, y, MTE2)
    ensures Ordered(n, Step(n, y, MTE2))
  {
    LoadMoves(n, y);
  }

  lemma LoadNonNegative(n: nat, y: Sync)
    requires Enabled(n, y, MTE2)
    requires (forall b :: 0 <= b < 3 ==> y.aFree(b) >= 0) && (forall b :: 0 <= b < 2 ==> y.bFree(b) >= 0)
    ensures var z := Step(n, y, MTE2);
      (forall b :: 0 <= b < 3 ==> z.aFree(b) >= 0) && (forall b :: 0 <= b < 2 ==> z.bFree(b) >= 0)
  {
  }

  lemma LoadKeepsA(n: nat, y: Sync)
    requires Ordered(n, y) && Ordered(n, Step(n, y, MTE2)) && !LoadEnded(n, y.load)
    requires Tally3(FlagsA(n, y), SetsA(n, y), WaitsA(n, y))
    ensures var z := Step(n, y, MTE2); Tally3(FlagsA(n, z), SetsA(n, z), WaitsA(n, z))
  {
    var z, t, ph := Step(n, y, MTE2), y.load.task, y.load.phase;
    Windows(n, y);
    LoadMoves(n, y);
    LoadFlags(n, y);
    Wait3(FlagsA(n, y), FlagsA(n, z), SetsA(n, y), WaitsA(n, y), WaitsA(n, z), t < n && ph == WAIT_A, t % 3);
  }
  lemma LoadKeepsB(n: nat, y: Sync)
    requires Ordered(n, y) && Ordered(n, Step(n, y, MTE2)) && !LoadEnded(n, y.load)
    requires Tally2(FlagsB(n, y), SetsB(n, y), WaitsB(n, y))
    ensures var z := Step(n, y, MTE2); Tally2(FlagsB(n, z), SetsB(n, z), WaitsB(n, z))
  {
    var z, t, ph := Step(n, y, MTE2), y.load.task, y.load.phase;
    Windows(n, y);
    LoadMoves(n, y);
    LoadFlags(n, y);
    Wait2(FlagsB(n, y), FlagsB(n, z), SetsB(n, y), WaitsB(n, y), WaitsB(n, z), t < n && ph == WAIT_B, t % 2);
  }
  lemma LoadKeepsReady(n: nat, y: Sync)
    requires Ordered(n, y) && Ordered(n, Step(n, y, MTE2)) && !LoadEnded(n, y.load)
    requires Tally3(y.ready, SetsReady(n, y), WaitsReady(n, y))
    ensures var z := Step(n, y, MTE2); Tally3(z.ready, SetsReady(n, z), WaitsReady(n, z))
  {
    var z, t, ph := Step(n, y, MTE2), y.load.task, y.load.phase;
    Windows(n, z);
    LoadMoves(n, y);
    LoadFlags(n, y);
    Set3(y.ready, z.ready, SetsReady(n, y), SetsReady(n, z), WaitsReady(n, y), t < n && ph == SET_READY, t % 3);
  }
  lemma LoadKeepsDone(n: nat, y: Sync)
    requires PcsOk(n, y) && !LoadEnded(n, y.load) && Tally3(y.done, SetsDone(n, y), WaitsDone(n, y))
    ensures var z := Step(n, y, MTE2); Tally3(z.done, SetsDone(n, z), WaitsDone(n, z))
  {
    LoadMoves(n, y);
    LoadFlags(n, y);
  }

  lemma LoadStep(n: nat, y: Sync)
    requires Inv(n, y) && Enabled(n, y, MTE2)
    ensures Inv(n, Step(n, y, MTE2))
  {
    LoadOrder(n, y);
    LoadNonNegative(n, y);
    LoadKeepsA(n, y);
    LoadKeepsB(n, y);
    LoadKeepsReady(n, y);
    LoadKeepsDone(n, y);
  }

  lemma CompMoves(n: nat, y: Sync)
    requires PcsOk(n, y) && !CompEnded(n, y.comp)
    ensures var z, t, ph := Step(n, y, V), y.comp.task, y.comp.phase;
      && z.load == y.load && z.store == y.store && PcsOk(n, z)
      && (if t < 0 then SetsB(n, y) == ph && SetsB(n, z) == ph + 1
          else if ph == SET_B then SetsB(n, y) == t + 2 && SetsB(n, z) == t + 3 else SetsB(n, z) == SetsB(n, y))
      && (t < 0 || ph == SET_B ==> (if t < 0 then ph else t % 2) == SetsB(n, y) % 2)
      && (if t >= 0 && ph == WAIT_READY then WaitsReady(n, y) == t && WaitsReady(n, z) == t + 1
          else WaitsReady(n, z) == WaitsReady(n, y))
      && (if t >= 0 && ph == SET_DONE then SetsDone(n, y) == t && SetsDone(n, z) == t + 1
          else SetsDone(n, z) == SetsDone(n, y))
  {
  }

  lemma CompFlags(n: nat, y: Sync)
    requires PcsOk(n, y) && !CompEnded(n, y.comp)
    ensures var z, t, ph := Step(n, y, V), y.comp.task, y.comp.phase;
      && Bumped(FlagsB(n, y), FlagsB(n, z), if t < 0 then ph else t % 2, if t < 0 || ph == SET_B then 1 else 0, 2)
      && Bumped(y.ready, z.ready, t % 3, if t >= 0 && ph == WAIT_READY then -1 else 0, 3)
      && Bumped(y.done, z.done, t % 3, if t >= 0 && ph == SET_DONE then 1 else 0, 3)
      && z.aFree == y.aFree && (forall b :: 0 <= b < 2 ==> z.bFree(b) >= y.bFree(b))
  {
  }

  lemma CompOrder(n: nat, y: Sync)
    requires Inv(n, y) && Enabled(n, y, V)
    ensures Ordered(n, Step(n, y, V))
  {
    CompMoves(n, y);
  }

  lemma CompKeepsB(n: nat, y: Sync)
    requires Ordered(n, y) && Ordered(n, Step(n, y, V)) && !CompEnded(n, y.comp)
    requires Tally2(FlagsB(n, y), SetsB(n, y), WaitsB(n, y))
    ensures var z := Step(n, y, V); Tally2(FlagsB(n, z), SetsB(n, z), WaitsB(n, z))
  {
    var z, t, ph := Step(n, y, V), y.comp.task, y.comp.phase;
    Windows(n, z);
    CompMoves(n, y);
    CompFlags(n, y);
    Set2(FlagsB(n, y), FlagsB(n, z), SetsB(n, y), SetsB(n, z), WaitsB(n, y),
         t < 0 || ph == SET_B, if t < 0 then ph else t % 2);
  }
  lemma CompKeepsReady(n: nat, y: Sync)
    requires Ordered(n, y) && Ordered(n, Step(n, y, V)) && !CompEnded(n, y.comp)
    requires Tally3(y.ready, SetsReady(n, y), WaitsReady(n, y))
    ensures var z := Step(n, y, V); Tally3(z.ready, SetsReady(n, z), WaitsReady(n, z))
  {
    var z, t, ph := Step(n, y, V), y.comp.task, y.comp.phase;
    Windows(n, y);
    CompMoves(n, y);
    CompFlags(n, y);
    Wait3(y.ready, z.ready, SetsReady(n, y), WaitsReady(n, y), WaitsReady(n, z), t >= 0 && ph == WAIT_READY, t % 3);
  }
  lemma CompKeepsDone(n: nat, y: Sync)
    requires Ordered(n, y) && Ordered(n, Step(n, y, V)) && !CompEnded(n, y.comp)
    requires Tally3(y.done, SetsDone(n, y), WaitsDone(n, y))
    ensures var z := Step(n, y, V); Tally3(z.done, SetsDone(n, z), WaitsDone(n, z))
  {
    var z, t, ph := Step(n, y, V), y.comp.task, y.comp.phase;
    Windows(n, z);
    CompMoves(n, y);
    CompFlags(n, y);
    Set3(y.done, z.done, SetsDone(n, y), SetsDone(n, z), WaitsDone(n, y), t >= 0 && ph == SET_DONE, t % 3);
  }
  lemma CompKeepsRest(n: nat, y: Sync)
    requires PcsOk(n, y) && Counted(n, y) && !CompEnded(n, y.comp)
    ensures var z := Step(n, y, V);
      && Tally3(FlagsA(n, z), SetsA(n, z), WaitsA(n, z))
      && (forall b :: 0 <= b < 3 ==> z.aFree(b) >= 0) && (forall b :: 0 <= b < 2 ==> z.bFree(b) >= 0)
  {
    var z := Step(n, y, V);
    CompMoves(n, y);
    CompFlags(n, y);
    assert FlagsA(n, z) == FlagsA(n, y);
  }

  lemma CompStep(n: nat, y: Sync)
    requires Inv(n, y) && Enabled(n, y, V)
    ensures Inv(n, Step(n, y, V))
  {
    CompOrder(n, y);
    CompKeepsB(n, y);
    CompKeepsReady(n, y);
    CompKeepsDone(n, y);
    CompKeepsRest(n, y);
  }

  lemma StoreMoves(n: nat, y: Sync)
    requires PcsOk(n, y) && !StoreEnded(n, y.store)
    ensures var z, t, ph := Step(n, y, MTE3), y.store.task, y.store.phase;
      && z.load == y.load && z.comp == y.comp && PcsOk(n, z)
      && (if t < 0 then SetsA(n, y) == ph && SetsA(n, z) == ph + 1
          else if ph == SET_A then SetsA(n, y) == t + 3 && SetsA(n, z) == t + 4 else SetsA(n, z) == SetsA(n, y))
      && (t < 0 || ph == SET_A ==> (if t < 0 then ph else t % 3) == SetsA(n, y) % 3)
      && (if t >= 0 && ph == WAIT_DONE then WaitsDone(n, y) == t && WaitsDone(n, z) == t + 1
          else WaitsDone(n, z) == WaitsDone(n, y))
  {
  }

  lemma StoreFlags(n: nat, y: Sync)
    requires PcsOk(n, y) && !StoreEnded(n, y.store)
    ensures var z, t, ph := Step(n, y, MTE3), y.store.task, y.store.phase;
      && Bumped(FlagsA(n, y), FlagsA(n, z), if t < 0 then ph else t % 3, if t < 0 || ph == SET_A then 1 else 0, 3)
      && Bumped(y.done, z.done, t % 3, if t >= 0 && ph == WAIT_DONE then -1 else 0, 3)
      && z.bFree == y.bFree && z.ready == y.ready && (forall b :: 0 <= b < 3 ==> z.aFree(b) >= y.aFree(b))
  {
  }

  lemma StoreOrder(n: nat, y: Sync)
    requires Inv(n, y) && Enabled(n, y, MTE3)
    ensures Ordered(n, Step(n, y, MTE3))
  {
    StoreMoves(n, y);
  }

  lemma StoreKeepsA(n: nat, y: Sync)
    requires Ordered(n, y) && Ordered(n, Step(n, y, MTE3)) && !StoreEnded(n, y.store)
    requires Tally3(FlagsA(n, y), SetsA(n, y), WaitsA(n, y))
    ensures var z := Step(n, y, MTE3); Tally3(FlagsA(n, z), SetsA(n, z), WaitsA(n, z))
  {
    var z, t, ph := Step(n, y, MTE3), y.store.task, y.store.phase;
    Windows(n, z);
    StoreMoves(n, y);
    StoreFlags(n, y);
    Set3(FlagsA(n, y), FlagsA(n, z), SetsA(n, y), SetsA(n, z), WaitsA(n, y),
         t < 0 || ph == SET_A, if t < 0 then ph else t % 3);
  }

  lemma StoreKeepsDone(n: nat, y: Sync)
    requires Ordered(n, y) && Ordered(n, Step(n, y, MTE3)) && !StoreEnded(n, y.store)
    requires Tally3(y.done, SetsDone(n, y), WaitsDone(n, y))
    ensures var z := Step(n, y, MTE3); Tally3(z.done, SetsDone(n, z), WaitsDone(n, z))
  {
    var z, t, ph := Step(n, y, MTE3), y.store.task, y.store.phase;
    Windows(n, y);
    StoreMoves(n, y);
    StoreFlags(n, y);
    Wait3(y.done, z.done, SetsDone(n, y), WaitsDone(n, y), WaitsDone(n, z), t >= 0 && ph == WAIT_DONE, t % 3);
  }

  lemma StoreStep(n: nat, y: Sync)
    requires Inv(n, y) && Enabled(n, y, MTE3)
    ensures Inv(n, Step(n, y, MTE3))
  {
    StoreOrder(n, y);
    StoreKeepsA(n, y);
    StoreKeepsDone(n, y);
    StoreKeepsRest(n, y);
  }

  lemma StoreKeepsRest(n: nat, y: Sync)
    requires PcsOk(n, y) && Counted(n, y) && !StoreEnded(n, y.store)
    ensures var z := Step(n, y, MTE3);
      && Tally2(FlagsB(n, z), SetsB(n, z), WaitsB(n, z)) && Tally3(z.ready, SetsReady(n, z), WaitsReady(n, z))
      && (forall b :: 0 <= b < 3 ==> z.aFree(b) >= 0) && (forall b :: 0 <= b < 2 ==> z.bFree(b) >= 0)
  {
    var z := Step(n, y, MTE3);
    assert z.load == y.load && z.comp == y.comp && z.bFree == y.bFree && z.ready == y.ready;
    assert FlagsB(n, z) == FlagsB(n, y);
  }

  lemma StepInv(n: nat, y: Sync, p: Pipe)
    requires Inv(n, y) && Enabled(n, y, p)
    ensures Inv(n, Step(n, y, p))
  {
    match p
    case MTE2 => LoadStep(n, y);
    case V => CompStep(n, y);
    case MTE3 => StoreStep(n, y);
  }

  // ----- what the invariant gives

  /** Every event flag is 0 or 1. */
  lemma FlagsAreBits(n: nat, y: Sync, b: int)
    requires Inv(n, y) && 0 <= b < 3
    ensures 0 <= y.aFree(b) <= 1 && 0 <= y.ready(b) <= 1 && 0 <= y.done(b) <= 1 && (b < 2 ==> 0 <= y.bFree(b) <= 1)
  {
    Bits3(FlagsA(n, y), SetsA(n, y), WaitsA(n, y), b);
    Bits3(y.ready, SetsReady(n, y), WaitsReady(n, y), b);
    Bits3(y.done, SetsDone(n, y), WaitsDone(n, y), b);
    if b < 2 { Bits2(FlagsB(n, y), SetsB(n, y), WaitsB(n, y), b); }
  }

  lemma Bits3(f: int -> int, sets: int, waits: int, b: int)
    requires Tally3(f, sets, waits) && 0 <= b < 3
    ensures 0 <= f(b) <= 1
  {
    assert b == waits % 3 || b == (waits + 1) % 3 || b == (waits + 2) % 3;
  }
  lemma Bits2(f: int -> int, sets: int, waits: int, b: int)
    requires Tally2(f, sets, waits) && 0 <= b < 2
    ensures 0 <= f(b) <= 1
  {
    assert b == waits % 2 || b == (waits + 1) % 2;
  }

  /** Two pipes that stand at accesses of the buffer at the same time work on tasks one or two apart, loads ahead
      of the add ahead of the store: their A slots (modulo 3) and B slots (modulo 2) differ. */
  lemma SlotsNotShared(n: nat, y: Sync)
    requires Ordered(n, y)
    ensures y.load.task < n && y.load.phase == COPY_A && 0 <= y.comp.task && y.comp.phase == ADD ==>
      y.comp.task < y.load.task <= y.comp.task + 2
    ensures y.load.task < n && y.load.phase == COPY_A && 0 <= y.store.task && y.store.phase == COPY_OUT ==>
      y.store.task < y.load.task <= y.store.task + 2
    ensures 0 <= y.comp.task && y.comp.phase == ADD && 0 <= y.store.task && y.store.phase == COPY_OUT ==>
      y.store.task < y.comp.task <= y.store.task + 2
    ensures y.load.task < n && y.load.phase == COPY_B && 0 <= y.comp.task && y.comp.phase == ADD ==>
      y.load.task == y.comp.task + 1
  {
  }

  lemma FlagUp3(f: int -> int, n: nat, b: int)
    requires Tally3(f, n + 3, n) && 0 <= b < 3
    ensures f(b) == 1
  {
    assert b == n % 3 || b == (n + 1) % 3 || b == (n + 2) % 3;
  }
  lemma FlagUp2(f: int -> int, n: nat, b: int)
    requires Tally2(f, n + 2, n) && 0 <= b < 2
    ensures f(b) == 1
  {
    assert b == n % 2 || b == (n + 1) % 2;
  }
  lemma FlagDown3(f: int -> int, n: nat, b: int)
    requires Tally3(f, n, n) && 0 <= b < 3
    ensures f(b) == 0
  {
    assert b == n % 3 || b == (n + 1) % 3 || b == (n + 2) % 3;
  }
  /** When the kernel ends, clear_flag has drained every flag. */
  lemma DrainedAtEnd(n: nat, y: Sync, b: int)
    requires Inv(n, y) && Finished(n, y) && 0 <= b < 3
    ensures y.aFree(b) == 0 && y.ready(b) == 0 && y.done(b) == 0 && (b < 2 ==> y.bFree(b) == 0)
  {
    FlagUp3(FlagsA(n, y), n, b);
    if b < 2 { FlagUp2(FlagsB(n, y), n, b); }
    FlagDown3(y.ready, n, b);
    FlagDown3(y.done, n, b);
  }

  /** The pipe stands at a wait whose set has not come. */
  predicate LoadWaits(n: nat, y: Sync) {
    || (y.load.phase == WAIT_A && SetsA(n, y) == WaitsA(n, y))
    || (y.load.phase == WAIT_B && SetsB(n, y) == WaitsB(n, y))
  }
  predicate CompWaits(n: nat, y: Sync) {
    y.comp.task >= 0 && y.comp.phase == WAIT_READY && SetsReady(n, y) == WaitsReady(n, y)
  }
  predicate StoreWaits(n: nat, y: Sync) {
    y.store.task >= 0 && y.store.phase == WAIT_DONE && SetsDone(n, y) == WaitsDone(n, y)
  }
  lemma LoadBlocked(n: nat, y: Sync)
    requires Inv(n, y) && y.load.task < n && !Enabled(n, y, MTE2)
    ensures LoadWaits(n, y)
  {
  }
  lemma CompBlocked(n: nat, y: Sync)
    requires Inv(n, y) && !CompEnded(n, y.comp) && !Enabled(n, y, V)
    ensures CompWaits(n, y)
  {
  }
  lemma StoreBlocked(n: nat, y: Sync)
    requires Inv(n, y) && !StoreEnded(n, y.store) && !Enabled(n, y, MTE3)
    ensures StoreWaits(n, y)
  {
  }
  lemma LastClear(n: nat, y: Sync)
    requires Inv(n, y) && y.load.task == n && y.load.phase < 5 && y.comp == y.store == Pc(n, 0)
    ensures Enabled(n, y, MTE2)
  {
    if y.load.phase < 3 { FlagUp3(FlagsA(n, y), n, y.load.phase); } else { FlagUp2(FlagsB(n, y), n, y.load.phase - 3); }
  }
  /** Three pipes cannot all wait: the oldest task in flight always has its set behind it. */
  lemma NotAllBlocked(n: nat, y: Sync)
    requires Ordered(n, y) && (CompEnded(n, y.comp) || CompWaits(n, y)) && (StoreEnded(n, y.store) || StoreWaits(n, y))
    ensures if y.load.task < n then !LoadWaits(n, y) else CompEnded(n, y.comp) && StoreEnded(n, y.store)
  {
  }
  lemma NoDeadlock(n: nat, y: Sync)
    requires Inv(n, y) && !Finished(n, y)
    ensures Enabled(n, y, MTE2) || Enabled(n, y, V) || Enabled(n, y, MTE3)
  {
    if !Enabled(n, y, V) && !Enabled(n, y, MTE3) {
      if !CompEnded(n, y.comp) { CompBlocked(n, y); }
      if !StoreEnded(n, y.store) { StoreBlocked(n, y); }
      NotAllBlocked(n, y);
      if y.load.task == n { LastClear(n, y); } else if !Enabled(n, y, MTE2) { LoadBlocked(n, y); }
    }
  }
  lemma EnabledPipe(n: nat, y: Sync) returns (pipe: Pipe)
    requires Inv(n, y) && !Finished(n, y)
    ensures Enabled(n, y, pipe)
  {
    NoDeadlock(n, y);
    pipe := if Enabled(n, y, MTE2) then MTE2 else if Enabled(n, y, V) then V else MTE3;
  }
}
