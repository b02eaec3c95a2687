/** The kernel text executed in program order: main with its macros init_flag, load, compute, store and
    clear_flag. It is a legal run of one kernel in which no wait ever finds its flag down. */
module VecAddProgram {
  import opened PipeProtocol
  import opened VecAdd

  // ----- where the pipes stand

  datatype Pos = Pos(load: Pc, comp: Pc, store: Pc)
  function Where(m: Machine, p: int): Pos {
    var y := m.kernel(p).sync;
    Pos(y.load, y.comp, y.store)
  }
  function Move(n: nat, q: Pos, pipe: Pipe): Pos {
    match pipe
    case MTE2 => q.(load := LoadAdvance(n, q.load))
    case V => q.(comp := CompAdvance(q.comp))
    case MTE3 => q.(store := StoreAdvance(q.store))
  }
  // ----- the text of the kernel

  /** An instruction of the text: phase pc.phase of task pc.task on a pipe. */
  datatype Instr = Instr(pipe: Pipe, pc: Pc)
  /** The first k instructions of a macro for task t. */
  function Macro(pipe: Pipe, t: int, k: nat): seq<Instr> {
    if k == 0 then [] else Macro(pipe, t, k - 1) + [Instr(pipe, Pc(t, k - 1))]
  }
  function InitText(): seq<Instr> { Macro(MTE3, -1, 3) + Macro(V, -1, 2) }
  function LoadText(t: int): seq<Instr> { Macro(MTE2, t, 5) }
  function ComputeText(t: int): seq<Instr> { Macro(V, t, 4) }
  function StoreText(t: int): seq<Instr> { Macro(MTE3, t, 3) }
  function ClearText(n: nat): seq<Instr> { Macro(MTE2, n, 5) }
  /** The body of the loop, and the loop up to iteration k. */
  function BodyText(n: nat, i: int): seq<Instr> {
    (if i < n then LoadText(i) else [])
    + (if i > 0 && i < n + 1 then ComputeText(i - 1) else [])
    + (if i > 1 then StoreText(i - 2) else [])
  }
  function LoopText(n: nat, k: nat): seq<Instr> { if k == 0 then [] else LoopText(n, k - 1) + BodyText(n, k - 1) }
  function Text(n: nat): seq<Instr> { InitText() + LoopText(n, n + 2) + ClearText(n) }

  /** What kernel p does when it executes the text. */
  function Actions(p: int, text: seq<Instr>): seq<Act> {
    if text == [] then [] else Actions(p, text[..|text| - 1]) + [Act(p, text[|text| - 1].pipe)]
  }
  function PcOf(q: Pos, pipe: Pipe): Pc { match pipe case MTE2 => q.load case V => q.comp case MTE3 => q.store }
  predicate Ready(m: Machine, p: int, i: Instr) { PcOf(Where(m, p), i.pipe) == i.pc }
  /** When an instruction is executed, its pipe stands at it. */
  ghost predicate InStep(g: Grid, p: int, m0: Machine, text: seq<Instr>)
    decreases |text|
  {
    text == [] ||
    (var n := |text| - 1;
     InStep(g, p, m0, text[..n]) && Ready(After(g, m0, Actions(p, text[..n])), p, text[n]))
  }

  // ----- runs that follow a text

  /** m is reached by executing the text from a state m0 in which kernel p has not started, each action being possible
      when it was taken. */
  ghost predicate Reached(g: Grid, p: int, m0: Machine, text: seq<Instr>, m: Machine) {
    && 0 <= p < g.num && m0.kernel(p).sync == Start() && Schedule(g, m0, Actions(p, text))
    && After(g, m0, Actions(p, text)) == m && InStep(g, p, m0, text)
  }

  lemma {:induction false} Append(g: Grid, m0: Machine, acts: seq<Act>, a: Act)
    requires Schedule(g, m0, acts) && CanAct(g, After(g, m0, acts), a)
    ensures Schedule(g, m0, acts + [a]) && After(g, m0, acts + [a]) == Next(g, After(g, m0, acts), a)
    decreases |acts|
  {
    if acts == [] {
      assert acts + [a] == [a];
    } else {
      assert (acts + [a])[1..] == acts[1..] + [a];
      Append(g, Next(g, m0, acts[0]), acts[1..], a);
    }
  }
  lemma ReachedNext(g: Grid, p: int, m0: Machine, text: seq<Instr>, m: Machine, i: Instr)
    requires Reached(g, p, m0, text, m) && CanAct(g, m, Act(p, i.pipe)) && Ready(m, p, i)
    ensures Reached(g, p, m0, text + [i], Next(g, m, Act(p, i.pipe)))
  {
    assert (text + [i])[..|text|] == text;
    Append(g, m0, Actions(p, text), Act(p, i.pipe));
  }

  /** The pipe invariant of one kernel along a schedule. */
  lemma {:induction false} KernelInv(g: Grid, p: int, m: Machine, acts: seq<Act>)
    requires 0 <= p < g.num && Inv(g.tasks(p), m.kernel(p).sync) && Schedule(g, m, acts)
    ensures Inv(g.tasks(p), After(g, m, acts).kernel(p).sync)
    decreases |acts|
  {
    if acts != [] {
      if acts[0].p == p { StepInv(g.tasks(p), m.kernel(p).sync, acts[0].pipe); }
      KernelInv(g, p, Next(g, m, acts[0]), acts[1..]);
    }
  }
  lemma ReachedInv(g: Grid, p: int, m0: Machine, text: seq<Instr>, m: Machine)
    requires Reached(g, p, m0, text, m)
    ensures Inv(g.tasks(p), m.kernel(p).sync)
  {
    StartInv(g.tasks(p));
    KernelInv(g, p, m0, Actions(p, text));
  }

  /** A set of executions closed under possible instructions, all of whose states keep the pipe
      invariant of kernel p. */
  type Runs = (seq<Instr>, Machine) -> bool
  ghost predicate Grows(g: Grid, p: int, R: Runs) {
    forall text, m, i: Instr :: R(text, m) && CanAct(g, m, Act(p, i.pipe)) && Ready(m, p, i) ==>
      R(text + [i], Next(g, m, Act(p, i.pipe)))
  }
  ghost predicate Sound(g: Grid, p: int, R: Runs) {
    && 0 <= p < g.num
    && forall text, m {:trigger R(text, m), Inv(g.tasks(p), m.kernel(p).sync)} ::
         R(text, m) ==> Inv(g.tasks(p), m.kernel(p).sync)
  }
  ghost predicate Closed(g: Grid, p: int, R: Runs) { Grows(g, p, R) && Sound(g, p, R) }

  /** The executions from m0. */
  ghost function RunsFrom(g: Grid, p: int, m0: Machine): Runs {
    (text: seq<Instr>, m: Machine) => Reached(g, p, m0, text, m)
  }
  lemma RunsClosed(g: Grid, p: int, m0: Machine)
    requires 0 <= p < g.num
    ensures Closed(g, p, RunsFrom(g, p, m0))
  {
    forall text, m, i: Instr | Reached(g, p, m0, text, m) && CanAct(g, m, Act(p, i.pipe)) && Ready(m, p, i)
      ensures Reached(g, p, m0, text + [i], Next(g, m, Act(p, i.pipe)))
    {
      ReachedNext(g, p, m0, text, m, i);
    }
    forall text, m | Reached(g, p, m0, text, m)
      ensures Inv(g.tasks(p), m.kernel(p).sync)
    {
      ReachedInv(g, p, m0, text, m);
    }
  }

  /** What program order must have put behind a pipe for its next action not to block. */
  predicate Goes(n: nat, q: Pos, pipe: Pipe) {
    match pipe
    case MTE2 =>
      if q.load.task < n
      then q.load.task - 2 <= q.store.task && q.load.task - 1 <= q.comp.task && 0 <= q.store.task && 0 <= q.comp.task
      else q.load.task == n && q.load.phase < 5 && q.comp == q.store == Pc(n, 0)
    case V => q.comp.task < 0 || (q.comp.task < n && q.comp.task < q.load.task)
    case MTE3 => q.store.task < 0 || (q.store.task < n && q.store.task < q.comp.task)
  }

  // ----- a wait whose set is done does not block

  lemma SlotAUp(n: nat, y: Sync)
    requires Inv(n, y) && y.load.task < n && y.load.phase == WAIT_A
    requires 0 <= y.store.task && y.load.task - 2 <= y.store.task
    ensures y.aFree(y.load.task % 3) > 0
  {
    assert Tally3(FlagsA(n, y), SetsA(n, y), WaitsA(n, y)) && WaitsA(n, y) == y.load.task;
  }
  lemma SlotBUp(n: nat, y: Sync)
    requires Inv(n, y) && y.load.task < n && y.load.phase == WAIT_B
    requires 0 <= y.comp.task && y.load.task - 1 <= y.comp.task
    ensures y.bFree(y.load.task % 2) > 0
  {
    assert Tally2(FlagsB(n, y), SetsB(n, y), WaitsB(n, y)) && WaitsB(n, y) == y.load.task;
  }
  lemma SlotsUp(n: nat, y: Sync)
    requires Inv(n, y) && y.load.task < n
    requires 0 <= y.store.task && y.load.task - 2 <= y.store.task && 0 <= y.comp.task && y.load.task - 1 <= y.comp.task
    ensures Enabled(n, y, MTE2)
  {
    if y.load.phase == WAIT_A { SlotAUp(n, y); }
    if y.load.phase == WAIT_B { SlotBUp(n, y); }
  }

  lemma CompGoes(n: nat, y: Sync)
    requires Inv(n, y) && (y.comp.task < 0 || (y.comp.task < n && y.comp.task < y.load.task))
    ensures Enabled(n, y, V)
  {
    assert Tally3(y.ready, SetsReady(n, y), WaitsReady(n, y));
  }

  lemma StoreGoes(n: nat, y: Sync)
    requires Inv(n, y) && (y.store.task < 0 || (y.store.task < n && y.store.task < y.comp.task))
    ensures Enabled(n, y, MTE3)
  {
    assert Tally3(y.done, SetsDone(n, y), WaitsDone(n, y));
  }

  lemma PipeGoes(n: nat, y: Sync, pipe: Pipe)
    requires Inv(n, y) && Goes(n, Pos(y.load, y.comp, y.store), pipe)
    ensures Enabled(n, y, pipe)
  {
    match pipe
    case MTE2 => if y.load.task < n { SlotsUp(n, y); } else { LastClear(n, y); }
    case V => CompGoes(n, y);
    case MTE3 => StoreGoes(n, y);
  }

  /** One instruction; it does not block. */
  method Do(g: Grid, p: int, i: Instr, ghost R: Runs, m: Machine, ghost text: seq<Instr>) returns (z: Machine)
    requires Closed(g, p, R) && R(text, m) && Goes(g.tasks(p), Where(m, p), i.pipe) && Ready(m, p, i)
    ensures R(text + [i], z) && Where(z, p) == Move(g.tasks(p), Where(m, p), i.pipe)
  {
    PipeGoes(g.tasks(p), m.kernel(p).sync, i.pipe);
    assert CanAct(g, m, Act(p, i.pipe));
    z := Next(g, m, Act(p, i.pipe));
  }

  // ----- the macros

  lemma MacroNext(text: seq<Instr>, pipe: Pipe, t: int, k: nat)
    ensures text + Macro(pipe, t, k) + [Instr(pipe, Pc(t, k))] == text + Macro(pipe, t, k + 1)
  {
  }
  lemma MacroNone(text: seq<Instr>, pipe: Pipe, t: int)
    ensures text + Macro(pipe, t, 0) == text
  {
  }

  method InitFlag(g: Grid, p: int, ghost R: Runs, m: Machine, ghost text: seq<Instr>) returns (z: Machine)
    requires Closed(g, p, R) && R(text, m) && m.kernel(p).sync == Start()
    ensures R(text + InitText(), z) && Where(z, p) == Pos(Pc(0, 0), Pc(0, 0), Pc(0, 0))
  {
    z := m;
    MacroNone(text, MTE3, -1);
    for i := 0 to 3
      invariant R(text + Macro(MTE3, -1, i), z)
      invariant Where(z, p) == Pos(Pc(0, 0), Pc(-1, 0), if i < 3 then Pc(-1, i) else Pc(0, 0))
    {
      z := Do(g, p, Instr(MTE3, Pc(-1, i)), R, z, text + Macro(MTE3, -1, i));
      MacroNext(text, MTE3, -1, i);
    }
    ghost var half := text + Macro(MTE3, -1, 3);
    MacroNone(half, V, -1);
    for i := 0 to 2
      invariant R(half + Macro(V, -1, i), z)
      invariant Where(z, p) == Pos(Pc(0, 0), if i < 2 then Pc(-1, i) else Pc(0, 0), Pc(0, 0))
    {
      z := Do(g, p, Instr(V, Pc(-1, i)), R, z, half + Macro(V, -1, i));
      MacroNext(half, V, -1, i);
    }
    assert half + Macro(V, -1, 2) == text + InitText();
  }

  method Load(g: Grid, p: int, t: int, ghost R: Runs, m: Machine, ghost text: seq<Instr>) returns (z: Machine)
    requires Closed(g, p, R) && R(text, m)
    requires Where(m, p).load == Pc(t, 0) && t < g.tasks(p)
    requires 0 <= Where(m, p).store.task && t - 2 <= Where(m, p).store.task
    requires 0 <= Where(m, p).comp.task && t - 1 <= Where(m, p).comp.task
    ensures R(text + LoadText(t), z) && Where(z, p) == Where(m, p).(load := Pc(t + 1, 0))
  {
    z := m;
    MacroNone(text, MTE2, t);
    for i := 0 to 5
      invariant R(text + Macro(MTE2, t, i), z)
      invariant Where(z, p) == Where(m, p).(load := if i < 5 then Pc(t, i) else Pc(t + 1, 0))
    {
      z := Do(g, p, Instr(MTE2, Pc(t, i)), R, z, text + Macro(MTE2, t, i));
      MacroNext(text, MTE2, t, i);
    }
  }

  method Compute(g: Grid, p: int, t: int, ghost R: Runs, m: Machine, ghost text: seq<Instr>) returns (z: Machine)
    requires Closed(g, p, R) && R(text, m)
    requires Where(m, p).comp == Pc(t, 0) && 0 <= t < g.tasks(p) && t < Where(m, p).load.task
    ensures R(text + ComputeText(t), z) && Where(z, p) == Where(m, p).(comp := Pc(t + 1, 0))
  {
    z := m;
    MacroNone(text, V, t);
    for i := 0 to 4
      invariant R(text + Macro(V, t, i), z)
      invariant Where(z, p) == Where(m, p).(comp := if i < 4 then Pc(t, i) else Pc(t + 1, 0))
    {
      z := Do(g, p, Instr(V, Pc(t, i)), R, z, text + Macro(V, t, i));
      MacroNext(text, V, t, i);
    }
  }

  method Store(g: Grid, p: int, t: int, ghost R: Runs, m: Machine, ghost text: seq<Instr>) returns (z: Machine)
    requires Closed(g, p, R) && R(text, m)
    requires Where(m, p).store == Pc(t, 0) && 0 <= t < g.tasks(p) && t < Where(m, p).comp.task
    ensures R(text + StoreText(t), z) && Where(z, p) == Where(m, p).(store := Pc(t + 1, 0))
  {
    z := m;
    MacroNone(text, MTE3, t);
    for i := 0 to 3
      invariant R(text + Macro(MTE3, t, i), z)
      invariant Where(z, p) == Where(m, p).(store := if i < 3 then Pc(t, i) else Pc(t + 1, 0))
    {
      z := Do(g, p, Instr(MTE3, Pc(t, i)), R, z, text + Macro(MTE3, t, i));
      MacroNext(text, MTE3, t, i);
    }
  }

  method ClearFlag(g: Grid, p: int, ghost R: Runs, m: Machine, ghost text: seq<Instr>) returns (z: Machine)
    requires Closed(g, p, R) && R(text, m)
    requires Where(m, p) == Pos(Pc(g.tasks(p), 0), Pc(g.tasks(p), 0), Pc(g.tasks(p), 0))
    ensures R(text + ClearText(g.tasks(p)), z) && Finished(g.tasks(p), z.kernel(p).sync)
  {
    z := m;
    var n := g.tasks(p);
    MacroNone(text, MTE2, n);
    for i := 0 to 5
      invariant R(text + Macro(MTE2, n, i), z) && Where(z, p) == Pos(Pc(n, i), Pc(n, 0), Pc(n, 0))
    {
      z := Do(g, p, Instr(MTE2, Pc(n, i)), R, z, text + Macro(MTE2, n, i));
      MacroNext(text, MTE2, n, i);
    }
  }

  function Clamp(x: int, n: int): int { if x < 0 then 0 else if x > n then n else x }

  /** Where the three pipes stand at the head of iteration i of the main loop. */
  function Head(n: nat, i: int): Pos { Pos(Pc(Clamp(i, n), 0), Pc(Clamp(i - 1, n), 0), Pc(Clamp(i - 2, n), 0)) }

  lemma NoneAfter(text: seq<Instr>)
    ensures text + [] == text
  {
  }
  lemma InOneGo(text: seq<Instr>, a: seq<Instr>, b: seq<Instr>, c: seq<Instr>)
    ensures text + a + b + c == text + (a + b + c)
  {
  }
  method Iteration(g: Grid, p: int, i: int, ghost R: Runs, m: Machine, ghost text: seq<Instr>) returns (z: Machine)
    requires Closed(g, p, R) && R(text, m)
    requires 0 <= i < g.tasks(p) + 2 && Where(m, p) == Head(g.tasks(p), i)
    ensures R(text + BodyText(g.tasks(p), i), z) && Where(z, p) == Head(g.tasks(p), i + 1)
  {
    z := m;
    var n := g.tasks(p);
    ghost var a, b, c: seq<Instr> := [], [], [];
    NoneAfter(text);
    if i < n {
      a := LoadText(i);
      z := Load(g, p, i, R, z, text);
    }
    NoneAfter(text + a);
    if i > 0 && i < n + 1 {
      b := ComputeText(i - 1);
      z := Compute(g, p, i - 1, R, z, text + a);
    }
    NoneAfter(text + a + b);
    if i > 1 {
      c := StoreText(i - 2);
      z := Store(g, p, i - 2, R, z, text + a + b);
    }
    InOneGo(text, a, b, c);
  }

  lemma LoopNext(text: seq<Instr>, n: nat, k: nat)
    ensures text + LoopText(n, k) + BodyText(n, k) == text + LoopText(n, k + 1)
  {
  }
  method Loop(g: Grid, p: int, ghost R: Runs, m: Machine, ghost text: seq<Instr>) returns (z: Machine)
    requires Closed(g, p, R) && R(text, m) && Where(m, p) == Head(g.tasks(p), 0)
    ensures R(text + LoopText(g.tasks(p), g.tasks(p) + 2), z) && Where(z, p) == Head(g.tasks(p), g.tasks(p) + 2)
  {
    z := m;
    NoneAfter(text);
    for i := 0 to g.tasks(p) + 2
      invariant R(text + LoopText(g.tasks(p), i), z) && Where(z, p) == Head(g.tasks(p), i)
    {
      z := Iteration(g, p, i, R, z, text + LoopText(g.tasks(p), i));
      LoopNext(text, g.tasks(p), i);
    }
  }
  lemma Whole(n: nat)
    ensures [] + InitText() + LoopText(n, n + 2) + ClearText(n) == Text(n)
  {
  }
  method Body(g: Grid, p: int, ghost R: Runs, m: Machine) returns (z: Machine)
    requires Closed(g, p, R) && R([], m) && m.kernel(p).sync == Start()
    ensures R(Text(g.tasks(p)), z) && Finished(g.tasks(p), z.kernel(p).sync)
  {
    z := InitFlag(g, p, R, m, []);
    z := Loop(g, p, R, z, [] + InitText());
    z := ClearFlag(g, p, R, z, [] + InitText() + LoopText(g.tasks(p), g.tasks(p) + 2));
    Whole(g.tasks(p));
  }

  /** main: the software-pipelined loop of one kernel, executed instruction by instruction in the order of the text. No
      instruction blocks, each is executed with its pipe standing at it, and at the end the kernel has finished. */
  method Program(g: Grid, p: int, m0: Machine) returns (z: Machine)
    requires 0 <= p < g.num && m0.kernel(p).sync == Start()
    ensures Schedule(g, m0, Actions(p, Text(g.tasks(p)))) && InStep(g, p, m0, Text(g.tasks(p)))
    ensures After(g, m0, Actions(p, Text(g.tasks(p)))) == z && Finished(g.tasks(p), z.kernel(p).sync)
  {
    ghost var R := RunsFrom(g, p, m0);
    RunsClosed(g, p, m0);
    assert Reached(g, p, m0, [], m0);
    z := Body(g, p, R, m0);
    assert Reached(g, p, m0, Text(g.tasks(p)), z);
  }
}
