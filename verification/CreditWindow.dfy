/** The lighting indexer's credit scheme: the Cube core may be at most FFTS_FLAG_THRESHOLD = 15 stores ahead of the
    two Vector sub-cores; every 15th iteration it waits for a credit that each sub-core returns once. */
module CreditWindow {
  import opened Arith

  const WINDOW := 15

  /** n iterations (task, batch) of one kernel; iteration m uses the h x w cells of the workspace from (row(m),
      col(m)) on, and val(m, x, y) is what the Cube computes for cell (x, y) of it. */
  datatype Job = Job(n: nat, h: int, w: int, row: int -> int, col: int -> int, val: (int, int, int) -> real)
  predicate InRect(g: Job, m: int, a: int, b: int) { g.row(m) <= a < g.row(m) + g.h && g.col(m) <= b < g.col(m) + g.w }

  /** Iteration and phase of a core. Cube: store, set data, wait credit. Vector: wait data, load, set credit. */
  datatype Pc = Pc(iter: int, phase: int)
  datatype State = State(cube: Pc, vec: int -> Pc, data: int -> int, credit: int -> int,
                         ws: (int, int) -> real, got: (int, int, int, int) -> real)
  datatype Core = Cube | Vector(vid: int)

  predicate IsCore(c: Core) { c.Vector? ==> c.vid == 0 || c.vid == 1 }
  predicate Ends(m: int) { m % WINDOW == WINDOW - 1 }

  predicate Enabled(g: Job, s: State, c: Core) {
    match c
    case Cube => s.cube.iter < g.n && (s.cube.phase == 2 && Ends(s.cube.iter) ==> s.credit(0) > 0 && s.credit(1) > 0)
    case Vector(v) => s.vec(v).iter < g.n && (s.vec(v).phase == 0 ==> s.data(v) > 0)
  }
  function Advance(pc: Pc): Pc { if pc.phase == 2 then Pc(pc.iter + 1, 0) else Pc(pc.iter, pc.phase + 1) }
  function StoreRect(g: Job, ws: (int, int) -> real, m: int): (int, int) -> real {
    (a: int, b: int) => if InRect(g, m, a, b) then g.val(m, a - g.row(m), b - g.col(m)) else ws(a, b)
  }
  function Bump(f: int -> int, v: int, d: int): int -> int { (u: int) => if u == v then f(u) + d else f(u) }
  function BumpAll(f: int -> int, d: int): int -> int { (u: int) => f(u) + d }
  function LoadRect(g: Job, got: (int, int, int, int) -> real, ws: (int, int) -> real, v: int, m: int)
    : (int, int, int, int) -> real
  {
    (u: int, k: int, x: int, y: int) => if u == v && k == m then ws(g.row(m) + x, g.col(m) + y) else got(u, k, x, y)
  }

  function Next(g: Job, s: State, c: Core): State {
    match c
    case Cube =>
      var m, z := s.cube.iter, s.(cube := Advance(s.cube));
      if s.cube.phase == 0 then z.(ws := StoreRect(g, s.ws, m))
      else if s.cube.phase == 1 then z.(data := BumpAll(s.data, 1))
      else if Ends(m) then z.(credit := BumpAll(s.credit, -1)) else z
    case Vector(v) =>
      var pc, m := s.vec(v), s.vec(v).iter;
      var z := s.(vec := (u: int) => if u == v then Advance(pc) else s.vec(u));
      if pc.phase == 0 then z.(data := Bump(s.data, v, -1))
      else if pc.phase == 1 then z.(got := LoadRect(g, s.got, s.ws, v, m))
      else if Ends(m) then z.(credit := Bump(s.credit, v, 1)) else z
  }

  ghost predicate Initial(s: State) {
    && s.cube == Pc(0, 0) && s.vec(0) == Pc(0, 0) && s.vec(1) == Pc(0, 0)
    && s.data(0) == s.data(1) == 0 && s.credit(0) == s.credit(1) == 0
  }
  predicate Finished(g: Job, s: State) { s.cube.iter == s.vec(0).iter == s.vec(1).iter == g.n }
  /** No cell belongs to two iterations. */
  ghost predicate Disjoint(g: Job, m: int, k: int) { forall a, b :: !(InRect(g, m, a, b) && InRect(g, k, a, b)) }
  ghost predicate Legal(g: Job) { forall m, k :: 0 <= m < k < g.n ==> Disjoint(g, m, k) }

  // ----- invariant

  function Past(pc: Pc, phase: int): int { pc.iter + (if pc.phase > phase then 1 else 0) }
  /** Complete windows among the first k iterations. */
  function Windows(k: int): int { k / WINDOW }

  predicate PcOk(n: nat, pc: Pc) { 0 <= pc.iter <= n && 0 <= pc.phase <= 2 && (pc.iter == n ==> pc.phase == 0) }

  predicate Link(g: Job, s: State, v: int) {
    && PcOk(g.n, s.cube) && PcOk(g.n, s.vec(v))
    && s.data(v) == Past(s.cube, 1) - Past(s.vec(v), 0) && s.data(v) >= 0
    && s.credit(v) == Windows(s.vec(v).iter) - Windows(s.cube.iter) && s.credit(v) >= 0
  }
  /** Sub-core v has loaded the cells of iteration m as the Cube computed them; the workspace holds them so. */
  ghost predicate SeenAt(g: Job, got: (int, int, int, int) -> real, v: int, m: int) {
    forall x, y :: 0 <= x < g.h && 0 <= y < g.w ==> got(v, m, x, y) == g.val(m, x, y)
  }
  ghost predicate HeldAt(g: Job, ws: (int, int) -> real, m: int) {
    forall a, b :: InRect(g, m, a, b) ==> ws(a, b) == g.val(m, a - g.row(m), b - g.col(m))
  }
  ghost predicate Seen(g: Job, s: State, v: int) { forall m :: 0 <= m < Past(s.vec(v), 1) ==> SeenAt(g, s.got, v, m) }
  ghost predicate Held(g: Job, s: State) { forall m :: 0 <= m < Past(s.cube, 0) ==> HeldAt(g, s.ws, m) }
  ghost predicate Inv(g: Job, s: State) {
    Link(g, s, 0) && Link(g, s, 1) && Held(g, s) && Seen(g, s, 0) && Seen(g, s, 1)
  }

  lemma WindowStep(m: int)
    ensures Windows(m + 1) == Windows(m) + (if Ends(m) then 1 else 0)
  {
  }

  /** At most 15 data flags and at most one credit are outstanding in every reachable state, and a sub-core past its
      wait for iteration m reads after the store of iteration m. */
  lemma Bounds(g: Job, s: State, v: int)
    requires Link(g, s, v)
    ensures 0 <= s.data(v) <= WINDOW && 0 <= s.credit(v) <= 1
    ensures s.vec(v).phase >= 1 ==> s.vec(v).iter < Past(s.cube, 0)
  {
  }

  lemma CubeLink(g: Job, s: State, v: int)
    requires Link(g, s, v) && (v == 0 || v == 1) && Enabled(g, s, Cube)
    ensures Link(g, Next(g, s, Cube), v)
  {
    WindowStep(s.cube.iter);
    assert Next(g, s, Cube).vec(v) == s.vec(v);
  }

  lemma VecLink(g: Job, s: State, v: int, u: int)
    requires Link(g, s, v) && Enabled(g, s, Vector(u))
    ensures Link(g, Next(g, s, Vector(u)), v)
  {
    WindowStep(s.vec(v).iter);
    assert Next(g, s, Vector(u)).cube == s.cube;
  }

  lemma StoreKeeps(g: Job, ws: (int, int) -> real, m: int, k: int)
    requires k == m || (HeldAt(g, ws, k) && Disjoint(g, k, m))
    ensures HeldAt(g, StoreRect(g, ws, m), k)
  {
  }
  lemma HeldStep(g: Job, s: State, c: Core)
    requires Legal(g) && PcOk(g.n, s.cube) && Held(g, s) && IsCore(c) && Enabled(g, s, c)
    ensures Held(g, Next(g, s, c))
  {
    var m, z := s.cube.iter, Next(g, s, c);
    if c == Cube && s.cube.phase == 0 {
      forall k | 0 <= k < m + 1 ensures HeldAt(g, z.ws, k) { StoreKeeps(g, s.ws, m, k); }
    } else {
      assert z.ws == s.ws && Past(z.cube, 0) == Past(s.cube, 0);
    }
  }
  lemma LoadSees(g: Job, got: (int, int, int, int) -> real, ws: (int, int) -> real, v: int, m: int)
    requires HeldAt(g, ws, m)
    ensures SeenAt(g, LoadRect(g, got, ws, v, m), v, m)
  {
    forall x, y | 0 <= x < g.h && 0 <= y < g.w ensures LoadRect(g, got, ws, v, m)(v, m, x, y) == g.val(m, x, y) {
      assert InRect(g, m, g.row(m) + x, g.col(m) + y);
    }
  }
  lemma LoadKeeps(g: Job, got: (int, int, int, int) -> real, ws: (int, int) -> real, u: int, m: int, v: int, k: int)
    requires SeenAt(g, got, v, k) && (u != v || k != m)
    ensures SeenAt(g, LoadRect(g, got, ws, u, m), v, k)
  {
  }
  lemma SeenStep(g: Job, s: State, v: int, c: Core)
    requires Held(g, s) && Link(g, s, v) && Seen(g, s, v) && IsCore(c) && Enabled(g, s, c)
    ensures Seen(g, Next(g, s, c), v)
  {
    Bounds(g, s, v);
    var z := Next(g, s, c);
    assert z.vec(v) == if c == Vector(v) then Advance(s.vec(v)) else s.vec(v);
    if c.Vector? && s.vec(c.vid).phase == 1 {
      var m := s.vec(c.vid).iter;
      forall k | 0 <= k < Past(z.vec(v), 1) ensures SeenAt(g, z.got, v, k) {
        if c.vid == v && k == m { LoadSees(g, s.got, s.ws, v, m); } else { LoadKeeps(g, s.got, s.ws, c.vid, m, v, k); }
      }
    } else {
      assert z.got == s.got && Past(z.vec(v), 1) == Past(s.vec(v), 1);
    }
  }

  lemma StepInv(g: Job, s: State, c: Core)
    requires Legal(g) && Inv(g, s) && IsCore(c) && Enabled(g, s, c)
    ensures Inv(g, Next(g, s, c))
  {
    HeldStep(g, s, c);
    SeenStep(g, s, 0, c);
    SeenStep(g, s, 1, c);
    match c {
      case Cube => CubeLink(g, s, 0); CubeLink(g, s, 1);
      case Vector(u) => VecLink(g, s, 0, u); VecLink(g, s, 1, u);
    }
  }

  lemma NoDeadlock(g: Job, s: State)
    requires Inv(g, s) && !Finished(g, s)
    ensures Enabled(g, s, Cube) || Enabled(g, s, Vector(0)) || Enabled(g, s, Vector(1))
  {
    WindowStep(s.cube.iter);
    Bounds(g, s, 0);
    Bounds(g, s, 1);
  }

  // ----- whole runs

  ghost predicate Schedule(g: Job, s: State, cs: seq<Core>)
    decreases |cs|
  {
    cs == [] || (IsCore(cs[0]) && Enabled(g, s, cs[0]) && Schedule(g, Next(g, s, cs[0]), cs[1..]))
  }
  function After(g: Job, s: State, cs: seq<Core>): State
    decreases |cs|
  {
    if cs == [] then s else After(g, Next(g, s, cs[0]), cs[1..])
  }

  /** Every run: the flags stay within 15 and 1, nobody is stuck before the end, the k-th load of each sub-core has
      seen the k-th store, and a finished run leaves both flags at 0, whatever the number of iterations. */
  lemma {:induction false} RunInv(g: Job, s: State, cs: seq<Core>)
    requires Legal(g) && Inv(g, s) && Schedule(g, s, cs)
    ensures var z := After(g, s, cs);
      && Inv(g, z)
      && (forall v :: v == 0 || v == 1 ==> 0 <= z.data(v) <= WINDOW && 0 <= z.credit(v) <= 1)
      && (Finished(g, z) || Enabled(g, z, Cube) || Enabled(g, z, Vector(0)) || Enabled(g, z, Vector(1)))
      && (Finished(g, z) ==> forall v :: v == 0 || v == 1 ==> z.data(v) == 0 && z.credit(v) == 0)
    decreases |cs|
  {
    if cs == [] {
      Bounds(g, s, 0);
      Bounds(g, s, 1);
      if !Finished(g, s) { NoDeadlock(g, s); }
    } else {
      StepInv(g, s, cs[0]);
      RunInv(g, Next(g, s, cs[0]), cs[1..]);
    }
  }

  /** Actions left to the three cores. */
  function Left(n: nat, pc: Pc): int { 3 * (n - pc.iter) - pc.phase }
  function AllLeft(g: Job, s: State): int { Left(g.n, s.cube) + Left(g.n, s.vec(0)) + Left(g.n, s.vec(1)) }
  lemma StepDescends(g: Job, s: State, c: Core)
    requires Inv(g, s) && IsCore(c) && Enabled(g, s, c)
    ensures AllLeft(g, Next(g, s, c)) == AllLeft(g, s) - 1
  {
  }
  /** Every run ends: from the start no schedule is longer than 9 n actions. */
  lemma {:induction false} RunsEnd(g: Job, s: State, cs: seq<Core>)
    requires Legal(g) && Inv(g, s) && Schedule(g, s, cs)
    ensures |cs| <= AllLeft(g, s)
    decreases |cs|
  {
    if cs != [] {
      StepInv(g, s, cs[0]);
      StepDescends(g, s, cs[0]);
      RunsEnd(g, Next(g, s, cs[0]), cs[1..]);
    }
  }

  lemma StartInv(g: Job, s: State)
    requires Initial(s)
    ensures Inv(g, s)
  {
  }

  // ----- the iterations of one kernel

  /** The launch: M rows, n column blocks, B batches over a number of kernels. */
  datatype Launch = Launch(M: int, cols: int, B: int, H: int, bs: int, kernels: int, id: int)

  predicate LegalLaunch(l: Launch) {
    l.M >= 0 && l.cols >= 0 && l.B > 0 && l.H > 0 && l.bs > 0 && 0 <= l.id < l.kernels
  }
  /** Loop bound of the task loop, and the guard inside it. */
  function Bound(l: Launch): int requires LegalLaunch(l) { (l.M * l.cols + l.kernels - 1) / l.kernels }
  predicate Active(l: Launch, task: int) { task * l.kernels + l.id < l.M * l.cols }
  /** The number of active tasks. */
  function Tasks(l: Launch): int requires LegalLaunch(l) { (l.M * l.cols - l.id + l.kernels - 1) / l.kernels }

  /** The guard is false only for a tail of the loop, so iteration task * B + b is the number of iterations before
      it. */
  lemma GuardIsPrefix(l: Launch, task: int)
    requires LegalLaunch(l) && task >= 0
    ensures Active(l, task) <==> task < Tasks(l)
    ensures 0 <= Tasks(l) <= Bound(l)
  {
    MulMono(0, l.M, l.cols);
    DivBelow(l.M * l.cols - l.id + l.kernels - 1, l.kernels, task + 1);
    assert (task + 1) * l.kernels == task * l.kernels + l.kernels;
    DivBelow(l.M * l.cols - l.id + l.kernels - 1, l.kernels, 0);
    DivBelow(l.M * l.cols - l.id + l.kernels - 1, l.kernels, Bound(l) + 1);
    DivModLaw(l.M * l.cols + l.kernels - 1, l.kernels);
    assert (Bound(l) + 1) * l.kernels == Bound(l) * l.kernels + l.kernels;
  }

  /** Workspace corner of iteration m = task * B + b, in units of H rows and bs columns. */
  function RowBlock(l: Launch, m: int): int
    requires LegalLaunch(l)
  {
    if l.cols > 0 then m % l.B * l.M + (m / l.B * l.kernels + l.id) / l.cols else 0
  }
  function ColBlock(l: Launch, m: int): int
    requires LegalLaunch(l)
  {
    if l.cols > 0 then (m / l.B * l.kernels + l.id) % l.cols else 0
  }

  lemma MulCancel(a: int, b: int, d: int)
    requires d > 0 && a * d == b * d
    ensures a == b
  {
    MulFar(a - b, d);
    assert (a - b) * d == 0;
  }

  /** Different iterations have different corners. */
  lemma CornersDiffer(l: Launch, m: int, k: int)
    requires LegalLaunch(l) && 0 <= m < k < Tasks(l) * l.B
    ensures RowBlock(l, m) != RowBlock(l, k) || ColBlock(l, m) != ColBlock(l, k)
  {
    var c, d := m / l.B * l.kernels + l.id, k / l.B * l.kernels + l.id;
    DivBelow(m, l.B, Tasks(l));
    DivBelow(k, l.B, Tasks(l));
    GuardIsPrefix(l, m / l.B);
    GuardIsPrefix(l, k / l.B);
    assert l.cols > 0 by { MulMono(0, m / l.B, l.kernels); }
    if RowBlock(l, m) == RowBlock(l, k) && ColBlock(l, m) == ColBlock(l, k) {
      var rm, rk := m % l.B * l.M + c / l.cols, k % l.B * l.M + d / l.cols;
      MulMono(0, m / l.B, l.kernels);
      MulMono(0, k / l.B, l.kernels);
      DivBelow(c, l.cols, l.M);
      DivBelow(d, l.cols, l.M);
      DivModUnique(rm, l.M, m % l.B, c / l.cols);
      DivModUnique(rk, l.M, k % l.B, d / l.cols);
      DivModLaw(c, l.cols);
      DivModLaw(d, l.cols);
      MulCancel(m / l.B, k / l.B, l.kernels);
      DivModLaw(m, l.B);
      DivModLaw(k, l.B);
    }
  }
  function JobOf(l: Launch, val: (int, int, int) -> real): Job
    requires LegalLaunch(l)
  {
    GuardIsPrefix(l, 0);
    MulMono(0, Tasks(l), l.B);
    Job(Tasks(l) * l.B, l.H, l.bs, (m: int) => RowBlock(l, m) * l.H, (m: int) => ColBlock(l, m) * l.bs, val)
  }
  /** Different iterations store to disjoint H x bs rectangles of the workspace. */
  lemma RegionsDisjoint(l: Launch, val: (int, int, int) -> real, m: int, k: int)
    requires LegalLaunch(l) && 0 <= m < k < Tasks(l) * l.B
    ensures Disjoint(JobOf(l, val), m, k)
  {
    var g := JobOf(l, val);
    CornersDiffer(l, m, k);
    forall a, b ensures !(InRect(g, m, a, b) && InRect(g, k, a, b)) {
      if InRect(g, m, a, b) && InRect(g, k, a, b) {
        StripesApart(RowBlock(l, m), RowBlock(l, k), l.H, a);
        StripesApart(ColBlock(l, m), ColBlock(l, k), l.bs, b);
      }
    }
  }

  /** A whole run of the real launch: every sub-core has read, in every cell of every iteration, what the Cube computed
      for it, which lies in the workspace at row (bi * M + mi) * H and column offset_n, and both flags are 0. */
  lemma LaunchDelivers(l: Launch, val: (int, int, int) -> real, s: State, cs: seq<Core>, v: int, m: int, x: int, y: int)
    requires LegalLaunch(l) && Initial(s) && Schedule(JobOf(l, val), s, cs)
    requires Finished(JobOf(l, val), After(JobOf(l, val), s, cs)) && (v == 0 || v == 1)
    requires 0 <= m < Tasks(l) * l.B && 0 <= x < l.H && 0 <= y < l.bs
    ensures var z := After(JobOf(l, val), s, cs);
      z.got(v, m, x, y) == val(m, x, y) && z.data(v) == 0 && z.credit(v) == 0
    ensures |cs| <= 9 * (Tasks(l) * l.B)
    ensures CellHolds(l, val, After(JobOf(l, val), s, cs).ws, m, x, y)
  {
    LaunchLegal(l, val);
    RunDelivers(JobOf(l, val), s, cs, v, m);
    CellFilled(l, val, After(JobOf(l, val), s, cs).ws, m, x, y);
  }
  /** Iteration m of batch bi and logical kernel cid has its cell (x, y) in the workspace at row (bi * M + mi) * H + x
      and column offset_n + y. */
  predicate CellHolds(l: Launch, val: (int, int, int) -> real, ws: (int, int) -> real, m: int, x: int, y: int)
    requires LegalLaunch(l)
  {
    var bi, cid := m % l.B, m / l.B * l.kernels + l.id;
    && 0 < l.cols && cid < l.M * l.cols
    && ws((bi * l.M + cid / l.cols) * l.H + x, cid % l.cols * l.bs + y) == val(m, x, y)
  }
  lemma CellFilled(l: Launch, val: (int, int, int) -> real, ws: (int, int) -> real, m: int, x: int, y: int)
    requires LegalLaunch(l) && 0 <= m < Tasks(l) * l.B && 0 <= x < l.H && 0 <= y < l.bs && HeldAt(JobOf(l, val), ws, m)
    ensures CellHolds(l, val, ws, m, x, y)
  {
    CellOf(l, val, m, x, y);
  }
  lemma LaunchLegal(l: Launch, val: (int, int, int) -> real)
    requires LegalLaunch(l)
    ensures Legal(JobOf(l, val))
  {
    var g := JobOf(l, val);
    forall a, b | 0 <= a < b < g.n ensures Disjoint(g, a, b) { RegionsDisjoint(l, val, a, b); }
  }
  lemma RunDelivers(g: Job, s: State, cs: seq<Core>, v: int, m: int)
    requires Legal(g) && Initial(s) && Schedule(g, s, cs) && Finished(g, After(g, s, cs)) && (v == 0 || v == 1)
    requires 0 <= m < g.n
    ensures var z := After(g, s, cs);
      SeenAt(g, z.got, v, m) && HeldAt(g, z.ws, m) && z.data(v) == 0 && z.credit(v) == 0
    ensures |cs| <= 9 * g.n
  {
    StartInv(g, s);
    RunInv(g, s, cs);
    RunsEnd(g, s, cs);
  }
  /** Cell (x, y) of iteration m, in the launch's own numbers. */
  lemma CellOf(l: Launch, val: (int, int, int) -> real, m: int, x: int, y: int)
    requires LegalLaunch(l) && 0 <= m < Tasks(l) * l.B && 0 <= x < l.H && 0 <= y < l.bs
    ensures var g, cid := JobOf(l, val), m / l.B * l.kernels + l.id;
      && 0 < l.cols && cid < l.M * l.cols
      && (m % l.B * l.M + cid / l.cols) * l.H + x == g.row(m) + x && cid % l.cols * l.bs + y == g.col(m) + y
      && InRect(g, m, g.row(m) + x, g.col(m) + y)
  {
    DivBelow(m, l.B, Tasks(l));
    DivBelow(m, l.B, 0);
    GuardIsPrefix(l, m / l.B);
    MulMono(0, m / l.B, l.kernels);
    assert l.cols > 0;
  }
}
