/** All AI cores of a sparse attention launch on one shared output, interleaving freely. */
module SparseGrid {
  import opened Sums
  import opened SparseProblem
  import J = SparseJob
  import A = SparseAttention
  import P = SparseProtocol
  import R = SparseRuns

  /** `num` AI cores, each with its own work list. */
  datatype Grid = Grid(num: nat, job: int -> J.Job)
  /** Each core has its own state, in which `out` and `writes` record what this core alone has written; `out` is the
      output they all write to. */
  datatype Machine = Machine(kernel: int -> A.State, out: A.Out)
  datatype Act = Act(k: int, core: P.Core)

  function Next(g: Grid, m: Machine, a: Act): Machine {
    Machine((j: int) => if j == a.k then A.Next(g.job(a.k), m.kernel(a.k), a.core) else m.kernel(j),
            A.NextOut(g.job(a.k), m.kernel(a.k), a.core, m.out))
  }
  predicate CanAct(g: Grid, m: Machine, a: Act) {
    0 <= a.k < g.num && P.IsCore(a.core) && P.Enabled(g.job(a.k).n, m.kernel(a.k).sync, a.core)
  }
  ghost predicate Schedule(g: Grid, m: Machine, acts: seq<Act>)
    decreases |acts|
  {
    acts == [] || (CanAct(g, m, acts[0]) && Schedule(g, Next(g, m, acts[0]), acts[1..]))
  }
  function After(g: Grid, m: Machine, acts: seq<Act>): Machine
    decreases |acts|
  {
    if acts == [] then m else After(g, Next(g, m, acts[0]), acts[1..])
  }

  // ----- one core's part of a run

  function Part(acts: seq<Act>, k: int): seq<P.Core> {
    if acts == [] then [] else (if acts[0].k == k then [acts[0].core] else []) + Part(acts[1..], k)
  }
  /** What one core does in a run of the grid is a run of that core on its own. */
  lemma {:induction false} PartIsRun(g: Grid, m: Machine, acts: seq<Act>, k: int)
    requires Schedule(g, m, acts) && 0 <= k < g.num
    ensures R.Schedule(g.job(k), m.kernel(k), Part(acts, k))
    ensures R.After(g.job(k), m.kernel(k), Part(acts, k)) == After(g, m, acts).kernel(k)
    decreases |acts|
  {
    if acts != [] {
      var z, rest := Next(g, m, acts[0]), Part(acts[1..], k);
      PartIsRun(g, z, acts[1..], k);
      if acts[0].k == k {
        PartNext(g.job(k), m.kernel(k), acts[0].core, rest);
      } else {
        assert Part(acts, k) == rest && z.kernel(k) == m.kernel(k);
      }
    }
  }
  lemma PartNext(g: J.Job, s: A.State, c: P.Core, rest: seq<P.Core>)
    requires P.IsCore(c) && P.Enabled(g.n, s.sync, c) && R.Schedule(g, A.Next(g, s, c), rest)
    ensures R.Schedule(g, s, [c] + rest) && R.After(g, s, [c] + rest) == R.After(g, A.Next(g, s, c), rest)
  {
    assert ([c] + rest)[1..] == rest;
  }

  // ----- the shared output

  /** Different cores work on different queries. */
  ghost predicate Owned(g: Grid, owner: (int, int) -> int) {
    forall k, t :: 0 <= k < g.num ==> owner(g.job(k).bt(t), g.job(k).sq(t)) == k
  }
  /** A row of the shared output holds what its owner has written there, or else what it held at launch. */
  predicate Mirrors(m: Machine, k: int, b: int, q: int, h: int, d: int, base: real) {
    && m.kernel(k).writes(b, q, h) >= 0
    && m.out(b, q, h, d) == if m.kernel(k).writes(b, q, h) > 0 then m.kernel(k).out(b, q, h, d) else base
  }
  lemma StepMirrors(g: Grid, m: Machine, a: Act, owner: (int, int) -> int, b: int, q: int, h: int, d: int, base: real)
    requires Owned(g, owner) && CanAct(g, m, a) && Mirrors(m, owner(b, q), b, q, h, d, base)
    ensures Mirrors(Next(g, m, a), owner(b, q), b, q, h, d, base)
  {
    A.WritesRow(g.job(a.k), m.kernel(a.k), a.core, b, q, h, d, m.out);
  }
  lemma {:induction false} RunMirrors(g: Grid, m: Machine, acts: seq<Act>, owner: (int, int) -> int,
                                      b: int, q: int, h: int, d: int, base: real)
    requires Owned(g, owner) && Schedule(g, m, acts) && Mirrors(m, owner(b, q), b, q, h, d, base)
    ensures Mirrors(After(g, m, acts), owner(b, q), b, q, h, d, base)
    decreases |acts|
  {
    if acts != [] {
      StepMirrors(g, m, acts[0], owner, b, q, h, d, base);
      RunMirrors(g, Next(g, m, acts[0]), acts[1..], owner, b, q, h, d, base);
    }
  }

  // ----- the launch

  /** The launch as core k sees it; `junk(k)` is what its index buffer holds past the end of top_k. */
  function On(p: Problem, junk: int -> ((int, int) -> int), k: int): Problem { p.(kernelId := k, junk := junk(k)) }
  function JobAt(p: Problem, junk: int -> ((int, int) -> int), k: int): J.Job
    requires Legal(p)
  {
    if 0 <= k < p.kernels then JobOf(On(p, junk, k)) else JobOf(p)
  }
  function GridOf(p: Problem, junk: int -> ((int, int) -> int)): Grid
    requires Legal(p)
  {
    Grid(p.kernels, (k: int) => JobAt(p, junk, k))
  }
  function OwnerOf(p: Problem): (int, int) -> int
    requires p.kernels > 0
  {
    (b: int, q: int) => Owner(p, b, q)
  }
  ghost predicate Starts(g: Grid, m: Machine) { forall k :: 0 <= k < g.num ==> A.Initial(m.kernel(k)) }
  ghost predicate AllFinished(g: Grid, m: Machine) {
    forall k :: 0 <= k < g.num ==> P.Finished(g.job(k).n, m.kernel(k).sync)
  }
  lemma GridOwned(p: Problem, junk: int -> ((int, int) -> int))
    requires Legal(p)
    ensures Owned(GridOf(p, junk), OwnerOf(p))
  {
    forall k, t | 0 <= k < p.kernels
      ensures OwnerOf(p)(JobAt(p, junk, k).bt(t), JobAt(p, junk, k).sq(t)) == k
    {
      QueryOwner(On(p, junk, k), t, JobAt(p, junk, k).bt(t), JobAt(p, junk, k).sq(t));
    }
  }
  /** The attention formula is the same for all cores. */
  lemma ScoreSame(p: Problem, r: Problem, b: int, s: int, h: int, i: int)
    requires r == p.(kernelId := r.kernelId, junk := r.junk)
    ensures Score(r, b, s, h, i) == Score(p, b, s, h, i)
  {
    var f, g := QueryKey(r, b, s, h, i), QueryKey(p, b, s, h, i);
    forall d ensures f(d) == g(d) { assert Key(r, b, s, i, d) == Key(p, b, s, i, d); }
    SumCongruent(f, g, 0, p.dim);
  }
  lemma WeightSame(p: Problem, r: Problem, b: int, s: int, h: int, i: int)
    requires r == p.(kernelId := r.kernelId, junk := r.junk)
    ensures Weight(r, b, s, h, i) == Weight(p, b, s, h, i)
  {
    ScoreSame(p, r, b, s, h, i);
  }
  lemma AttentionSame(p: Problem, r: Problem, b: int, s: int, h: int, d: int)
    requires r == p.(kernelId := r.kernelId, junk := r.junk) && IsExp(p.E)
    ensures Attention(r, b, s, h, d) == Attention(p, b, s, h, d)
  {
    forall i ensures Weights(r, b, s, h)(i) == Weights(p, b, s, h)(i) { WeightSame(p, r, b, s, h, i); }
    forall i
      ensures Values(r, b, s, h, d)(i) == Values(p, b, s, h, d)(i)
    {
      WeightSame(p, r, b, s, h, i);
      assert Key(r, b, s, i, d) == Key(p, b, s, i, d);
    }
    SumCongruent(Weights(r, b, s, h), Weights(p, b, s, h), 0, p.topK);
    SumCongruent(Values(r, b, s, h, d), Values(p, b, s, h, d), 0, p.topK);
  }

  /** Core k, whose work list is that of r, at the end of a run of the grid. */
  lemma PartComputes(g: Grid, m: Machine, acts: seq<Act>, k: int, r: Problem, b: int, q: int, h: int, d: int)
    requires Legal(r) && r.kernelId == k && 0 <= k < g.num && g.job(k) == JobOf(r) && A.Initial(m.kernel(k))
    requires Schedule(g, m, acts) && P.Finished(g.job(k).n, After(g, m, acts).kernel(k).sync)
    ensures var s := After(g, m, acts).kernel(k);
      && s.writes(b, q, h) == (if Mine(r, b, q, h) then 1 else 0)
      && (Mine(r, b, q, h) ==> s.out(b, q, h, d) == Attention(r, b, q, h, d))
  {
    PartIsRun(g, m, acts, k);
    LaunchComputesAttention(r, m.kernel(k), Part(acts, k), b, q, h, d);
  }
  lemma GridAt(p: Problem, junk: int -> ((int, int) -> int), k: int)
    requires Legal(p) && 0 <= k < p.kernels
    ensures var g, r := GridOf(p, junk), On(p, junk, k); Legal(r) && g.job(k) == JobOf(r) && g.num == p.kernels
  {
  }
  /** The rows of the output that are to be written, and by whom. */
  predicate Expected(p: Problem, b: int, q: int, h: int) {
    0 <= b < p.batch && 0 <= q < p.seqLen && 0 <= h < p.heads - p.heads % 2
  }
  predicate Writer(p: Problem, k: int, b: int, q: int)
    requires p.kernels > 0
  {
    k == (b * p.seqLen + q) % p.kernels
  }
  lemma MineAt(p: Problem, junk: int -> ((int, int) -> int), k: int, b: int, q: int, h: int)
    requires Legal(p) && 0 <= k < p.kernels
    ensures Mine(On(p, junk, k), b, q, h) <==> Expected(p, b, q, h) && Writer(p, k, b, q)
  {
  }
  lemma KernelEnds(p: Problem, junk: int -> ((int, int) -> int), m: Machine, acts: seq<Act>, k: int,
                   b: int, q: int, h: int, d: int)
    requires Legal(p) && Starts(GridOf(p, junk), m) && Schedule(GridOf(p, junk), m, acts)
    requires AllFinished(GridOf(p, junk), After(GridOf(p, junk), m, acts)) && 0 <= k < p.kernels
    ensures var s := After(GridOf(p, junk), m, acts).kernel(k);
      && s.writes(b, q, h) == (if Expected(p, b, q, h) && Writer(p, k, b, q) then 1 else 0)
      && (Expected(p, b, q, h) && Writer(p, k, b, q) ==> s.out(b, q, h, d) == Attention(p, b, q, h, d))
  {
    var g, r := GridOf(p, junk), On(p, junk, k);
    GridAt(p, junk, k);
    assert A.Initial(m.kernel(k)) && P.Finished(g.job(k).n, After(g, m, acts).kernel(k).sync);
    PartComputes(g, m, acts, k, r, b, q, h, d);
    MineAt(p, junk, k, b, q, h);
    AttentionSame(p, r, b, q, h, d);
  }
  /** Every finished run of the whole launch, in every interleaving of all cores of all AI cores and from any memory:
      the shared output holds the attention formula in every row of every head that a sub-core has, each row written
      once, by one core, and is unchanged everywhere else, the last of an odd number of heads included. */
  lemma GridComputesAttention(p: Problem, junk: int -> ((int, int) -> int), m: Machine, acts: seq<Act>,
                              b: int, q: int, h: int, d: int)
    requires Legal(p) && Starts(GridOf(p, junk), m) && Schedule(GridOf(p, junk), m, acts)
    requires AllFinished(GridOf(p, junk), After(GridOf(p, junk), m, acts))
    ensures After(GridOf(p, junk), m, acts).out(b, q, h, d) ==
      if 0 <= b < p.batch && 0 <= q < p.seqLen && 0 <= h < p.heads - p.heads % 2 then Attention(p, b, q, h, d)
      else m.out(b, q, h, d)
    ensures forall k :: 0 <= k < p.kernels ==>
      After(GridOf(p, junk), m, acts).kernel(k).writes(b, q, h) ==
        if Expected(p, b, q, h) && Writer(p, k, b, q) then 1 else 0
  {
    var g, owner := GridOf(p, junk), OwnerOf(p);
    var k := owner(b, q);
    GridOwned(p, junk);
    assert 0 <= k < p.kernels && Writer(p, k, b, q) && A.Initial(m.kernel(k));
    RunMirrors(g, m, acts, owner, b, q, h, d, m.out(b, q, h, d));
    WrittenOnce(p, junk, m, acts, b, q, h, d);
    KernelEnds(p, junk, m, acts, k, b, q, h, d);
  }
  lemma WrittenOnce(p: Problem, junk: int -> ((int, int) -> int), m: Machine, acts: seq<Act>, b: int, q: int, h: int,
                    d: int)
    requires Legal(p) && Starts(GridOf(p, junk), m) && Schedule(GridOf(p, junk), m, acts)
    requires AllFinished(GridOf(p, junk), After(GridOf(p, junk), m, acts))
    ensures forall k :: 0 <= k < p.kernels ==>
      After(GridOf(p, junk), m, acts).kernel(k).writes(b, q, h) ==
        if Expected(p, b, q, h) && Writer(p, k, b, q) then 1 else 0
  {
    forall k | 0 <= k < p.kernels
      ensures After(GridOf(p, junk), m, acts).kernel(k).writes(b, q, h) ==
        if Expected(p, b, q, h) && Writer(p, k, b, q) then 1 else 0
    {
      KernelEnds(p, junk, m, acts, k, b, q, h, d);
    }
  }

  predicate Stands(n: nat, y: P.Sync, c: P.Core) { P.IsCore(c) && P.Enabled(n, y, c) }
  /** A core on its own. */
  lemma OwnRun(j: J.Job, s: A.State, cs: seq<P.Core>)
    requires J.Legal(j) && A.Initial(s) && R.Schedule(j, s, cs)
    ensures |cs| <= 28 * j.n + 48
    ensures var y := R.After(j, s, cs).sync; P.Finished(j.n, y) || exists c :: Stands(j.n, y, c)
  {
    R.StartKeeps(j, s);
    R.RunsEnd(j, s, cs);
    R.RunInv(j, s, cs);
    var y := R.After(j, s, cs).sync;
    if !P.Finished(j.n, y) {
      assert Stands(j.n, y, P.Cube) || Stands(j.n, y, P.Vector(0)) || Stands(j.n, y, P.Vector(1));
    }
  }
  lemma PartGoesOn(g: Grid, m: Machine, acts: seq<Act>, k: int)
    requires J.Legal(g.job(k)) && 0 <= k < g.num && A.Initial(m.kernel(k)) && Schedule(g, m, acts)
    ensures var z := After(g, m, acts);
      P.Finished(g.job(k).n, z.kernel(k).sync) || exists c :: CanAct(g, z, Act(k, c))
    ensures |Part(acts, k)| <= 28 * g.job(k).n + 48
  {
    PartIsRun(g, m, acts, k);
    OwnRun(g.job(k), m.kernel(k), Part(acts, k));
    var z := After(g, m, acts);
    if !P.Finished(g.job(k).n, z.kernel(k).sync) {
      var c :| Stands(g.job(k).n, z.kernel(k).sync, c);
      assert CanAct(g, z, Act(k, c));
    }
  }
  /** In every reachable state an AI core that has not finished can act, and no AI core acts for ever. */
  lemma GridGoesOn(p: Problem, junk: int -> ((int, int) -> int), m: Machine, acts: seq<Act>, k: int)
    requires Legal(p) && Starts(GridOf(p, junk), m) && Schedule(GridOf(p, junk), m, acts) && 0 <= k < p.kernels
    ensures var g := GridOf(p, junk);
      P.Finished(g.job(k).n, After(g, m, acts).kernel(k).sync) || exists c :: CanAct(g, After(g, m, acts), Act(k, c))
    ensures |Part(acts, k)| <= 28 * GridOf(p, junk).job(k).n + 48
  {
    JobLegal(On(p, junk, k));
    PartGoesOn(GridOf(p, junk), m, acts, k);
  }
}
