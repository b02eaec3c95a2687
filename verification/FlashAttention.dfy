/** Flash attention with deferred rescaling: running maximum and sum in a first loop, output accumulated in a second. */
module FlashAttention {
  import opened Sums

  type Vec = int -> real

  // ----- one row, as the vector core works on it

  /** The width of a key block, multiplication by the softmax scale, and exp. */
  datatype Lane = Lane(block: int, times: real -> real, E: real -> real)

  /** The row's buffers after some blocks: the score buffer, running sum and maximum, the last rescaling factor, the
      saved
      factors, and block by block the probabilities sent to the workspace and the maximum they are relative to. */
  datatype First = First(f16: Vec, logsum: real, smax: real, lastScale: real, scales: seq<real>, probs: seq<Vec>,
                         maxs: seq<real>)

  /** The score buffer after loading `tail` columns: the columns past them keep what was there. */
  function Loaded(tail: int, col: Vec, was: Vec): Vec { (j: int) => if 0 <= j < tail then col(j) else was(j) }
  function Scaled(times: real -> real, x: Vec): Vec { (j: int) => times(x(j)) }
  function ExpFrom(E: real -> real, x: Vec, m: real): Vec { (j: int) => E(x(j) - m) }
  function ExpOf(E: real -> real, x: Vec): Vec { (j: int) => E(x(j)) }
  function MaxOf(x: Vec, n: int): real {
    if n <= 1 then x(0) else var m := MaxOf(x, n - 1); if x(n - 1) > m then x(n - 1) else m
  }
  function Max(a: real, b: real): real { if a > b then a else b }
  function Rescaled(l: real, e: real, s: real): real { l * e + s }

  /** The scaled scores of a block, as the buffer has them. */
  function Cols(l: Lane, tail: int, col: Vec, was: Vec): Vec { Scaled(l.times, Loaded(tail, col, was)) }
  function NewMax(l: Lane, i: int, x: Vec, prev: real): real {
    if i != 0 then Max(prev, MaxOf(x, l.block)) else MaxOf(x, l.block)
  }
  function NewScale(l: Lane, i: int, prev: real, m: real, was: real): real { if i != 0 then l.E(prev - m) else was }

  function Started(buffer: Vec): First { First(buffer, 0.0, 0.0, 0.0, [], [], []) }
  /** Iteration i of the first loop. */
  function Stepped(l: Lane, i: int, tail: int, col: Vec, a: First): First {
    var x := Cols(l, tail, col, a.f16);
    var m := NewMax(l, i, x, a.smax);
    var s := NewScale(l, i, a.smax, m, a.lastScale);
    var p := ExpFrom(l.E, x, m);
    First(p, Rescaled(a.logsum, s, Sum(p, 0, l.block)), m, s, a.scales + [s], a.probs + [p], a.maxs + [m])
  }
  /** The first loop over the given blocks; block i has tail(i) columns. */
  function FirstRun(l: Lane, tail: int -> int, cols: seq<Vec>, buffer: Vec): (a: First)
    ensures |a.scales| == |a.probs| == |a.maxs| == |cols|
  {
    if cols == [] then Started(buffer)
    else
      var n := |cols| - 1;
      Stepped(l, n, tail(n), cols[n], FirstRun(l, tail, cols[..n], buffer))
  }
  function Zeros(): Vec { (k: int) => 0.0 }
  function AddScaled(acc: Vec, s: real, x: Vec): Vec { (d: int) => Rescaled(acc(d), s, x(d)) }
  /** The second loop over the given products: block 0 uses whatever factor the first loop left. */
  function SecondRun(a: First, prods: seq<Vec>): Vec
    requires |prods| <= |a.scales|
  {
    if prods == [] then Zeros()
    else
      var n := |prods| - 1;
      AddScaled(SecondRun(a, prods[..n]), if n != 0 then a.scales[n] else a.lastScale, prods[n])
  }
  function Div(a: real, b: real): real { if b == 0.0 then 0.0 else a / b }
  function Divided(acc: Vec, l: real): Vec { (d: int) => Div(acc(d), l) }
  /** The row that is written. */
  function RowOut(l: Lane, tail: int -> int, cols: seq<Vec>, buffer: Vec, prods: seq<Vec>): Vec
    requires |prods| == |cols|
  {
    var a := FirstRun(l, tail, cols, buffer);
    Divided(SecondRun(a, prods), a.logsum)
  }

  /** z is a with one more block on record. */
  ghost predicate Recorded(a: First, z: First) {
    z.probs == a.probs + [z.f16] && z.maxs == a.maxs + [z.smax] && z.scales == a.scales + [z.lastScale]
  }
  lemma RunRecords(l: Lane, tail: int -> int, cols: seq<Vec>, buffer: Vec)
    requires cols != []
    ensures Recorded(FirstRun(l, tail, cols[..|cols| - 1], buffer), FirstRun(l, tail, cols, buffer))
  {
  }
  /** R(k) is the state after k blocks. */
  ghost predicate RecordsAt(R: int -> First, k: int) {
    |R(k).probs| == |R(k).maxs| == |R(k).scales| == k && Recorded(R(k), R(k + 1))
  }
  lemma {:induction false} HistoryKept(R: int -> First, n: nat, i: nat)
    requires i < n && forall k :: 0 <= k < n ==> RecordsAt(R, k)
    ensures |R(n).probs| == |R(n).maxs| == |R(n).scales| == n
    ensures R(n).probs[i] == R(i + 1).f16 && R(n).maxs[i] == R(i + 1).smax && R(n).scales[i] == R(i + 1).lastScale
    decreases n
  {
    assert RecordsAt(R, n - 1);
    if i < n - 1 { HistoryKept(R, n - 1, i); }
  }
  function FirstAt(l: Lane, tail: int -> int, cols: seq<Vec>, buffer: Vec, k: int): First {
    if 0 <= k <= |cols| then FirstRun(l, tail, cols[..k], buffer) else Started(buffer)
  }
  function Firsts(l: Lane, tail: int -> int, cols: seq<Vec>, buffer: Vec): int -> First {
    (k: int) => FirstAt(l, tail, cols, buffer, k)
  }
  lemma RunRecordsAt(l: Lane, tail: int -> int, cols: seq<Vec>, buffer: Vec, k: nat)
    requires k < |cols|
    ensures RecordsAt(Firsts(l, tail, cols, buffer), k)
  {
    assert cols[..k + 1][..k] == cols[..k];
    RunRecords(l, tail, cols[..k + 1], buffer);
  }
  lemma FirstsAt(l: Lane, tail: int -> int, cols: seq<Vec>, buffer: Vec, k: nat)
    requires k <= |cols|
    ensures Firsts(l, tail, cols, buffer)(k) == FirstRun(l, tail, cols[..k], buffer)
    ensures Firsts(l, tail, cols, buffer)(|cols|) == FirstRun(l, tail, cols, buffer)
  {
    assert cols[..|cols|] == cols;
  }
  /** Earlier blocks are not changed by later ones. */
  lemma RunPrefix(l: Lane, tail: int -> int, cols: seq<Vec>, buffer: Vec, i: nat)
    requires i < |cols|
    ensures var a, b := FirstRun(l, tail, cols, buffer), FirstRun(l, tail, cols[..i + 1], buffer);
            a.probs[i] == b.f16 && a.maxs[i] == b.smax && a.scales[i] == b.lastScale
  {
    var R := Firsts(l, tail, cols, buffer);
    forall k | 0 <= k < |cols| ensures RecordsAt(R, k) { RunRecordsAt(l, tail, cols, buffer, k); }
    HistoryKept(R, |cols|, i);
    FirstsAt(l, tail, cols, buffer, i + 1);
  }

  // ----- the definition

  /** One query row: its score against every key, cut into blocks; block i starts at key off(i) and has tail(i) live
      columns out of lane.block. */
  datatype RowJob = RowJob(keys: int, blocks: int, off: int -> int, tail: int -> int, lane: Lane, score: Vec,
                           value: (int, int) -> real)

  /** Block i ends where block i + 1 starts; only the last may be short. */
  ghost predicate BlockAt(c: RowJob, i: int) {
    && 0 < c.tail(i) <= c.lane.block && c.off(i + 1) == c.off(i) + c.tail(i)
    && (i + 1 < c.blocks ==> c.tail(i) == c.lane.block)
  }
  ghost predicate Legal(c: RowJob) {
    && IsExp(c.lane.E) && c.keys >= 1 && c.blocks >= 1 && c.off(0) == 0 && c.off(c.blocks) == c.keys
    && forall i :: 0 <= i < c.blocks ==> BlockAt(c, i)
  }
  predicate Whole(c: RowJob) { c.tail(c.blocks - 1) == c.lane.block }

  lemma {:induction false} OffMono(c: RowJob, i: int, j: int)
    requires Legal(c) && 0 <= i <= j <= c.blocks
    ensures c.off(i) <= c.off(j)
    decreases j - i
  {
    if i < j {
      assert BlockAt(c, i);
      OffMono(c, i + 1, j);
    }
  }

  function Exp(c: RowJob, k: int): real { c.lane.E(c.lane.times(c.score(k))) }
  function Exps(c: RowJob): Vec { (k: int) => Exp(c, k) }
  function ValueTerms(c: RowJob, d: int): Vec { (k: int) => Exp(c, k) * c.value(k, d) }
  function Den(c: RowJob): real { Sum(Exps(c), 0, c.keys) }
  function Num(c: RowJob, d: int): real { Sum(ValueTerms(c, d), 0, c.keys) }

  lemma {:induction false} SumPositive(f: Vec, lo: int, hi: int)
    requires lo < hi && forall j :: f(j) > 0.0
    ensures Sum(f, lo, hi) > 0.0
    decreases hi - lo
  {
    if lo + 1 < hi { SumPositive(f, lo, hi - 1); } else { assert Sum(f, lo, lo) == 0.0; }
  }
  lemma DenPositive(c: RowJob)
    requires Legal(c)
    ensures Den(c) > 0.0
  {
    forall j ensures Exps(c)(j) > 0.0 { ExpPositive(c.lane.E, c.lane.times(c.score(j))); }
    SumPositive(Exps(c), 0, c.keys);
  }
  /** softmax(scores * scale) applied to the values. */
  function Attention(c: RowJob, d: int): real
    requires Legal(c)
  {
    DenPositive(c);
    Num(c, d) / Den(c)
  }
  /** What is loaded for block i are the row's scores. */
  ghost predicate Loads(c: RowJob, i: int, col: Vec) {
    forall j :: 0 <= j < c.tail(i) ==> col(j) == c.score(c.off(i) + j)
  }

  // ----- sums relative to a reference point

  /** a, relative to a reference point with exponential e, stands for total. */
  predicate StandsFor(a: real, e: real, total: real) { a * e == total }

  lemma ExpSum(E: real -> real, x: Vec, m: real, lo: int, hi: int)
    requires IsExp(E)
    ensures StandsFor(Sum(ExpFrom(E, x, m), lo, hi), E(m), Sum(ExpOf(E, x), lo, hi))
  {
    forall j | lo <= j < hi ensures Scales(ExpFrom(E, x, m), ExpOf(E, x), E(m), j) { ExpShift(E, x(j), m); }
    SumScale(ExpFrom(E, x, m), ExpOf(E, x), E(m), lo, hi);
  }
  /** Moving the reference point from prev to m: the old sum times E(prev - m). */
  lemma Rescale(E: real -> real, prev: real, m: real, l: real, total: real, s: real, more: real)
    requires IsExp(E) && StandsFor(l, E(prev), total) && StandsFor(s, E(m), more)
    ensures StandsFor(Rescaled(l, E(prev - m), s), E(m), total + more)
  {
    ExpShift(E, prev, m);
    Regroup(l, E(prev - m), E(m), s);
  }
  lemma Regroup(l: real, e: real, f: real, s: real)
    ensures (l * e + s) * f == l * (e * f) + s * f
  {
  }
  lemma FromZero(e: real, s: real)
    ensures Rescaled(0.0, e, s) == s
  {
  }

  // ----- the first loop

  /** What the columns past the tail of the last block add. */
  function StaleTerms(l: Lane, was: Vec): Vec { (j: int) => l.E(l.times(was(j))) }
  function StaleMass(c: RowJob, was: Vec): real { Sum(StaleTerms(c.lane, was), c.tail(c.blocks - 1), c.lane.block) }
  /** Total weight after i blocks. */
  function Weight(c: RowJob, i: int, stale: real): real {
    Sum(Exps(c), 0, c.off(i)) + (if i == c.blocks then stale else 0.0)
  }
  lemma ColAt(l: Lane, tail: int, col: Vec, was: Vec, j: int)
    requires 0 <= j
    ensures Cols(l, tail, col, was)(j) == if j < tail then l.times(col(j)) else l.times(was(j))
  {
    var x := Loaded(tail, col, was);
    assert x(j) == if j < tail then col(j) else was(j);
    assert Cols(l, tail, col, was)(j) == l.times(x(j));
  }
  lemma LiveColumn(c: RowJob, i: int, col: Vec, was: Vec, j: int)
    requires 0 <= j < c.tail(i) && Loads(c, i, col)
    ensures ShiftAt(Exps(c), ExpOf(c.lane.E, Cols(c.lane, c.tail(i), col, was)), c.off(i), j)
  {
    ColAt(c.lane, c.tail(i), col, was, j);
    assert col(j) == c.score(c.off(i) + j);
    assert Exps(c)(j + c.off(i)) == Exp(c, c.off(i) + j);
  }
  lemma LiveColumns(c: RowJob, i: int, col: Vec, was: Vec)
    requires Loads(c, i, col)
    ensures Sum(ExpOf(c.lane.E, Cols(c.lane, c.tail(i), col, was)), 0, c.tail(i)) ==
      Sum(Exps(c), c.off(i), c.off(i) + c.tail(i))
  {
    var f := ExpOf(c.lane.E, Cols(c.lane, c.tail(i), col, was));
    forall j | 0 <= j < c.tail(i) ensures ShiftAt(Exps(c), f, c.off(i), j) { LiveColumn(c, i, col, was, j); }
    SumShiftAt(Exps(c), f, c.off(i), c.tail(i));
  }
  lemma StaleColumns(l: Lane, tail: int, col: Vec, was: Vec)
    requires tail >= 0
    ensures Sum(ExpOf(l.E, Cols(l, tail, col, was)), tail, l.block) == Sum(StaleTerms(l, was), tail, l.block)
  {
    var f := ExpOf(l.E, Cols(l, tail, col, was));
    forall j | tail <= j < l.block ensures f(j) == StaleTerms(l, was)(j) { ColAt(l, tail, col, was, j); }
    SumCongruent(f, StaleTerms(l, was), tail, l.block);
  }
  lemma BlockWeight(c: RowJob, i: int, col: Vec, was: Vec, stale: real)
    requires Legal(c) && 0 <= i < c.blocks && Loads(c, i, col) && (i + 1 == c.blocks ==> stale == StaleMass(c, was))
    ensures Weight(c, i + 1, stale)
            == Weight(c, i, stale) + Sum(ExpOf(c.lane.E, Cols(c.lane, c.tail(i), col, was)), 0, c.lane.block)
  {
    assert BlockAt(c, i);
    OffMono(c, 0, i);
    LiveColumns(c, i, col, was);
    StaleColumns(c.lane, c.tail(i), col, was);
    SumSplit(ExpOf(c.lane.E, Cols(c.lane, c.tail(i), col, was)), 0, c.tail(i), c.lane.block);
    SumSplit(Exps(c), 0, c.off(i), c.off(i + 1));
  }
  lemma StalePositive(c: RowJob, was: Vec)
    requires Legal(c)
    ensures if Whole(c) then StaleMass(c, was) == 0.0 else StaleMass(c, was) > 0.0
  {
    assert BlockAt(c, c.blocks - 1);
    if !Whole(c) {
      forall j ensures StaleTerms(c.lane, was)(j) > 0.0 { ExpPositive(c.lane.E, c.lane.times(was(j))); }
      SumPositive(StaleTerms(c.lane, was), c.tail(c.blocks - 1), c.lane.block);
    }
  }

  /** The probabilities of block i are relative to the maximum m known when they were sent. */
  ghost predicate ProbsAt(c: RowJob, p: Vec, i: int, m: real) {
    forall j :: 0 <= j < c.tail(i) ==> p(j) == c.lane.E(c.lane.times(c.score(c.off(i) + j)) - m)
  }
  lemma SentIs(c: RowJob, i: int, col: Vec, was: Vec, m: real)
    requires Loads(c, i, col)
    ensures ProbsAt(c, ExpFrom(c.lane.E, Cols(c.lane, c.tail(i), col, was), m), i, m)
  {
    var x := Cols(c.lane, c.tail(i), col, was);
    forall j | 0 <= j < c.tail(i)
      ensures ExpFrom(c.lane.E, x, m)(j) == c.lane.E(c.lane.times(c.score(c.off(i) + j)) - m)
    {
      ColAt(c.lane, c.tail(i), col, was, j);
      assert col(j) == c.score(c.off(i) + j);
    }
  }
  /** The sum after one more block. */
  lemma WeightStep(c: RowJob, i: int, col: Vec, was: Vec, stale: real, m: real, prev: real, logsum: real)
    requires Legal(c) && 0 < i < c.blocks && Loads(c, i, col) && (i + 1 == c.blocks ==> stale == StaleMass(c, was))
    requires StandsFor(logsum, c.lane.E(prev), Weight(c, i, stale))
    ensures var p := ExpFrom(c.lane.E, Cols(c.lane, c.tail(i), col, was), m);
            StandsFor(Rescaled(logsum, c.lane.E(prev - m), Sum(p, 0, c.lane.block)), c.lane.E(m),
                      Weight(c, i + 1, stale))
  {
    var l, x := c.lane, Cols(c.lane, c.tail(i), col, was);
    ExpSum(l.E, x, m, 0, l.block);
    BlockWeight(c, i, col, was, stale);
    Rescale(l.E, prev, m, logsum, Weight(c, i, stale), Sum(ExpFrom(l.E, x, m), 0, l.block),
            Sum(ExpOf(l.E, x), 0, l.block));
  }
  lemma WeightStart(c: RowJob, col: Vec, was: Vec, stale: real, m: real, s: real)
    requires Legal(c) && Loads(c, 0, col) && (1 == c.blocks ==> stale == StaleMass(c, was))
    ensures var p := ExpFrom(c.lane.E, Cols(c.lane, c.tail(0), col, was), m);
            StandsFor(Rescaled(0.0, s, Sum(p, 0, c.lane.block)), c.lane.E(m), Weight(c, 1, stale))
  {
    var x := Cols(c.lane, c.tail(0), col, was);
    ExpSum(c.lane.E, x, m, 0, c.lane.block);
    BlockWeight(c, 0, col, was, stale);
    assert Sum(Exps(c), 0, 0) == 0.0;
    FromZero(s, Sum(ExpFrom(c.lane.E, x, m), 0, c.lane.block));
  }

  ghost predicate ProbsUpto(c: RowJob, a: First) {
    |a.maxs| == |a.probs| && forall u :: 0 <= u < |a.probs| ==> ProbsAt(c, a.probs[u], u, a.maxs[u])
  }
  /** scales[u] takes a sum from the maximum of block u - 1 to that of block u. */
  ghost predicate ScaleAt(l: Lane, a: First, u: int) {
    |a.maxs| == |a.scales| && (1 <= u < |a.maxs| ==> a.scales[u] == l.E(a.maxs[u - 1] - a.maxs[u]))
  }
  ghost predicate ScalesUpto(l: Lane, a: First) { forall u :: 1 <= u < |a.maxs| ==> ScaleAt(l, a, u) }
  /** State of the first loop after i blocks; `stale` is the weight of the columns that a short last block leaves
      from before. */
  ghost predicate Summed(c: RowJob, i: int, a: First, stale: real) {
    && |a.maxs| == |a.probs| == |a.scales| == i && ProbsUpto(c, a) && ScalesUpto(c.lane, a)
    && (i == 0 ==> a.logsum == 0.0)
    && (i > 0 ==> a.smax == a.maxs[i - 1] && StandsFor(a.logsum, c.lane.E(a.smax), Weight(c, i, stale)))
    && (i == c.blocks ==> if Whole(c) then stale == 0.0 else stale > 0.0)
  }
  /** What the last block reads past its tail. */
  ghost function StaleNow(c: RowJob, i: int, was: Vec, stale: real): real {
    if i + 1 == c.blocks then StaleMass(c, was) else stale
  }

  lemma ProbsMore(c: RowJob, i: int, col: Vec, a: First)
    requires ProbsUpto(c, a) && |a.probs| == i && Loads(c, i, col)
    ensures ProbsUpto(c, Stepped(c.lane, i, c.tail(i), col, a))
  {
    var z := Stepped(c.lane, i, c.tail(i), col, a);
    SentIs(c, i, col, a.f16, z.smax);
    forall u | 0 <= u < |z.probs| ensures ProbsAt(c, z.probs[u], u, z.maxs[u]) {
      if u < i { assert z.probs[u] == a.probs[u] && z.maxs[u] == a.maxs[u]; }
    }
  }
  lemma ScalesMore(c: RowJob, i: int, col: Vec, a: First)
    requires ScalesUpto(c.lane, a) && |a.maxs| == |a.scales| == i && (i > 0 ==> a.smax == a.maxs[i - 1])
    ensures ScalesUpto(c.lane, Stepped(c.lane, i, c.tail(i), col, a))
  {
    var z := Stepped(c.lane, i, c.tail(i), col, a);
    forall u | 1 <= u < |z.maxs| ensures ScaleAt(c.lane, z, u) {
      if u < i { assert ScaleAt(c.lane, a, u); }
    }
  }
  lemma SummedStep(c: RowJob, i: int, col: Vec, a: First, stale: real)
    requires Legal(c) && 0 <= i < c.blocks && Summed(c, i, a, stale) && Loads(c, i, col)
    ensures Summed(c, i + 1, Stepped(c.lane, i, c.tail(i), col, a), StaleNow(c, i, a.f16, stale))
  {
    var z, now := Stepped(c.lane, i, c.tail(i), col, a), StaleNow(c, i, a.f16, stale);
    StalePositive(c, a.f16);
    ProbsMore(c, i, col, a);
    ScalesMore(c, i, col, a);
    if i == 0 {
      WeightStart(c, col, a.f16, now, z.smax, z.lastScale);
    } else {
      WeightStep(c, i, col, a.f16, now, z.smax, a.smax, a.logsum);
    }
  }
  /** All blocks of a row, as loaded. */
  ghost predicate LoadsAll(c: RowJob, cols: seq<Vec>) {
    |cols| == c.blocks && forall i :: 0 <= i < |cols| ==> Loads(c, i, cols[i])
  }
  lemma {:induction false} RunSummed(c: RowJob, cols: seq<Vec>, buffer: Vec, k: nat) returns (stale: real)
    requires Legal(c) && LoadsAll(c, cols) && k <= c.blocks
    ensures Summed(c, k, FirstRun(c.lane, c.tail, cols[..k], buffer), stale)
    decreases k
  {
    stale := 0.0;
    if k > 0 {
      var before := RunSummed(c, cols, buffer, k - 1);
      assert cols[..k][..k - 1] == cols[..k - 1];
      var a := FirstRun(c.lane, c.tail, cols[..k - 1], buffer);
      SummedStep(c, k - 1, cols[k - 1], a, before);
      stale := StaleNow(c, k - 1, a.f16, before);
    }
  }

  // ----- probabilities times values

  function ProductTerms(c: RowJob, p: Vec, i: int, d: int): Vec { (j: int) => p(j) * c.value(c.off(i) + j, d) }
  /** What the Cube computes from the live columns of block i. */
  function Product(c: RowJob, p: Vec, i: int): Vec { (d: int) => Sum(ProductTerms(c, p, i, d), 0, c.tail(i)) }
  function Moved(f: Vec, shift: int): Vec { (j: int) => f(j + shift) }

  lemma ProductTerm(c: RowJob, p: Vec, i: int, m: real, d: int, j: int)
    requires IsExp(c.lane.E) && ProbsAt(c, p, i, m) && 0 <= j < c.tail(i)
    ensures Scales(ProductTerms(c, p, i, d), Moved(ValueTerms(c, d), c.off(i)), c.lane.E(m), j)
  {
    var k := c.off(i) + j;
    var x := c.lane.times(c.score(k));
    assert p(j) == c.lane.E(x - m);
    ExpShift(c.lane.E, x, m);
    Swap(c.lane.E(x - m), c.lane.E(m), c.value(k, d));
    assert Moved(ValueTerms(c, d), c.off(i))(j) == ValueTerms(c, d)(k);
  }
  lemma Swap(a: real, e: real, v: real)
    ensures e * (a * v) == a * e * v
  {
  }
  lemma Flip(a: real, e: real, total: real)
    requires total == e * a
    ensures StandsFor(a, e, total)
  {
  }
  lemma TermsScaled(c: RowJob, p: Vec, i: int, m: real, d: int)
    requires IsExp(c.lane.E) && ProbsAt(c, p, i, m)
    ensures forall j :: 0 <= j < c.tail(i) ==>
      Scales(ProductTerms(c, p, i, d), Moved(ValueTerms(c, d), c.off(i)), c.lane.E(m), j)
  {
    forall j | 0 <= j < c.tail(i)
      ensures Scales(ProductTerms(c, p, i, d), Moved(ValueTerms(c, d), c.off(i)), c.lane.E(m), j)
    {
      ProductTerm(c, p, i, m, d, j);
    }
  }
  lemma SumStands(f: Vec, g: Vec, e: real, n: int)
    requires forall j :: 0 <= j < n ==> Scales(f, g, e, j)
    ensures StandsFor(Sum(f, 0, n), e, Sum(g, 0, n))
  {
    SumScale(f, g, e, 0, n);
    Flip(Sum(f, 0, n), e, Sum(g, 0, n));
  }
  lemma ProductScaled(c: RowJob, p: Vec, i: int, m: real, d: int)
    requires IsExp(c.lane.E) && ProbsAt(c, p, i, m)
    ensures StandsFor(Product(c, p, i)(d), c.lane.E(m), Sum(Moved(ValueTerms(c, d), c.off(i)), 0, c.tail(i)))
  {
    TermsScaled(c, p, i, m, d);
    SumStands(ProductTerms(c, p, i, d), Moved(ValueTerms(c, d), c.off(i)), c.lane.E(m), c.tail(i));
  }
  lemma ProductIs(c: RowJob, p: Vec, i: int, m: real, d: int)
    requires Legal(c) && 0 <= i < c.blocks && ProbsAt(c, p, i, m)
    ensures StandsFor(Product(c, p, i)(d), c.lane.E(m), Sum(ValueTerms(c, d), c.off(i), c.off(i + 1)))
  {
    assert BlockAt(c, i);
    ProductScaled(c, p, i, m, d);
    MovedSum(ValueTerms(c, d), c.off(i), c.tail(i));
  }
  lemma MovedSum(f: Vec, shift: int, n: int)
    ensures Sum(Moved(f, shift), 0, n) == Sum(f, shift, shift + n)
  {
    forall j | 0 <= j < n ensures ShiftAt(f, Moved(f, shift), shift, j) {}
    SumShiftAt(f, Moved(f, shift), shift, n);
  }

  // ----- the second loop

  /** acc stands for the value sums of the first i blocks, relative to maximum m. */
  ghost predicate Acc(c: RowJob, acc: Vec, i: int, m: real) {
    forall d :: StandsFor(acc(d), c.lane.E(m), Sum(ValueTerms(c, d), 0, c.off(i)))
  }
  /** Product i is that of the probabilities of block i. */
  ghost predicate Multiplied(c: RowJob, a: First, i: int, prod: Vec) {
    i < |a.probs| && 0 <= i && forall d :: prod(d) == Product(c, a.probs[i], i)(d)
  }

  lemma AccAt(c: RowJob, x: real, prev: real, m: real, prod: real, i: int, d: int)
    requires Legal(c) && 0 < i < c.blocks && StandsFor(x, c.lane.E(prev), Sum(ValueTerms(c, d), 0, c.off(i)))
    requires StandsFor(prod, c.lane.E(m), Sum(ValueTerms(c, d), c.off(i), c.off(i + 1)))
    ensures StandsFor(Rescaled(x, c.lane.E(prev - m), prod), c.lane.E(m), Sum(ValueTerms(c, d), 0, c.off(i + 1)))
  {
    OffMono(c, 0, i);
    OffMono(c, i, i + 1);
    SumSplit(ValueTerms(c, d), 0, c.off(i), c.off(i + 1));
    Rescale(c.lane.E, prev, m, x, Sum(ValueTerms(c, d), 0, c.off(i)), prod,
            Sum(ValueTerms(c, d), c.off(i), c.off(i + 1)));
  }
  lemma AccStep(c: RowJob, acc: Vec, a: First, i: int, prod: Vec)
    requires Legal(c) && 0 < i < c.blocks && ProbsUpto(c, a) && Multiplied(c, a, i, prod)
    requires Acc(c, acc, i, a.maxs[i - 1])
    ensures Acc(c, AddScaled(acc, c.lane.E(a.maxs[i - 1] - a.maxs[i]), prod), i + 1, a.maxs[i])
  {
    var out := AddScaled(acc, c.lane.E(a.maxs[i - 1] - a.maxs[i]), prod);
    forall d ensures StandsFor(out(d), c.lane.E(a.maxs[i]), Sum(ValueTerms(c, d), 0, c.off(i + 1))) {
      assert ProbsAt(c, a.probs[i], i, a.maxs[i]);
      ProductIs(c, a.probs[i], i, a.maxs[i], d);
      AccAt(c, acc(d), a.maxs[i - 1], a.maxs[i], prod(d), i, d);
      assert out(d) == Rescaled(acc(d), c.lane.E(a.maxs[i - 1] - a.maxs[i]), prod(d));
    }
  }
  lemma AccStart(c: RowJob, s: real, a: First, prod: Vec)
    requires Legal(c) && ProbsUpto(c, a) && Multiplied(c, a, 0, prod)
    ensures Acc(c, AddScaled(Zeros(), s, prod), 1, a.maxs[0])
  {
    var out := AddScaled(Zeros(), s, prod);
    forall d ensures StandsFor(out(d), c.lane.E(a.maxs[0]), Sum(ValueTerms(c, d), 0, c.off(1))) {
      assert ProbsAt(c, a.probs[0], 0, a.maxs[0]);
      ProductIs(c, a.probs[0], 0, a.maxs[0], d);
      FromZero(s, prod(d));
      assert out(d) == Rescaled(0.0, s, prod(d));
    }
  }
  /** All products of the row. */
  ghost predicate AllMultiplied(c: RowJob, a: First, prods: seq<Vec>) {
    |prods| == |a.probs| == c.blocks && forall i :: 0 <= i < |prods| ==> Multiplied(c, a, i, prods[i])
  }
  lemma SecondUnfolds(a: First, prods: seq<Vec>, k: nat)
    requires 0 < k <= |prods| <= |a.scales|
    ensures SecondRun(a, prods[..k])
            == AddScaled(SecondRun(a, prods[..k - 1]), if k != 1 then a.scales[k - 1] else a.lastScale, prods[k - 1])
  {
    assert prods[..k][..k - 1] == prods[..k - 1];
  }
  function ScaleUsed(a: First, i: nat): real
    requires i < |a.scales|
  {
    if i != 0 then a.scales[i] else a.lastScale
  }
  /** R(i) is the accumulator after i products. */
  ghost predicate StepsAt(a: First, prods: seq<Vec>, R: int -> Vec, i: nat)
    requires i < |prods| <= |a.scales|
  {
    R(i + 1) == AddScaled(R(i), ScaleUsed(a, i), prods[i])
  }
  lemma {:induction false} SecondChain(c: RowJob, a: First, prods: seq<Vec>, R: int -> Vec, k: nat)
    requires Legal(c) && |a.scales| == c.blocks && ProbsUpto(c, a) && ScalesUpto(c.lane, a)
    requires AllMultiplied(c, a, prods)
    requires R(0) == Zeros() && forall i: nat :: i < |prods| ==> StepsAt(a, prods, R, i)
    requires 0 < k <= c.blocks
    ensures Acc(c, R(k), k, a.maxs[k - 1])
    decreases k
  {
    assert StepsAt(a, prods, R, k - 1) && Multiplied(c, a, k - 1, prods[k - 1]);
    if k == 1 {
      AccStart(c, a.lastScale, a, prods[0]);
    } else {
      SecondChain(c, a, prods, R, k - 1);
      SavedScale(c.lane, a, k - 1);
      AccStep(c, R(k - 1), a, k - 1, prods[k - 1]);
    }
  }
  function SecondAt(a: First, prods: seq<Vec>, k: int): Vec
    requires |prods| <= |a.scales|
  {
    if 0 <= k <= |prods| then SecondRun(a, prods[..k]) else Zeros()
  }
  function Seconds(a: First, prods: seq<Vec>): int -> Vec
    requires |prods| <= |a.scales|
  {
    (k: int) => SecondAt(a, prods, k)
  }
  lemma SecondIs(c: RowJob, a: First, prods: seq<Vec>)
    requires Legal(c) && |a.scales| == c.blocks && ProbsUpto(c, a) && ScalesUpto(c.lane, a)
    requires AllMultiplied(c, a, prods)
    ensures Acc(c, SecondRun(a, prods), c.blocks, a.maxs[c.blocks - 1])
  {
    var R := Seconds(a, prods);
    assert R(0) == SecondRun(a, prods[..0]) == Zeros();
    forall i: nat | i < |prods| ensures StepsAt(a, prods, R, i) { SecondUnfolds(a, prods, i + 1); }
    assert prods[..c.blocks] == prods && R(c.blocks) == SecondRun(a, prods);
    SecondChain(c, a, prods, R, c.blocks);
  }
  lemma SavedScale(l: Lane, a: First, u: int)
    requires ScalesUpto(l, a) && 1 <= u < |a.maxs| == |a.scales|
    ensures a.scales[u] == l.E(a.maxs[u - 1] - a.maxs[u])
  {
    assert ScaleAt(l, a, u);
  }

  // ----- the row

  lemma Quotient(a: real, l: real, e: real, num: real, den: real, stale: real)
    requires e > 0.0 && den > 0.0 && stale >= 0.0 && StandsFor(a, e, num) && StandsFor(l, e, den + stale)
    ensures Div(a, l) == num / den <==> stale == 0.0 || num == 0.0
  {
    NonZero(l, e, den + stale);
    var q, r := a / l, num / den;
    assert a == q * l && num == r * den;
    Regroup2(q, l, e, den, stale);
    if q == r && stale != 0.0 { ZeroProduct(q, stale); }
    if stale == 0.0 { ZeroProduct(q - r, den); }
    if num == 0.0 {
      ZeroProduct(q, den + stale);
      ZeroProduct(r, den);
    }
  }
  lemma NonZero(l: real, e: real, x: real)
    requires StandsFor(l, e, x) && x > 0.0
    ensures l != 0.0
  {
  }
  lemma Regroup2(q: real, l: real, e: real, den: real, stale: real)
    requires l * e == den + stale
    ensures q * l * e == q * den + q * stale && q * l * e == q * (den + stale)
  {
    assert q * l * e == q * (l * e);
  }
  lemma ZeroProduct(a: real, b: real)
    ensures a * b == 0.0 && b != 0.0 ==> a == 0.0
  {
  }
  /** The row that the two loops compute is softmax(q k * scale) v exactly when the last block is whole, or the weighted
      sum is zero anyway: otherwise the last block's stale columns are counted in the denominator only. */
  lemma RowIsAttention(c: RowJob, cols: seq<Vec>, buffer: Vec, prods: seq<Vec>, d: int)
    requires Legal(c) && LoadsAll(c, cols) && AllMultiplied(c, FirstRun(c.lane, c.tail, cols, buffer), prods)
    ensures RowOut(c.lane, c.tail, cols, buffer, prods)(d) == Attention(c, d) <==> Whole(c) || Num(c, d) == 0.0
  {
    var a := FirstRun(c.lane, c.tail, cols, buffer);
    assert cols[..c.blocks] == cols;
    var stale := RunSummed(c, cols, buffer, c.blocks);
    SecondIs(c, a, prods);
    var acc := SecondRun(a, prods);
    DenPositive(c);
    ExpPositive(c.lane.E, a.smax);
    assert StandsFor(acc(d), c.lane.E(a.smax), Num(c, d));
    Quotient(acc(d), a.logsum, c.lane.E(a.smax), Num(c, d), Den(c), stale);
  }

  // ----- the loops as the vector core runs them

  lemma {:induction false} MaxOfIs(x: Vec, n: int)
    requires n >= 1
    ensures (forall j :: 0 <= j < n ==> x(j) <= MaxOf(x, n)) && exists j :: 0 <= j < n && x(j) == MaxOf(x, n)
    decreases n
  {
    if n == 1 {
      assert x(0) == MaxOf(x, 1);
    } else {
      MaxOfIs(x, n - 1);
      var i :| 0 <= i < n - 1 && x(i) == MaxOf(x, n - 1);
      var top := if x(n - 1) > MaxOf(x, n - 1) then n - 1 else i;
      assert x(top) == MaxOf(x, n);
    }
  }
  /** m is the largest of the block's columns and, after the first block, the maximum before. */
  ghost predicate RunningMax(x: Vec, n: int, i: int, prev: real, m: real) {
    && (forall j :: 0 <= j < n ==> x(j) <= m) && (i > 0 ==> prev <= m)
    && ((i > 0 && m == prev) || exists j :: 0 <= j < n && x(j) == m)
  }
  lemma NewMaxIs(l: Lane, i: nat, x: Vec, prev: real)
    requires l.block >= 1
    ensures RunningMax(x, l.block, i, prev, NewMax(l, i, x, prev))
  {
    MaxOfIs(x, l.block);
    var j :| 0 <= j < l.block && x(j) == MaxOf(x, l.block);
    assert Max(prev, MaxOf(x, l.block)) == prev || Max(prev, MaxOf(x, l.block)) == x(j);
  }
  /** One iteration: load, scale, maximum, rescaling factor, exponentials, sum. */
  method FirstBlock(c: RowJob, i: nat, col: Vec, before: First, ghost stale: real) returns (after: First)
    requires Legal(c) && i < c.blocks && Summed(c, i, before, stale) && Loads(c, i, col)
    ensures after == Stepped(c.lane, i, c.tail(i), col, before)
    ensures Summed(c, i + 1, after, StaleNow(c, i, before.f16, stale))
    ensures RunningMax(Cols(c.lane, c.tail(i), col, before.f16), c.lane.block, i, before.smax, after.smax)
  {
    assert BlockAt(c, i);
    NewMaxIs(c.lane, i, Cols(c.lane, c.tail(i), col, before.f16), before.smax);
    SummedStep(c, i, col, before, stale);
    var l := c.lane;
    var f16 := Loaded(c.tail(i), col, before.f16);
    var f32 := Scaled(l.times, f16);
    var smax, scale := MaxOf(f32, l.block), before.lastScale;
    if i != 0 {
      smax := Max(before.smax, smax);
      scale := l.E(before.smax - smax);
    }
    f16 := ExpFrom(l.E, f32, smax);
    var logsum := Rescaled(before.logsum, scale, Sum(f16, 0, l.block));
    after := First(f16, logsum, smax, scale, before.scales + [scale], before.probs + [f16], before.maxs + [smax]);
  }
  /** First loop on one row; `buffer` is whatever the score buffer held.  The sum stands for the denominator plus
      `stale`. */
  method FirstLoop(c: RowJob, cols: seq<Vec>, buffer: Vec) returns (a: First, ghost stale: real)
    requires Legal(c) && LoadsAll(c, cols)
    ensures a == FirstRun(c.lane, c.tail, cols, buffer)
    ensures Summed(c, c.blocks, a, stale) && StandsFor(a.logsum, c.lane.E(a.smax), Den(c) + stale)
    ensures if Whole(c) then stale == 0.0 else stale > 0.0
  {
    a, stale := Started(buffer), 0.0;
    var i := 0;
    while i < c.blocks
      invariant 0 <= i <= c.blocks && a == FirstRun(c.lane, c.tail, cols[..i], buffer) && Summed(c, i, a, stale)
    {
      ghost var was := a.f16;
      assert cols[..i + 1][..i] == cols[..i];
      a := FirstBlock(c, i, cols[i], a, stale);
      stale := StaleNow(c, i, was, stale);
      i := i + 1;
    }
    assert cols[..i] == cols;
  }
  /** Second loop on one row.  Whatever scores_scale holds on entry, the accumulator it multiplies first is zero. */
  method SecondLoop(c: RowJob, a: First, prods: seq<Vec>) returns (acc: Vec)
    requires Legal(c) && |a.scales| == c.blocks && ProbsUpto(c, a) && ScalesUpto(c.lane, a)
    requires AllMultiplied(c, a, prods)
    ensures acc == SecondRun(a, prods) && Acc(c, acc, c.blocks, a.maxs[c.blocks - 1])
  {
    acc := Accumulate(a, prods);
    SecondIs(c, a, prods);
  }
  method Accumulate(a: First, prods: seq<Vec>) returns (acc: Vec)
    requires |prods| <= |a.scales|
    ensures acc == SecondRun(a, prods)
  {
    acc := Zeros();
    var s := a.lastScale;
    var i := 0;
    while i < |prods|
      invariant 0 <= i <= |prods| && acc == SecondRun(a, prods[..i]) && (i == 0 ==> s == a.lastScale)
    {
      if i != 0 { s := a.scales[i]; }
      assert prods[..i + 1][..i] == prods[..i];
      acc := AddScaled(acc, s, prods[i]);
      i := i + 1;
    }
    assert prods[..i] == prods;
  }
  /** The Cube's second loop on the row. */
  method Products(c: RowJob, a: First) returns (prods: seq<Vec>)
    requires |a.probs| == c.blocks
    ensures AllMultiplied(c, a, prods)
  {
    prods := [];
    var i := 0;
    while i < c.blocks
      invariant 0 <= i <= c.blocks && |prods| == i && forall u :: 0 <= u < i ==> Multiplied(c, a, u, prods[u])
    {
      prods := prods + [Product(c, a.probs[i], i)];
      i := i + 1;
    }
  }
  /** Scores in, row out: both loops of the vector core with the Cube's products between them. */
  method FlashRow(c: RowJob, cols: seq<Vec>, buffer: Vec) returns (out: Vec)
    requires Legal(c) && LoadsAll(c, cols)
    ensures forall d :: out(d) == Attention(c, d) <==> Whole(c) || Num(c, d) == 0.0
  {
    var a, stale := FirstLoop(c, cols, buffer);
    var prods := Products(c, a);
    var acc := SecondLoop(c, a, prods);
    out := Divided(acc, a.logsum);
    forall d
      ensures out(d) == Attention(c, d) <==> Whole(c) || Num(c, d) == 0.0
    {
      RowIsAttention(c, cols, buffer, prods, d);
    }
  }
}
