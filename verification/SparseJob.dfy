/** The work list of one AI core in the sparse attention kernel: tasks 0 .. n - 1, each one block of the
    selected keys of one query. Block-level softmax quantities and how they add up, in exact arithmetic. */
module SparseJob {
  import opened Sums

  /** `tail` is the number of live rows of a task's block; `first` and `last` mark a query's first and last
      block; `bt`, `sq` are its batch and sequence position; `idx(t, j)` is entry j of the index buffer
      (arbitrary for j >= tail); `row` is a gathered key/value row; E is exp. */
  datatype Job = Job(
    n: nat, block: int, dim: int, half: int, smScale: real, E: real -> real,
    tail: int -> int, first: int -> bool, last: int -> bool, bt: int -> int, sq: int -> int,
    idx: (int, int) -> int, Q: (int, int, int, int) -> real, row: (int, int, int) -> real,
    score: (int, int, int) -> real, sink: int -> real)

  ghost predicate Tails(g: Job) { forall t :: 0 <= g.tail(t) <= g.block }

  /** The blocks of a query follow each other: a block that is not first continues its predecessor. */
  predicate SameQuery(g: Job, t: int) { !g.last(t - 1) && g.bt(t) == g.bt(t - 1) && g.sq(t) == g.sq(t - 1) }
  ghost predicate Streams(g: Job) {
    && (g.n > 0 ==> g.first(0))
    && forall t :: 0 < t < g.n && !g.first(t) ==> SameQuery(g, t)
  }
  /** No query is worked on twice. */
  predicate Apart(g: Job, t: int, u: int) { g.bt(t) != g.bt(u) || g.sq(t) != g.sq(u) }
  ghost predicate Once(g: Job) {
    forall t, u :: 0 <= t < u < g.n && g.last(t) && g.last(u) ==> Apart(g, t, u)
  }
  ghost predicate Legal(g: Job) {
    IsExp(g.E) && g.half >= 0 && Tails(g) && Streams(g) && Once(g) && ScoresAreDots(g)
  }

  /** A gathered row of the block of task t. */
  function Gathered(g: Job, t: int, j: int, d: int): real { g.row(g.bt(t), g.idx(t, j), d) }

  /** The Q.K product of head h with a gathered row. */
  function Dot(g: Job, t: int, h: int, j: int): real {
    Sum((d: int) => g.Q(g.bt(t), g.sq(t), h, d) * Gathered(g, t, j, d), 0, g.dim)
  }

  /** What `score` stands for. */
  ghost predicate ScoresAreDots(g: Job) {
    forall t, h, j :: g.score(t, h, j) == Dot(g, t, h, j)
  }

  function ScaleBy(smScale: real, x: real): real { x * smScale }
  function Scaled(g: Job, t: int, h: int, j: int): real { ScaleBy(g.smScale, g.score(t, h, j)) }

  predicate Live(g: Job, t: int, j: int) { j < g.tail(t) && g.idx(t, j) != -1 }

  /** exp of the scaled score relative to m; zero for masked rows and rows past the tail. */
  function Prob(g: Job, t: int, h: int, m: real, j: int): real {
    if Live(g, t, j) then g.E(Scaled(g, t, h, j) - m) else 0.0
  }
  function Probs(g: Job, t: int, h: int, m: real): int -> real { (j: int) => Prob(g, t, h, m, j) }
  function ProbTerms(g: Job, t: int, h: int, m: real, d: int): int -> real {
    (j: int) => Prob(g, t, h, m, j) * Gathered(g, t, j, d)
  }
  /** Row sum of the probabilities, and their product with the gathered rows, over the whole padded block. */
  function ProbSum(g: Job, t: int, h: int, m: real): real { Sum(Probs(g, t, h, m), 0, g.block) }
  function Contribution(g: Job, t: int, h: int, m: real, d: int): real { Sum(ProbTerms(g, t, h, m, d), 0, g.block) }

  // ----- the reference: no running maximum, no rescaling

  function Weight(g: Job, t: int, h: int, j: int): real {
    if Live(g, t, j) then g.E(Scaled(g, t, h, j)) else 0.0
  }
  function Weights(g: Job, t: int, h: int): int -> real { (j: int) => Weight(g, t, h, j) }
  function WeightTerms(g: Job, t: int, h: int, d: int): int -> real {
    (j: int) => Weight(g, t, h, j) * Gathered(g, t, j, d)
  }
  function BlockDen(g: Job, t: int, h: int): real { Sum(Weights(g, t, h), 0, g.tail(t)) }
  function BlockNum(g: Job, t: int, h: int, d: int): real { Sum(WeightTerms(g, t, h, d), 0, g.tail(t)) }
  /** Denominator and numerator over the blocks of task t's query up to and including task t. */
  function Den(g: Job, t: int, h: int): real
    decreases t
  {
    (if t <= 0 || g.first(t) then 0.0 else Den(g, t - 1, h)) + BlockDen(g, t, h)
  }
  function Num(g: Job, t: int, h: int, d: int): real
    decreases t
  {
    (if t <= 0 || g.first(t) then 0.0 else Num(g, t - 1, h, d)) + BlockNum(g, t, h, d)
  }

  lemma {:induction false} WeightsNonNegative(g: Job, t: int, h: int, k: int)
    requires IsExp(g.E)
    ensures Sum(Weights(g, t, h), 0, k) >= 0.0
    decreases k
  {
    if k > 0 {
      WeightsNonNegative(g, t, h, k - 1);
      assert Weight(g, t, h, k - 1) >= 0.0;
    }
  }

  lemma {:induction false} DenNonNegative(g: Job, t: int, h: int)
    requires IsExp(g.E)
    ensures Den(g, t, h) >= 0.0
    decreases t
  {
    WeightsNonNegative(g, t, h, g.tail(t));
    if t > 0 { DenNonNegative(g, t - 1, h); }
  }

  /** One output element: softmax over the live keys and the sink, applied to the gathered rows. */
  function Result(g: Job, t: int, h: int, d: int): real
    requires IsExp(g.E)
  {
    DenNonNegative(g, t, h);
    ExpPositive(g.E, g.sink(h));
    Num(g, t, h, d) / (Den(g, t, h) + g.E(g.sink(h)))
  }

  // ----- a block of online softmax against the reference

  lemma LiveRow(g: Job, t: int, h: int, m: real, j: int)
    requires Live(g, t, j)
    ensures Prob(g, t, h, m, j) == g.E(Scaled(g, t, h, j) - m) && Weight(g, t, h, j) == g.E(Scaled(g, t, h, j))
  {
  }

  /** Brought back to reference point 0, probabilities are weights; rows past the tail add nothing
      whatever the workspace holds there. */
  lemma ProbIsWeight(g: Job, t: int, h: int, m: real, j: int)
    requires IsExp(g.E)
    ensures g.E(m) * Prob(g, t, h, m, j) == Weight(g, t, h, j)
  {
    if Live(g, t, j) {
      LiveRow(g, t, h, m, j);
      ExpShift(g.E, Scaled(g, t, h, j), m);
    }
  }

  /** Sums of proportional terms, one of them padded with zeros from n to k. */
  lemma ProportionalSums(f: int -> real, g: int -> real, e: real, n: int, k: int)
    requires 0 <= n <= k && forall j :: n <= j < k ==> f(j) == 0.0
    requires forall j :: 0 <= j < n ==> Scales(f, g, e, j)
    ensures Sum(f, 0, k) * e == Sum(g, 0, n)
  {
    SumSplit(f, 0, n, k);
    SumZero(f, n, k);
    SumScale(f, g, e, 0, n);
  }

  lemma ProbsScale(g: Job, t: int, h: int, m: real)
    requires IsExp(g.E)
    ensures forall j :: Scales(Probs(g, t, h, m), Weights(g, t, h), g.E(m), j)
  {
    forall j ensures Scales(Probs(g, t, h, m), Weights(g, t, h), g.E(m), j) { ProbIsWeight(g, t, h, m, j); }
  }

  lemma ProbSumIsDen(g: Job, t: int, h: int, m: real)
    requires IsExp(g.E) && 0 <= g.tail(t) <= g.block
    ensures ProbSum(g, t, h, m) * g.E(m) == BlockDen(g, t, h)
  {
    ProbsScale(g, t, h, m);
    ProportionalSums(Probs(g, t, h, m), Weights(g, t, h), g.E(m), g.tail(t), g.block);
  }

  lemma TermsScale(g: Job, t: int, h: int, m: real, d: int)
    requires IsExp(g.E)
    ensures forall j :: Scales(ProbTerms(g, t, h, m, d), WeightTerms(g, t, h, d), g.E(m), j)
  {
    forall j
      ensures Scales(ProbTerms(g, t, h, m, d), WeightTerms(g, t, h, d), g.E(m), j)
    {
      ProbIsWeight(g, t, h, m, j);
      MulAssoc(g.E(m), Prob(g, t, h, m, j), Gathered(g, t, j, d));
    }
  }

  lemma ContributionIsNum(g: Job, t: int, h: int, m: real, d: int)
    requires IsExp(g.E) && 0 <= g.tail(t) <= g.block
    ensures Contribution(g, t, h, m, d) * g.E(m) == BlockNum(g, t, h, d)
  {
    TermsScale(g, t, h, m, d);
    ProportionalSums(ProbTerms(g, t, h, m, d), WeightTerms(g, t, h, d), g.E(m), g.tail(t), g.block);
  }

  lemma MulAssoc(a: real, b: real, c: real)
    ensures a * (b * c) == (a * b) * c
  {
  }

  /** Rescaling by exp(m0 - m1) moves an accumulator from reference point m0 to m1. */
  lemma Rescale(E: real -> real, a: real, m0: real, m1: real, add: real)
    requires IsExp(E)
    ensures (a * E(m0 - m1) + add) * E(m1) == a * E(m0) + add * E(m1)
  {
    ExpShift(E, m0, m1);
    assert a * E(m0 - m1) * E(m1) == a * (E(m0 - m1) * E(m1));
  }

  /** Dividing the accumulator by the denominator plus the sink term cancels the reference point. */
  lemma Normalize(E: real -> real, acc: real, log: real, sink: real, m: real, num: real, den: real)
    requires IsExp(E) && acc * E(m) == num && log * E(m) == den && den >= 0.0
    ensures log + E(sink - m) != 0.0 && den + E(sink) > 0.0
    ensures acc / (log + E(sink - m)) == num / (den + E(sink))
  {
    ExpShift(E, sink, m);
    var e, z := E(m), log + E(sink - m);
    assert e > 0.0 && E(sink) > 0.0;
    assert z * e == den + E(sink);
    assert z != 0.0;
    var r := num / (den + E(sink));
    assert r * (den + E(sink)) == num;
    assert (r * z) * e == acc * e;
    CancelFactor(r * z, acc, e);
  }

  lemma CancelFactor(a: real, b: real, e: real)
    requires e > 0.0 && a * e == b * e
    ensures a == b
  {
    assert (a - b) * e == 0.0;
  }
}
