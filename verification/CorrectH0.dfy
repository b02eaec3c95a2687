/** Correction of chunk states: the serial kernel, the recurrence it computes, and the duality of its two uses. */
module CorrectH0 {
  import opened Sums

  type Mat = (int, int) -> real
  type Tensor = (int, int, int) -> real

  /** One head of one sequence: chunks s .. e - 1.  `ht` and `raw` are stored value-dimension first when vFirst. */
  datatype Run = Run(dk: int, reverse: bool, transposeM: bool, vFirst: bool, zeroInit: bool, s: int, e: int,
                     raw: Mat, ht: Tensor, mt: Tensor, mask: int -> int)

  // ----- the recurrence

  /** Entry (k, v) of a matrix kept in either storage order. */
  function Stored(vFirst: bool, m: Mat, k: int, v: int): real { if vFirst then m(v, k) else m(k, v) }
  function StoredAt(vFirst: bool, t: Tensor, idx: int, k: int, v: int): real {
    if vFirst then t(idx, v, k) else t(idx, k, v)
  }

  function Start(c: Run, k: int, v: int): real { if c.zeroInit then 0.0 else Stored(c.vFirst, c.raw, k, v) }
  function M(c: Run, idx: int, k: int, l: int): real { if c.transposeM then c.mt(idx, l, k) else c.mt(idx, k, l) }
  function Chunks(c: Run): int { c.e - c.s }
  /** The i-th chunk visited. */
  function Visit(c: Run, i: int): int { if c.reverse then c.s + Chunks(c) - 1 - i else c.s + i }

  /** The state on entering the i-th chunk visited: each chunk adds its own contribution, and passes on the state
      through its transition matrix unless its mask is zero. */
  function State(c: Run, i: nat, k: int, v: int): real
    decreases i, 0
  {
    if i == 0 then Start(c, k, v)
    else StoredAt(c.vFirst, c.ht, Visit(c, i - 1), k, v)
         + (if c.mask(Visit(c, i - 1)) != 0 then Sum(Passed(c, i - 1, k, v), 0, c.dk) else 0.0)
  }
  function Passed(c: Run, i: nat, k: int, v: int): int -> real
    decreases i, 1
  {
    (l: int) => M(c, Visit(c, i), k, l) * State(c, i, l, v)
  }

  // ----- the kernel

  function Slice(vFirst: bool, t: Tensor, idx: int, start: int): Mat {
    if vFirst then (a: int, b: int) => t(idx, start + a, b) else (a: int, b: int) => t(idx, a, start + b)
  }
  function RawSlice(vFirst: bool, m: Mat, start: int): Mat {
    if vFirst then (a: int, b: int) => m(start + a, b) else (a: int, b: int) => m(a, start + b)
  }
  predicate InSlice(vFirst: bool, dk: int, block: int, start: int, a: int, b: int) {
    if vFirst then start <= a < start + block && 0 <= b < dk else 0 <= a < dk && start <= b < start + block
  }
  function Written(vFirst: bool, t: Tensor, idx: int, dk: int, block: int, start: int, h: Mat): Tensor {
    (i: int, a: int, b: int) =>
      if i == idx && InSlice(vFirst, dk, block, start, a, b) then
        (if vFirst then h(a - start, b) else h(a, b - start))
      else
        t(i, a, b)
  }
  function Zero(): Mat { (a: int, b: int) => 0.0 }
  function Plus(x: Mat, y: Mat): Mat { (a: int, b: int) => x(a, b) + y(a, b) }
  function GemmTerm(x: Mat, y: Mat, xT: bool, yT: bool, a: int, b: int): int -> real {
    (l: int) => (if xT then x(l, a) else x(a, l)) * (if yT then y(b, l) else y(l, b))
  }
  function Gemm(x: Mat, y: Mat, xT: bool, yT: bool, n: int): Mat {
    (a: int, b: int) => Sum(GemmTerm(x, y, xT, yT, a, b), 0, n)
  }
  function Transition(mt: Tensor, idx: int): Mat { (a: int, b: int) => mt(idx, a, b) }

  /** The fragment holds columns start .. start + block - 1 of the i-th state. */
  ghost predicate Holds(c: Run, h: Mat, block: int, start: int, i: nat) {
    forall k, b :: 0 <= k < c.dk && 0 <= b < block ==> Stored(c.vFirst, h, k, b) == State(c, i, k, start + b)
  }
  /** Chunk Visit(i) of the output holds those columns. */
  ghost predicate Delivered(c: Run, cp: Tensor, block: int, start: int, i: nat) {
    forall k, v :: 0 <= k < c.dk && start <= v < start + block ==>
      StoredAt(c.vFirst, cp, Visit(c, i), k, v) == State(c, i, k, v)
  }
  /** Outside the slice, and outside chunks lo .. hi - 1, the output is as before. */
  ghost predicate Kept(c: Run, cp0: Tensor, cp: Tensor, block: int, start: int, lo: int, hi: int) {
    forall i, a, b :: !(lo <= i < hi && InSlice(c.vFirst, c.dk, block, start, a, b)) ==> cp(i, a, b) == cp0(i, a, b)
  }
  function LastChunk(c: Run): int { if c.reverse then c.s else c.s + Chunks(c) - 1 }

  /** The initial state written over chunk LastChunk. */
  ghost predicate Stray(c: Run, cp: Tensor, block: int, start: int) {
    forall k, v :: 0 <= k < c.dk && start <= v < start + block ==>
      StoredAt(c.vFirst, cp, LastChunk(c), k, v) == Start(c, k, v)
  }

  function Product(c: Run, h: Mat, idx: int): Mat {
    if c.vFirst then Gemm(h, Transition(c.mt, idx), false, !c.transposeM, c.dk)
    else Gemm(Transition(c.mt, idx), h, c.transposeM, false, c.dk)
  }
  function Advanced(c: Run, h: Mat, idx: int, start: int): Mat {
    if c.mask(idx) != 0 then
      Plus(Slice(c.vFirst, c.ht, idx, start), Product(c, h, idx))
    else
      Slice(c.vFirst, c.ht, idx, start)
  }

  lemma SliceIs(vFirst: bool, t: Tensor, idx: int, start: int, k: int, b: int)
    ensures Stored(vFirst, Slice(vFirst, t, idx, start), k, b) == StoredAt(vFirst, t, idx, k, start + b)
  {
  }
  /** Either storage order and either gemm orientation computes the transition applied to the state. */
  lemma ProductIs(c: Run, h: Mat, block: int, start: int, i: nat, k: int, b: int)
    requires Holds(c, h, block, start, i) && 0 <= k < c.dk && 0 <= b < block
    ensures Stored(c.vFirst, Product(c, h, Visit(c, i)), k, b) == Sum(Passed(c, i, k, start + b), 0, c.dk)
  {
    var m := Transition(c.mt, Visit(c, i));
    var g := Passed(c, i, k, start + b);
    if c.vFirst {
      var f := GemmTerm(h, m, false, !c.transposeM, b, k);
      forall l | 0 <= l < c.dk ensures f(l) == g(l) { assert Stored(c.vFirst, h, l, b) == State(c, i, l, start + b); }
      SumCongruent(f, g, 0, c.dk);
    } else {
      var f := GemmTerm(m, h, c.transposeM, false, k, b);
      forall l | 0 <= l < c.dk ensures f(l) == g(l) { assert Stored(c.vFirst, h, l, b) == State(c, i, l, start + b); }
      SumCongruent(f, g, 0, c.dk);
    }
  }
  lemma AdvancedHolds(c: Run, h: Mat, block: int, start: int, i: nat)
    requires Holds(c, h, block, start, i)
    ensures Holds(c, Advanced(c, h, Visit(c, i), start), block, start, i + 1)
  {
    var idx := Visit(c, i);
    forall k, b | 0 <= k < c.dk && 0 <= b < block
      ensures Stored(c.vFirst, Advanced(c, h, idx, start), k, b) == State(c, i + 1, k, start + b)
    {
      ProductIs(c, h, block, start, i, k, b);
      SliceIs(c.vFirst, c.ht, idx, start, k, b);
    }
  }
  /** The loop body: contribution of the chunk plus the state passed through its transition. */
  method Advance(c: Run, h: Mat, idx: int, start: int, ghost block: int, ghost i: nat) returns (next: Mat)
    requires Holds(c, h, block, start, i) && idx == Visit(c, i)
    ensures Holds(c, next, block, start, i + 1) && next == Advanced(c, h, idx, start)
  {
    var hd := h;
    next := Slice(c.vFirst, c.ht, idx, start);
    if c.mask(idx) != 0 {
      var m := Transition(c.mt, idx);
      var acc: Mat;
      if c.vFirst {
        if c.transposeM { acc := Gemm(hd, m, false, false, c.dk); } else { acc := Gemm(hd, m, false, true, c.dk); }
      } else {
        if c.transposeM { acc := Gemm(m, hd, true, false, c.dk); } else { acc := Gemm(m, hd, false, false, c.dk); }
      }
      next := Plus(next, acc);
    }
    AdvancedHolds(c, h, block, start, i);
    assert next == Advanced(c, h, idx, start);
  }
  lemma WrittenAt(vFirst: bool, t: Tensor, idx: int, dk: int, block: int, start: int, h: Mat, k: int, v: int)
    requires 0 <= k < dk && start <= v < start + block
    ensures StoredAt(vFirst, Written(vFirst, t, idx, dk, block, start, h), idx, k, v) == Stored(vFirst, h, k, v - start)
  {
    var w := Written(vFirst, t, idx, dk, block, start, h);
    if vFirst {
      assert InSlice(vFirst, dk, block, start, v, k);
      assert w(idx, v, k) == h(v - start, k);
    } else {
      assert InSlice(vFirst, dk, block, start, k, v);
      assert w(idx, k, v) == h(k, v - start);
    }
  }
  lemma WrittenDelivers(c: Run, cp: Tensor, h: Mat, block: int, start: int, i: nat)
    requires Holds(c, h, block, start, i)
    ensures Delivered(c, Written(c.vFirst, cp, Visit(c, i), c.dk, block, start, h), block, start, i)
  {
    var w := Written(c.vFirst, cp, Visit(c, i), c.dk, block, start, h);
    forall k, v | 0 <= k < c.dk && start <= v < start + block
      ensures StoredAt(c.vFirst, w, Visit(c, i), k, v) == State(c, i, k, v)
    {
      var b := v - start;
      assert start + b == v && Stored(c.vFirst, h, k, b) == State(c, i, k, start + b);
      WrittenAt(c.vFirst, cp, Visit(c, i), c.dk, block, start, h, k, v);
    }
  }
  lemma WrittenKeeps(c: Run, cp: Tensor, h: Mat, block: int, start: int, i: nat, j: nat)
    requires Delivered(c, cp, block, start, j) && i != j
    ensures Delivered(c, Written(c.vFirst, cp, Visit(c, i), c.dk, block, start, h), block, start, j)
  {
    var w := Written(c.vFirst, cp, Visit(c, i), c.dk, block, start, h);
    forall k, v | 0 <= k < c.dk && start <= v < start + block
      ensures StoredAt(c.vFirst, w, Visit(c, j), k, v) == State(c, j, k, v)
    {
      assert StoredAt(c.vFirst, cp, Visit(c, j), k, v) == State(c, j, k, v);
    }
  }
  lemma WrittenKept(c: Run, cp0: Tensor, cp: Tensor, h: Mat, block: int, start: int, lo: int, hi: int, idx: int)
    requires Kept(c, cp0, cp, block, start, lo, hi) && lo <= idx < hi
    ensures Kept(c, cp0, Written(c.vFirst, cp, idx, c.dk, block, start, h), block, start, lo, hi)
  {
  }

  lemma StrayWritten(c: Run, cp: Tensor, h: Mat, block: int, start: int)
    requires Holds(c, h, block, start, 0)
    ensures Stray(c, Written(c.vFirst, cp, LastChunk(c), c.dk, block, start, h), block, start)
  {
    var w := Written(c.vFirst, cp, LastChunk(c), c.dk, block, start, h);
    forall k, v | 0 <= k < c.dk && start <= v < start + block
      ensures StoredAt(c.vFirst, w, LastChunk(c), k, v) == Start(c, k, v)
    {
      var b := v - start;
      assert start + b == v && Stored(c.vFirst, h, k, b) == State(c, 0, k, start + b);
      WrittenAt(c.vFirst, cp, LastChunk(c), c.dk, block, start, h, k, v);
    }
  }

  /** The first i chunks visited are delivered, and nothing outside the sequence's slice has changed. */
  ghost predicate Progress(c: Run, cp0: Tensor, cp: Tensor, block: int, start: int, i: int) {
    (forall j: nat :: j < i ==> Delivered(c, cp, block, start, j)) && Kept(c, cp0, cp, block, start, c.s, c.e)
  }
  lemma ProgressStep(c: Run, cp0: Tensor, cp: Tensor, h: Mat, block: int, start: int, i: nat)
    requires Progress(c, cp0, cp, block, start, i) && Holds(c, h, block, start, i) && c.s <= Visit(c, i) < c.e
    ensures Progress(c, cp0, Written(c.vFirst, cp, Visit(c, i), c.dk, block, start, h), block, start, i + 1)
  {
    WrittenDelivers(c, cp, h, block, start, i);
    forall j: nat | j < i
      ensures Delivered(c, Written(c.vFirst, cp, Visit(c, i), c.dk, block, start, h), block, start, j)
    {
      WrittenKeeps(c, cp, h, block, start, i, j);
    }
    WrittenKept(c, cp0, cp, h, block, start, c.s, c.e, Visit(c, i));
  }

  /** The fragment on entering iteration i, and the output then. */
  function FragmentAt(c: Run, start: int, i: nat): Mat {
    if i == 0 then (if c.zeroInit then Zero() else RawSlice(c.vFirst, c.raw, start))
    else Advanced(c, FragmentAt(c, start, i - 1), Visit(c, i - 1), start)
  }
  function OutputAt(c: Run, block: int, start: int, cp0: Tensor, i: nat): Tensor {
    if i == 0 then cp0
    else Written(c.vFirst, OutputAt(c, block, start, cp0, i - 1), Visit(c, i - 1), c.dk, block, start,
                 FragmentAt(c, start, i - 1))
  }
  function Iterations(c: Run): nat { if Chunks(c) >= 1 then Chunks(c) - 1 else 0 }
  /** The output of one program. */
  function Output(c: Run, bv: int, block: int, cp0: Tensor): Tensor {
    var n, start := Iterations(c), bv * block;
    Written(c.vFirst, OutputAt(c, block, start, cp0, n), LastChunk(c), c.dk, block, start, FragmentAt(c, start, n))
  }
  lemma {:induction false} FragmentHolds(c: Run, block: int, start: int, i: nat)
    ensures Holds(c, FragmentAt(c, start, i), block, start, i)
  {
    if i > 0 {
      FragmentHolds(c, block, start, i - 1);
      AdvancedHolds(c, FragmentAt(c, start, i - 1), block, start, i - 1);
    }
  }
  /** Fragments H and outputs P of an iteration, seen as families. */
  ghost predicate StepsAt(c: Run, block: int, start: int, H: nat -> Mat, P: nat -> Tensor, k: nat) {
    && Holds(c, H(k), block, start, k)
    && P(k + 1) == Written(c.vFirst, P(k), Visit(c, k), c.dk, block, start, H(k))
  }
  lemma {:induction false} FamilyProgress(c: Run, block: int, start: int, cp0: Tensor, H: nat -> Mat, P: nat -> Tensor,
                                          i: nat)
    requires (i == 0 || i <= Chunks(c)) && P(0) == cp0 && forall k: nat :: StepsAt(c, block, start, H, P, k)
    ensures Progress(c, cp0, P(i), block, start, i)
  {
    if i > 0 {
      FamilyProgress(c, block, start, cp0, H, P, i - 1);
      assert StepsAt(c, block, start, H, P, i - 1);
      ProgressStep(c, cp0, P(i - 1), H(i - 1), block, start, i - 1);
    }
  }
  lemma OutputProgress(c: Run, block: int, start: int, cp0: Tensor, i: nat)
    requires i == 0 || i <= Chunks(c)
    ensures Progress(c, cp0, OutputAt(c, block, start, cp0, i), block, start, i)
  {
    var H := (k: nat) => FragmentAt(c, start, k);
    var P := (k: nat) => OutputAt(c, block, start, cp0, k);
    forall k: nat ensures StepsAt(c, block, start, H, P, k) { FragmentHolds(c, block, start, k); }
    FamilyProgress(c, block, start, cp0, H, P, i);
  }
  /** Every chunk's output slice receives the state of the recurrence on entering it, and nothing else is written;
      only when the sequence is empty does the final copy fall on a chunk outside it. */
  lemma OutputDelivers(c: Run, bv: int, block: int, cp0: Tensor)
    requires c.s <= c.e
    ensures c.s < c.e ==> Progress(c, cp0, Output(c, bv, block, cp0), block, bv * block, Chunks(c))
    ensures c.s == c.e ==> Stray(c, Output(c, bv, block, cp0), block, bv * block) && !(c.s <= LastChunk(c) < c.e)
    ensures c.s == c.e ==>
      Kept(c, cp0, Output(c, bv, block, cp0), block, bv * block, LastChunk(c), LastChunk(c) + 1)
  {
    var n, start := Iterations(c), bv * block;
    var h, cp := FragmentAt(c, start, n), OutputAt(c, block, start, cp0, n);
    FragmentHolds(c, block, start, n);
    OutputProgress(c, block, start, cp0, n);
    if c.s < c.e {
      assert LastChunk(c) == Visit(c, n);
      ProgressStep(c, cp0, cp, h, block, start, n);
    } else {
      WrittenKept(c, cp0, cp, h, block, start, LastChunk(c), LastChunk(c) + 1, LastChunk(c));
      StrayWritten(c, cp, h, block, start);
    }
  }
  method KernelBody(c: Run, bv: int, block: int, cp0: Tensor) returns (cp: Tensor)
    requires block >= 0 && c.s <= c.e
    ensures cp == Output(c, bv, block, cp0)
    ensures c.s < c.e ==> Progress(c, cp0, cp, block, bv * block, Chunks(c))
    ensures c.s == c.e ==> Stray(c, cp, block, bv * block) && !(c.s <= LastChunk(c) < c.e)
    ensures c.s == c.e ==> Kept(c, cp0, cp, block, bv * block, LastChunk(c), LastChunk(c) + 1)
  {
    var start := bv * block;
    var h := Zero();
    if !c.zeroInit { h := RawSlice(c.vFirst, c.raw, start); }
    cp := cp0;
    var iters := c.e - c.s;
    var i: nat := 0;
    while i < iters - 1
      invariant i <= Iterations(c)
      invariant h == FragmentAt(c, start, i) && cp == OutputAt(c, block, start, cp0, i)
    {
      var idx := if c.reverse then c.s + iters - 1 - i else c.s + i;
      FragmentHolds(c, block, start, i);
      cp := Written(c.vFirst, cp, idx, c.dk, block, start, h);
      h := Advance(c, h, idx, start, block, i);
      i := i + 1;
    }
    var last := if c.reverse then c.s else c.s + iters - 1;
    cp := Written(c.vFirst, cp, last, c.dk, block, start, h);
    OutputDelivers(c, bv, block, cp0);
  }

  // ----- the two storage orders

  /** c2 is c with states kept value-dimension first. */
  ghost predicate Transposed(c: Run, c2: Run) {
    && !c.vFirst && c2.vFirst && c2.dk == c.dk && c2.reverse == c.reverse && c2.transposeM == c.transposeM
    && c2.zeroInit == c.zeroInit
    && c2.s == c.s && c2.e == c.e && c2.mt == c.mt && c2.mask == c.mask
    && (forall a, b :: c2.raw(a, b) == c.raw(b, a)) && (forall i, a, b :: c2.ht(i, a, b) == c.ht(i, b, a))
  }
  lemma {:induction false} StateTransposed(c: Run, c2: Run, i: nat, k: int, v: int)
    requires Transposed(c, c2)
    ensures State(c, i, k, v) == State(c2, i, k, v)
    decreases i
  {
    if i > 0 {
      var f, g := Passed(c, i - 1, k, v), Passed(c2, i - 1, k, v);
      forall l | 0 <= l < c.dk ensures f(l) == g(l) { StateTransposed(c, c2, i - 1, l, v); }
      SumCongruent(f, g, 0, c.dk);
    }
  }
  /** The outputs of the two runs are transposes of each other. */
  lemma OutputTransposed(c: Run, c2: Run, cp: Tensor, cp2: Tensor, block: int, start: int, i: nat, k: int, v: int)
    requires Transposed(c, c2) && Delivered(c, cp, block, start, i) && Delivered(c2, cp2, block, start, i)
    requires 0 <= k < c.dk && start <= v < start + block
    ensures cp2(Visit(c, i), v, k) == cp(Visit(c, i), k, v)
  {
    StateTransposed(c, c2, i, k, v);
    assert StoredAt(c.vFirst, cp, Visit(c, i), k, v) == State(c, i, k, v);
    assert StoredAt(c2.vFirst, cp2, Visit(c2, i), k, v) == State(c2, i, k, v);
  }

  // ----- duality

  function Times(f: int -> real, g: int -> real): int -> real { (k: int) => f(k) * g(k) }
  function Dot(f: int -> real, g: int -> real, n: int): real { Sum(Times(f, g), 0, n) }
  function RowOf(m: Mat, k: int): int -> real { (l: int) => m(k, l) }
  function ColOf(m: Mat, l: int): int -> real { (k: int) => m(k, l) }
  function Apply(m: Mat, h: int -> real, n: int): int -> real { (k: int) => Dot(RowOf(m, k), h, n) }
  function ApplyT(m: Mat, d: int -> real, n: int): int -> real { (l: int) => Dot(ColOf(m, l), d, n) }
  function TripleAt(m: Mat, d: int -> real, h: int -> real, k: int, l: int): real { d(k) * m(k, l) * h(l) }
  function Triple(m: Mat, d: int -> real, h: int -> real): Mat { (k: int, l: int) => TripleAt(m, d, h, k, l) }

  function TripleRow(m: Mat, d: int -> real, h: int -> real, k: int): int -> real {
    (l: int) => TripleAt(m, d, h, k, l)
  }
  function TripleCol(m: Mat, d: int -> real, h: int -> real, l: int): int -> real {
    (k: int) => TripleAt(m, d, h, k, l)
  }
  lemma TripleRows(m: Mat, d: int -> real, h: int -> real, n: int, k: int)
    ensures Times(d, Apply(m, h, n))(k) == Sum(TripleRow(m, d, h, k), 0, n)
  {
    var f, g := Times(RowOf(m, k), h), TripleRow(m, d, h, k);
    forall l ensures Scales(f, g, d(k), l) {
      assert f(l) == m(k, l) * h(l) && g(l) == d(k) * m(k, l) * h(l);
      Reassociate(d(k), m(k, l), h(l));
    }
    SumScale(f, g, d(k), 0, n);
  }
  lemma TripleCols(m: Mat, d: int -> real, h: int -> real, n: int, l: int)
    ensures Times(ApplyT(m, d, n), h)(l) == Sum(TripleCol(m, d, h, l), 0, n)
  {
    var f, g := Times(ColOf(m, l), d), TripleCol(m, d, h, l);
    forall k ensures Scales(f, g, h(l), k) {
      assert f(k) == m(k, l) * d(k) && g(k) == d(k) * m(k, l) * h(l);
      Reassociate(d(k), m(k, l), h(l));
    }
    SumScale(f, g, h(l), 0, n);
  }
  /** Moving a matrix from one side of an inner product to the other transposes it. */
  lemma Adjoint(m: Mat, d: int -> real, h: int -> real, n: int)
    ensures Dot(d, Apply(m, h, n), n) == Dot(ApplyT(m, d, n), h, n)
  {
    var f := Triple(m, d, h);
    var rows, cols := (k: int) => Sum((l: int) => f(k, l), 0, n), (l: int) => Sum((k: int) => f(k, l), 0, n);
    forall k | 0 <= k < n ensures Times(d, Apply(m, h, n))(k) == rows(k) {
      TripleRows(m, d, h, n, k);
      SumCongruent(TripleRow(m, d, h, k), (l: int) => f(k, l), 0, n);
    }
    SumCongruent(Times(d, Apply(m, h, n)), rows, 0, n);
    forall l | 0 <= l < n ensures Times(ApplyT(m, d, n), h)(l) == cols(l) {
      TripleCols(m, d, h, n, l);
      SumCongruent(TripleCol(m, d, h, l), (k: int) => f(k, l), 0, n);
    }
    SumCongruent(Times(ApplyT(m, d, n), h), cols, 0, n);
    SumSwap(f, 0, n, 0, n);
  }
  lemma Reassociate(d: real, m: real, h: real)
    ensures d * m * h == d * (m * h) && d * m * h == h * (m * d)
  {
  }
  lemma DotAdd(f: int -> real, g: int -> real, g2: int -> real, sum: int -> real, n: int)
    requires forall k :: 0 <= k < n ==> sum(k) == g(k) + g2(k)
    ensures Dot(f, sum, n) == Dot(f, g, n) + Dot(f, g2, n) && Dot(sum, f, n) == Dot(g, f, n) + Dot(g2, f, n)
  {
    forall k | 0 <= k < n
      ensures Times(f, sum)(k) == Times(f, g)(k) + Times(f, g2)(k)
      ensures Times(sum, f)(k) == Times(g, f)(k) + Times(g2, f)(k)
    {
      Distribute(f(k), g(k), g2(k));
    }
    SumAdd(Times(f, g), Times(f, g2), Times(f, sum), 0, n);
    SumAdd(Times(g, f), Times(g2, f), Times(sum, f), 0, n);
  }
  lemma Distribute(a: real, b: real, c: real)
    ensures a * (b + c) == a * b + a * c && (b + c) * a == b * a + c * a
  {
  }

  /** The initial-state run c and the terminal-state run d of the same sequence. */
  ghost predicate Dual(c: Run, d: Run) {
    && !c.reverse && !c.transposeM && d.reverse && d.transposeM
    && c.dk == d.dk && c.s == d.s && c.e == d.e && c.mt == d.mt && c.mask == d.mask
  }
  /** Column v of h on entering chunk idx, and of its own contribution; and of d. */
  function HCol(c: Run, idx: int, v: int): int -> real
    requires c.s <= idx
  {
    (k: int) => State(c, idx - c.s, k, v)
  }
  function DCol(d: Run, idx: int, v: int): int -> real
    requires idx < d.e
  {
    (k: int) => State(d, d.e - 1 - idx, k, v)
  }
  function OwnCol(c: Run, idx: int, v: int): int -> real { (k: int) => StoredAt(c.vFirst, c.ht, idx, k, v) }

  lemma HNext(c: Run, idx: int, v: int, k: int)
    requires !c.reverse && !c.transposeM && c.s <= idx
    ensures HCol(c, idx + 1, v)(k) ==
      OwnCol(c, idx, v)(k) + (if c.mask(idx) != 0 then Apply(Transition(c.mt, idx), HCol(c, idx, v), c.dk)(k) else 0.0)
  {
    var i := idx - c.s;
    assert Visit(c, i) == idx && State(c, i + 1, k, v) == HCol(c, idx + 1, v)(k);
    SumCongruent(Passed(c, i, k, v), Times(RowOf(Transition(c.mt, idx), k), HCol(c, idx, v)), 0, c.dk);
  }
  lemma DPrev(d: Run, idx: int, v: int, k: int)
    requires d.reverse && d.transposeM && idx < d.e
    ensures DCol(d, idx - 1, v)(k) ==
      OwnCol(d, idx, v)(k) + (if d.mask(idx) != 0 then ApplyT(Transition(d.mt, idx), DCol(d, idx, v), d.dk)(k) else 0.0)
  {
    var i := d.e - 1 - idx;
    assert Visit(d, i) == idx && State(d, i + 1, k, v) == DCol(d, idx - 1, v)(k);
    SumCongruent(Passed(d, i, k, v), Times(ColOf(Transition(d.mt, idx), k), DCol(d, idx, v)), 0, d.dk);
  }
  /** The transition drops out of the difference. */
  lemma Balance(n: int, m: Mat, d: int -> real, h: int -> real, hOwn: int -> real, dOwn: int -> real,
                hNext: int -> real, dPrev: int -> real)
    requires forall k :: 0 <= k < n ==> hNext(k) == hOwn(k) + Apply(m, h, n)(k)
    requires forall k :: 0 <= k < n ==> dPrev(k) == dOwn(k) + ApplyT(m, d, n)(k)
    ensures Dot(d, hNext, n) - Dot(dPrev, h, n) == Dot(d, hOwn, n) - Dot(dOwn, h, n)
  {
    DotAdd(d, hOwn, Apply(m, h, n), hNext, n);
    DotAdd(h, dOwn, ApplyT(m, d, n), dPrev, n);
    Adjoint(m, d, h, n);
  }
  lemma BalanceMasked(n: int, d: int -> real, h: int -> real, hOwn: int -> real, dOwn: int -> real,
                      hNext: int -> real, dPrev: int -> real)
    requires forall k :: 0 <= k < n ==> hNext(k) == hOwn(k) && dPrev(k) == dOwn(k)
    ensures Dot(d, hNext, n) - Dot(dPrev, h, n) == Dot(d, hOwn, n) - Dot(dOwn, h, n)
  {
    SumCongruent(Times(d, hNext), Times(d, hOwn), 0, n);
    SumCongruent(Times(dPrev, h), Times(dOwn, h), 0, n);
  }
  /** One step of the pairing, in one column. */
  lemma ColumnStep(c: Run, d: Run, idx: int, v: int)
    requires Dual(c, d) && c.s < idx < c.e - 1
    ensures Dot(DCol(d, idx, v), HCol(c, idx + 1, v), c.dk) - Dot(DCol(d, idx - 1, v), HCol(c, idx, v), c.dk)
         == Dot(DCol(d, idx, v), OwnCol(c, idx, v), c.dk) - Dot(OwnCol(d, idx, v), HCol(c, idx, v), c.dk)
  {
    var m, h, dd := Transition(c.mt, idx), HCol(c, idx, v), DCol(d, idx, v);
    var hn, dp := HCol(c, idx + 1, v), DCol(d, idx - 1, v);
    if c.mask(idx) != 0 {
      forall k | 0 <= k < c.dk ensures hn(k) == OwnCol(c, idx, v)(k) + Apply(m, h, c.dk)(k) { HNext(c, idx, v, k); }
      forall k | 0 <= k < c.dk ensures dp(k) == OwnCol(d, idx, v)(k) + ApplyT(m, dd, c.dk)(k) { DPrev(d, idx, v, k); }
      Balance(c.dk, m, dd, h, OwnCol(c, idx, v), OwnCol(d, idx, v), hn, dp);
    } else {
      forall k | 0 <= k < c.dk ensures hn(k) == OwnCol(c, idx, v)(k) && dp(k) == OwnCol(d, idx, v)(k) {
        HNext(c, idx, v, k);
        DPrev(d, idx, v, k);
      }
      BalanceMasked(c.dk, dd, h, OwnCol(c, idx, v), OwnCol(d, idx, v), hn, dp);
    }
  }

  /** Inner products of whole states: over all value columns. */
  function Paired(c: Run, d: Run, dv: int, idx: int): real
    requires c.s <= idx < d.e - 1
  {
    Sum(PairedCol(c, d, idx), 0, dv)
  }
  function PairedCol(c: Run, d: Run, idx: int): int -> real
    requires c.s <= idx < d.e - 1
  {
    (v: int) => Dot(DCol(d, idx, v), HCol(c, idx + 1, v), c.dk)
  }
  function InjectedCol(c: Run, d: Run, idx: int): int -> real
    requires c.s <= idx < d.e
  {
    (v: int) => Dot(DCol(d, idx, v), OwnCol(c, idx, v), c.dk) - Dot(OwnCol(d, idx, v), HCol(c, idx, v), c.dk)
  }
  /** <d[idx], ht[idx]> - <dt[idx], h[idx]>. */
  function Injected(c: Run, d: Run, dv: int, idx: int): real
    requires c.s <= idx < d.e
  {
    Sum(InjectedCol(c, d, idx), 0, dv)
  }
  lemma PairStep(c: Run, d: Run, dv: int, idx: int)
    requires Dual(c, d) && c.s < idx < c.e - 1
    ensures Paired(c, d, dv, idx) == Paired(c, d, dv, idx - 1) + Injected(c, d, dv, idx)
  {
    forall v | 0 <= v < dv
      ensures PairedCol(c, d, idx)(v) == PairedCol(c, d, idx - 1)(v) + InjectedCol(c, d, idx)(v)
    {
      ColumnStep(c, d, idx, v);
    }
    SumAdd(PairedCol(c, d, idx - 1), InjectedCol(c, d, idx), PairedCol(c, d, idx), 0, dv);
  }
  /** Sum over s < idx <= last of the injected terms. */
  function AllInjected(c: Run, d: Run, dv: int, last: int): real
    requires c.s <= last < d.e
    decreases last - c.s
  {
    if last == c.s then 0.0 else AllInjected(c, d, dv, last - 1) + Injected(c, d, dv, last)
  }
  /** The two corrections are dual: the pairing of d with the next h changes along the sequence by exactly what the
      chunks themselves inject. */
  lemma {:induction false} Telescopes(c: Run, d: Run, dv: int, last: int)
    requires Dual(c, d) && c.s <= last < c.e - 1
    ensures Paired(c, d, dv, last) - Paired(c, d, dv, c.s) == AllInjected(c, d, dv, last)
    decreases last - c.s
  {
    if c.s < last {
      Telescopes(c, d, dv, last - 1);
      PairStep(c, d, dv, last);
    }
  }
}
