/** The whole launch of the state correction: every sequence, head and column block, in any order of the programs. */
module CorrectLaunch {
  import opened Arith
  import opened Sums
  import opened CorrectH0

  type Tensor4 = (int, int, int, int) -> real

  /** Sequence bb owns chunks seqMap(bb) .. seqMap(bb + 1) - 1; states are cut into numDv blocks of `block` columns. */
  datatype Launch = Launch(batch: nat, heads: nat, dk: int, block: nat, numDv: nat, reverse: bool, transposeM: bool,
                           vFirst: bool, zeroInit: bool, seqMap: int -> int, raw: Tensor4, ht: Tensor4, mt: Tensor4,
                           mask: (int, int) -> int)

  function HeadOf(t: Tensor4, bh: int): Tensor { (i: int, a: int, b: int) => t(i, bh, a, b) }
  function PutHead(t: Tensor4, bh: int, cp: Tensor): Tensor4 {
    (i: int, h: int, a: int, b: int) => if h == bh then cp(i, a, b) else t(i, h, a, b)
  }
  function RawOf(t: Tensor4, bb: int, bh: int): Mat { (a: int, b: int) => t(bb, bh, a, b) }
  function MaskOf(m: (int, int) -> int, bh: int): int -> int { (i: int) => m(i, bh) }
  function RunOf(l: Launch, bb: int, bh: int): Run {
    Run(l.dk, l.reverse, l.transposeM, l.vFirst, l.zeroInit, l.seqMap(bb), l.seqMap(bb + 1),
        RawOf(l.raw, bb, bh), HeadOf(l.ht, bh), HeadOf(l.mt, bh), MaskOf(l.mask, bh))
  }
  predicate Rises(l: Launch, bb: int) { l.seqMap(bb) <= l.seqMap(bb + 1) }
  ghost predicate Monotone(l: Launch) { forall bb :: 0 <= bb < l.batch ==> Rises(l, bb) }

  // ----- program numbers

  datatype Program = Program(bb: int, bh: int, bv: int)
  predicate IsProgram(l: Launch, q: Program) { 0 <= q.bb < l.batch && 0 <= q.bh < l.heads && 0 <= q.bv < l.numDv }
  function Programs(l: Launch): int { l.numDv * l.heads * l.batch }
  function ProgramAt(l: Launch, p: int): Program {
    if l.numDv > 0 && l.heads > 0 then
      Program(p / l.numDv / l.heads, p / l.numDv % l.heads, p % l.numDv)
    else
      Program(0, 0, 0)
  }
  function NumberOf(l: Launch, q: Program): int { (q.bb * l.heads + q.bh) * l.numDv + q.bv }

  lemma Factors(n: nat, h: nat, b: nat)
    requires n * h * b > 0
    ensures n > 0 && h > 0
  {
  }
  /** Program numbers and (sequence, head, column block) determine each other. */
  lemma ProgramNumbers(l: Launch, p: int)
    requires 0 <= p < Programs(l)
    ensures IsProgram(l, ProgramAt(l, p)) && NumberOf(l, ProgramAt(l, p)) == p
  {
    Factors(l.numDv, l.heads, l.batch);
    DivModLaw(p, l.numDv);
    DivModLaw(p / l.numDv, l.heads);
    assert Programs(l) == l.batch * l.heads * l.numDv;
    DivBelow(p, l.numDv, l.batch * l.heads);
    DivBelow(p / l.numDv, l.heads, l.batch);
  }
  lemma NumberedProgram(l: Launch, q: Program)
    requires IsProgram(l, q)
    ensures 0 <= NumberOf(l, q) < Programs(l) && ProgramAt(l, NumberOf(l, q)) == q
  {
    TableAt(q.bb, q.bh, l.batch, l.heads);
    TableAt(q.bb * l.heads + q.bh, q.bv, l.batch * l.heads, l.numDv);
    assert Programs(l) == l.batch * l.heads * l.numDv;
  }

  // ----- what a program delivers, and what it leaves alone

  /** Every chunk of sequence bb has received its state in head bh and column block bv. */
  ghost predicate Done(l: Launch, out: Tensor4, q: Program) {
    var c := RunOf(l, q.bb, q.bh);
    forall i: nat :: i < Chunks(c) ==> Delivered(c, HeadOf(out, q.bh), l.block, q.bv * l.block, i)
  }
  lemma {:induction false} SequencesApart(l: Launch, a: int, b: int)
    requires Monotone(l) && 0 <= a < b <= l.batch
    ensures l.seqMap(a + 1) <= l.seqMap(b)
    decreases b - a
  {
    if a + 1 < b {
      SequencesApart(l, a, b - 1);
      assert Rises(l, b - 1);
    }
  }
  lemma KeptDelivered(c: Run, d: Run, cp0: Tensor, cp: Tensor, block: int, start: int, start2: int,
                      lo: int, hi: int, i: nat)
    requires Kept(c, cp0, cp, block, start, lo, hi) && Delivered(d, cp0, block, start2, i)
    requires c.vFirst == d.vFirst && c.dk == d.dk
    requires !(lo <= Visit(d, i) < hi) || start2 + block <= start || start + block <= start2
    ensures Delivered(d, cp, block, start2, i)
  {
    var idx := Visit(d, i);
    forall k, v | 0 <= k < d.dk && start2 <= v < start2 + block
      ensures StoredAt(d.vFirst, cp, idx, k, v) == State(d, i, k, v)
    {
      assert StoredAt(d.vFirst, cp0, idx, k, v) == State(d, i, k, v);
      if d.vFirst { assert cp(idx, v, k) == cp0(idx, v, k); } else { assert cp(idx, k, v) == cp0(idx, k, v); }
    }
  }
  lemma BlocksApart(p: int, q: int, d: int)
    requires d >= 0 && p < q
    ensures p * d + d <= q * d
  {
    MulMono(p + 1, q, d);
  }
  lemma SameHead(out: Tensor4, bh: int, cp: Tensor, c: Run, block: int, start: int, i: nat)
    ensures Delivered(c, HeadOf(PutHead(out, bh, cp), bh), block, start, i) <==> Delivered(c, cp, block, start, i)
  {
    var h := HeadOf(PutHead(out, bh, cp), bh);
    forall k, v ensures StoredAt(c.vFirst, h, Visit(c, i), k, v) == StoredAt(c.vFirst, cp, Visit(c, i), k, v) {}
  }
  lemma OtherHead(out: Tensor4, bh: int, cp: Tensor, h2: int, c: Run, block: int, start: int, i: nat)
    requires h2 != bh
    ensures Delivered(c, HeadOf(PutHead(out, bh, cp), h2), block, start, i) <==>
      Delivered(c, HeadOf(out, h2), block, start, i)
  {
    var h := HeadOf(PutHead(out, bh, cp), h2);
    forall k, v
      ensures StoredAt(c.vFirst, h, Visit(c, i), k, v) == StoredAt(c.vFirst, HeadOf(out, h2), Visit(c, i), k, v)
    {
    }
  }
  /** Chunk i of r is kept by program q, which writes chunks lo .. hi - 1 of its own head and column block. */
  lemma KeptAt(l: Launch, out: Tensor4, q: Program, r: Program, cp: Tensor, lo: int, hi: int, i: nat)
    requires Delivered(RunOf(l, r.bb, r.bh), HeadOf(out, r.bh), l.block, r.bv * l.block, i)
    requires Kept(RunOf(l, q.bb, q.bh), HeadOf(out, q.bh), cp, l.block, q.bv * l.block, lo, hi)
    requires q.bh != r.bh || q.bv != r.bv || !(lo <= Visit(RunOf(l, r.bb, r.bh), i) < hi)
    ensures Delivered(RunOf(l, r.bb, r.bh), HeadOf(PutHead(out, q.bh, cp), r.bh), l.block, r.bv * l.block, i)
  {
    var c, d := RunOf(l, q.bb, q.bh), RunOf(l, r.bb, r.bh);
    if q.bh != r.bh {
      OtherHead(out, q.bh, cp, r.bh, d, l.block, r.bv * l.block, i);
    } else {
      if q.bv < r.bv { BlocksApart(q.bv, r.bv, l.block); } else if r.bv < q.bv { BlocksApart(r.bv, q.bv, l.block); }
      KeptDelivered(c, d, HeadOf(out, q.bh), cp, l.block, q.bv * l.block, r.bv * l.block, lo, hi, i);
      SameHead(out, q.bh, cp, d, l.block, r.bv * l.block, i);
    }
  }
  /** A program of a sequence with chunks never disturbs another one's result. */
  lemma OthersKept(l: Launch, out: Tensor4, q: Program, r: Program, cp: Tensor)
    requires Monotone(l) && IsProgram(l, q) && IsProgram(l, r) && q != r && Done(l, out, r)
    requires var c := RunOf(l, q.bb, q.bh); Kept(c, HeadOf(out, q.bh), cp, l.block, q.bv * l.block, c.s, c.e)
    ensures Done(l, PutHead(out, q.bh, cp), r)
  {
    var c, d := RunOf(l, q.bb, q.bh), RunOf(l, r.bb, r.bh);
    forall i: nat | i < Chunks(d)
      ensures Delivered(d, HeadOf(PutHead(out, q.bh, cp), r.bh), l.block, r.bv * l.block, i)
    {
      if q.bb < r.bb { SequencesApart(l, q.bb, r.bb); } else if r.bb < q.bb { SequencesApart(l, r.bb, q.bb); }
      KeptAt(l, out, q, r, cp, c.s, c.e, i);
    }
  }
  lemma ItselfDone(l: Launch, out: Tensor4, q: Program, cp: Tensor)
    requires var c := RunOf(l, q.bb, q.bh); Progress(c, HeadOf(out, q.bh), cp, l.block, q.bv * l.block, Chunks(c))
    ensures Done(l, PutHead(out, q.bh, cp), q)
  {
    var c := RunOf(l, q.bb, q.bh);
    forall i: nat | i < Chunks(c)
      ensures Delivered(c, HeadOf(PutHead(out, q.bh, cp), q.bh), l.block, q.bv * l.block, i)
    {
      SameHead(out, q.bh, cp, c, l.block, q.bv * l.block, i);
    }
  }

  // ----- empty sequences

  predicate Empty(l: Launch, q: Program) { l.seqMap(q.bb) == l.seqMap(q.bb + 1) }
  /** State i of r is, in column block bv, the initial state of q. */
  ghost predicate SameState(l: Launch, q: Program, r: Program, i: nat) {
    forall k, v :: 0 <= k < l.dk && q.bv * l.block <= v < q.bv * l.block + l.block ==>
      State(RunOf(l, r.bb, r.bh), i, k, v) == Start(RunOf(l, q.bb, q.bh), k, v)
  }
  /** If q is empty and strays into a chunk of r, what it writes there is what r should. */
  ghost predicate Harmless(l: Launch, q: Program, r: Program) {
    var c, d := RunOf(l, q.bb, q.bh), RunOf(l, r.bb, r.bh);
    Empty(l, q) && r.bh == q.bh && r.bv == q.bv ==>
      forall i: nat :: i < Chunks(d) && Visit(d, i) == LastChunk(c) ==> SameState(l, q, r, i)
  }
  ghost predicate AllHarmless(l: Launch) { forall q, r :: IsProgram(l, q) && IsProgram(l, r) ==> Harmless(l, q, r) }
  lemma StrayDelivers(l: Launch, out: Tensor4, q: Program, r: Program, cp: Tensor, i: nat)
    requires Stray(RunOf(l, q.bb, q.bh), cp, l.block, q.bv * l.block) && r.bh == q.bh && r.bv == q.bv
    requires Visit(RunOf(l, r.bb, r.bh), i) == LastChunk(RunOf(l, q.bb, q.bh))
    ensures Delivered(RunOf(l, r.bb, r.bh), HeadOf(PutHead(out, q.bh, cp), r.bh), l.block, r.bv * l.block, i)
            <==> SameState(l, q, r, i)
  {
    var c, d, w := RunOf(l, q.bb, q.bh), RunOf(l, r.bb, r.bh), q.bv * l.block;
    SameHead(out, q.bh, cp, d, l.block, w, i);
    forall k, v | 0 <= k < l.dk && w <= v < w + l.block
      ensures StoredAt(d.vFirst, cp, Visit(d, i), k, v) == Start(c, k, v)
    {
      assert StoredAt(c.vFirst, cp, LastChunk(c), k, v) == Start(c, k, v);
    }
    if Delivered(d, cp, l.block, w, i) {
      forall k, v | 0 <= k < l.dk && w <= v < w + l.block
        ensures State(d, i, k, v) == Start(c, k, v)
      {
        assert StoredAt(d.vFirst, cp, Visit(d, i), k, v) == State(d, i, k, v);
      }
    }
  }
  /** What the program of an empty sequence leaves behind is right for r if and only if it is harmless. */
  lemma EmptySpoils(l: Launch, out: Tensor4, q: Program, r: Program, cp: Tensor)
    requires Empty(l, q) && Stray(RunOf(l, q.bb, q.bh), cp, l.block, q.bv * l.block)
    requires var c := RunOf(l, q.bb, q.bh);
      Kept(c, HeadOf(out, q.bh), cp, l.block, q.bv * l.block, LastChunk(c), LastChunk(c) + 1)
    ensures Done(l, PutHead(out, q.bh, cp), r) ==> Harmless(l, q, r)
    ensures Done(l, out, r) && Harmless(l, q, r) ==> Done(l, PutHead(out, q.bh, cp), r)
  {
    var c, d := RunOf(l, q.bb, q.bh), RunOf(l, r.bb, r.bh);
    forall i: nat | i < Chunks(d) && r.bh == q.bh && r.bv == q.bv && Visit(d, i) == LastChunk(c)
      ensures Delivered(d, HeadOf(PutHead(out, q.bh, cp), r.bh), l.block, r.bv * l.block, i) <==> SameState(l, q, r, i)
    {
      StrayDelivers(l, out, q, r, cp, i);
    }
    forall i: nat | i < Chunks(d) && Done(l, out, r) && !(r.bh == q.bh && r.bv == q.bv && Visit(d, i) == LastChunk(c))
      ensures Delivered(d, HeadOf(PutHead(out, q.bh, cp), r.bh), l.block, r.bv * l.block, i)
    {
      KeptAt(l, out, q, r, cp, LastChunk(c), LastChunk(c) + 1, i);
    }
  }

  // ----- the launch

  /** The output after program q has run. */
  function Ran(l: Launch, q: Program, before: Tensor4): Tensor4 {
    PutHead(before, q.bh, Output(RunOf(l, q.bb, q.bh), q.bv, l.block, HeadOf(before, q.bh)))
  }
  /** The output after the programs of `order`, one after the other. */
  function Launched(l: Launch, order: seq<int>, out0: Tensor4): Tensor4
    decreases |order|
  {
    if order == [] then out0
    else Ran(l, ProgramAt(l, order[|order| - 1]), Launched(l, order[..|order| - 1], out0))
  }

  ghost predicate AllDone(l: Launch, out: Tensor4) { forall q :: IsProgram(l, q) ==> Done(l, out, q) }
  ghost predicate HarmlessToAll(l: Launch, q: Program) { forall r :: IsProgram(l, r) ==> Harmless(l, q, r) }
  predicate Numbers(l: Launch, order: seq<int>) { forall j :: 0 <= j < |order| ==> 0 <= order[j] < Programs(l) }
  ghost predicate Covers(l: Launch, order: seq<int>) { forall p :: 0 <= p < Programs(l) ==> p in order }
  predicate Distinct(order: seq<int>) { forall i, j :: 0 <= i < j < |order| ==> order[i] != order[j] }
  /** Every program once. */
  ghost predicate Complete(l: Launch, order: seq<int>) { Numbers(l, order) && Covers(l, order) && Distinct(order) }

  lemma RanDone(l: Launch, q: Program, before: Tensor4)
    requires Monotone(l) && IsProgram(l, q)
    ensures Done(l, Ran(l, q, before), q)
  {
    var c := RunOf(l, q.bb, q.bh);
    assert Rises(l, q.bb);
    OutputDelivers(c, q.bv, l.block, HeadOf(before, q.bh));
    if c.s < c.e { ItselfDone(l, before, q, Output(c, q.bv, l.block, HeadOf(before, q.bh))); }
  }
  lemma RanKeeps(l: Launch, q: Program, r: Program, before: Tensor4)
    requires Monotone(l) && IsProgram(l, q) && IsProgram(l, r) && r != q && Done(l, before, r) && Harmless(l, q, r)
    ensures Done(l, Ran(l, q, before), r)
  {
    var c := RunOf(l, q.bb, q.bh);
    var cp := Output(c, q.bv, l.block, HeadOf(before, q.bh));
    assert Rises(l, q.bb);
    OutputDelivers(c, q.bv, l.block, HeadOf(before, q.bh));
    if c.s < c.e { OthersKept(l, before, q, r, cp); } else { EmptySpoils(l, before, q, r, cp); }
  }
  lemma RanSpoils(l: Launch, q: Program, r: Program, before: Tensor4)
    requires Monotone(l) && IsProgram(l, q) && Done(l, Ran(l, q, before), r)
    ensures Harmless(l, q, r)
  {
    var c := RunOf(l, q.bb, q.bh);
    assert Rises(l, q.bb);
    OutputDelivers(c, q.bv, l.block, HeadOf(before, q.bh));
    if c.s == c.e { EmptySpoils(l, before, q, r, Output(c, q.bv, l.block, HeadOf(before, q.bh))); }
  }

  /** A harmless launch: whatever has run is done. */
  lemma {:induction false} RunIsDone(l: Launch, order: seq<int>, out0: Tensor4, j: nat)
    requires Monotone(l) && Numbers(l, order) && AllHarmless(l) && j < |order|
    ensures Done(l, Launched(l, order, out0), ProgramAt(l, order[j]))
    decreases |order|
  {
    var n := |order| - 1;
    var q, r, before := ProgramAt(l, order[n]), ProgramAt(l, order[j]), Launched(l, order[..n], out0);
    ProgramNumbers(l, order[n]);
    ProgramNumbers(l, order[j]);
    if r == q {
      RanDone(l, q, before);
    } else {
      RunIsDone(l, order[..n], out0, j);
      RanKeeps(l, q, r, before);
    }
  }
  lemma HarmlessIsDone(l: Launch, order: seq<int>, out0: Tensor4)
    requires Monotone(l) && Numbers(l, order) && Covers(l, order) && AllHarmless(l)
    ensures AllDone(l, Launched(l, order, out0))
  {
    forall q | IsProgram(l, q)
      ensures Done(l, Launched(l, order, out0), q)
    {
      NumberedProgram(l, q);
      assert NumberOf(l, q) in order;
      var j :| 0 <= j < |order| && order[j] == NumberOf(l, q);
      RunIsDone(l, order, out0, j);
    }
  }
  lemma LastHarmless(l: Launch, order: seq<int>, out0: Tensor4)
    requires Monotone(l) && Numbers(l, order) && order != [] && AllDone(l, Launched(l, order, out0))
    ensures HarmlessToAll(l, ProgramAt(l, order[|order| - 1]))
  {
    var n := |order| - 1;
    ProgramNumbers(l, order[n]);
    forall r | IsProgram(l, r)
      ensures Harmless(l, ProgramAt(l, order[n]), r)
    {
      RanSpoils(l, ProgramAt(l, order[n]), r, Launched(l, order[..n], out0));
    }
  }
  /** The programs of the launch, in any order. */
  method CorrectStates(l: Launch, order: seq<int>, out0: Tensor4) returns (out: Tensor4)
    requires Monotone(l) && Numbers(l, order)
    ensures out == Launched(l, order, out0)
    ensures Covers(l, order) && Unharmed(l) ==> Correct(l, out)
    ensures order != [] && Correct(l, out) ==> HarmlessToAll(l, ProgramAt(l, order[|order| - 1]))
  {
    out := out0;
    var i := 0;
    while i < |order|
      invariant 0 <= i <= |order| && out == Launched(l, order[..i], out0)
    {
      ProgramNumbers(l, order[i]);
      var q := ProgramAt(l, order[i]);
      var c := RunOf(l, q.bb, q.bh);
      assert Rises(l, q.bb);
      var cp := KernelBody(c, q.bv, l.block, HeadOf(out, q.bh));
      out := PutHead(out, q.bh, cp);
      assert order[..i + 1][..i] == order[..i];
      i := i + 1;
    }
    assert order[..i] == order;
    HarmDefines(l);
    DoneDefines(l, out);
    if Covers(l, order) && AllHarmless(l) { HarmlessIsDone(l, order, out0); }
    if order != [] && AllDone(l, out) { LastHarmless(l, order, out0); }
  }

  // ----- the definition, on the tensors of the launch alone

  function StartState(l: Launch, bb: int, bh: int, k: int, v: int): real {
    if l.zeroInit then 0.0 else if l.vFirst then l.raw(bb, bh, v, k) else l.raw(bb, bh, k, v)
  }
  /** The chunks of a sequence, forward or in reverse. */
  function Chunk(l: Launch, bb: int, i: int): int {
    if l.reverse then l.seqMap(bb + 1) - 1 - i else l.seqMap(bb) + i
  }
  /** The state of sequence bb and head bh on entering its i-th chunk. */
  function StateOf(l: Launch, bb: int, bh: int, i: nat, k: int, v: int): real
    decreases i, 0
  {
    if i == 0 then StartState(l, bb, bh, k, v)
    else
      var idx := Chunk(l, bb, i - 1);
      (if l.vFirst then l.ht(idx, bh, v, k) else l.ht(idx, bh, k, v))
      + (if l.mask(idx, bh) != 0 then Sum(Carried(l, bb, bh, i - 1, k, v), 0, l.dk) else 0.0)
  }
  function Carried(l: Launch, bb: int, bh: int, i: nat, k: int, v: int): int -> real
    decreases i, 1
  {
    (m: int) =>
      (if l.transposeM then l.mt(Chunk(l, bb, i), bh, m, k) else l.mt(Chunk(l, bb, i), bh, k, m))
      * StateOf(l, bb, bh, i, m, v)
  }
  function OutAt(l: Launch, out: Tensor4, idx: int, bh: int, k: int, v: int): real {
    if l.vFirst then out(idx, bh, v, k) else out(idx, bh, k, v)
  }
  predicate InState(l: Launch, k: int, v: int) { 0 <= k < l.dk && 0 <= v < l.numDv * l.block }
  predicate IsChunk(l: Launch, bb: int, bh: int, i: int) {
    0 <= bb < l.batch && 0 <= bh < l.heads && 0 <= i < l.seqMap(bb + 1) - l.seqMap(bb)
  }
  /** Every chunk of every sequence and head holds its state. */
  ghost predicate Correct(l: Launch, out: Tensor4) {
    forall bb, bh, i: nat, k, v :: IsChunk(l, bb, bh, i) && InState(l, k, v) ==>
      OutAt(l, out, Chunk(l, bb, i), bh, k, v) == StateOf(l, bb, bh, i, k, v)
  }

  lemma CarriedIs(l: Launch, bb: int, bh: int, i: nat, k: int, v: int, m: int)
    requires State(RunOf(l, bb, bh), i, m, v) == StateOf(l, bb, bh, i, m, v)
    ensures Passed(RunOf(l, bb, bh), i, k, v)(m) == Carried(l, bb, bh, i, k, v)(m)
  {
    var c := RunOf(l, bb, bh);
    var a := if l.transposeM then l.mt(Chunk(l, bb, i), bh, m, k) else l.mt(Chunk(l, bb, i), bh, k, m);
    assert M(c, Visit(c, i), k, m) == a;
    assert Passed(c, i, k, v)(m) == a * State(c, i, m, v);
  }
  /** The recurrence a program runs is that of its sequence and head. */
  lemma {:induction false} StateIs(l: Launch, bb: int, bh: int, i: nat, k: int, v: int)
    ensures State(RunOf(l, bb, bh), i, k, v) == StateOf(l, bb, bh, i, k, v)
    decreases i
  {
    if i > 0 {
      var f, g := Passed(RunOf(l, bb, bh), i - 1, k, v), Carried(l, bb, bh, i - 1, k, v);
      forall m
        ensures f(m) == g(m)
      {
        StateIs(l, bb, bh, i - 1, m, v);
        CarriedIs(l, bb, bh, i - 1, k, v, m);
      }
      SumCongruent(f, g, 0, l.dk);
    }
  }
  lemma DoneAt(l: Launch, out: Tensor4, q: Program, i: nat, k: int, v: int)
    requires Done(l, out, q) && i < l.seqMap(q.bb + 1) - l.seqMap(q.bb) && 0 <= k < l.dk
    requires q.bv * l.block <= v < q.bv * l.block + l.block
    ensures OutAt(l, out, Chunk(l, q.bb, i), q.bh, k, v) == StateOf(l, q.bb, q.bh, i, k, v)
  {
    var c := RunOf(l, q.bb, q.bh);
    assert Delivered(c, HeadOf(out, q.bh), l.block, q.bv * l.block, i);
    assert StoredAt(c.vFirst, HeadOf(out, q.bh), Visit(c, i), k, v) == State(c, i, k, v);
    StateIs(l, q.bb, q.bh, i, k, v);
  }
  lemma ColumnOf(l: Launch, v: int) returns (bv: int)
    requires 0 <= v < l.numDv * l.block
    ensures 0 <= bv < l.numDv && bv * l.block <= v < bv * l.block + l.block
  {
    assert l.block > 0;
    bv := v / l.block;
    DivModLaw(v, l.block);
    DivBelow(v, l.block, l.numDv);
  }
  lemma DoneIsCorrect(l: Launch, out: Tensor4)
    requires AllDone(l, out)
    ensures Correct(l, out)
  {
    forall bb, bh, i: nat, k, v | IsChunk(l, bb, bh, i) && InState(l, k, v)
      ensures OutAt(l, out, Chunk(l, bb, i), bh, k, v) == StateOf(l, bb, bh, i, k, v)
    {
      var bv := ColumnOf(l, v);
      assert IsProgram(l, Program(bb, bh, bv));
      DoneAt(l, out, Program(bb, bh, bv), i, k, v);
    }
  }
  lemma ColumnsInside(l: Launch, bv: int, v: int)
    requires 0 <= bv < l.numDv && bv * l.block <= v < bv * l.block + l.block
    ensures 0 <= v < l.numDv * l.block
  {
    MulMono(0, bv, l.block);
    MulMono(bv + 1, l.numDv, l.block);
  }
  lemma CorrectIsDone(l: Launch, out: Tensor4, q: Program)
    requires Correct(l, out) && IsProgram(l, q)
    ensures Done(l, out, q)
  {
    var c := RunOf(l, q.bb, q.bh);
    forall i: nat, k, v | i < Chunks(c) && 0 <= k < c.dk && q.bv * l.block <= v < q.bv * l.block + l.block
      ensures StoredAt(c.vFirst, HeadOf(out, q.bh), Visit(c, i), k, v) == State(c, i, k, v)
    {
      ColumnsInside(l, q.bv, v);
      StateIs(l, q.bb, q.bh, i, k, v);
      assert IsChunk(l, q.bb, q.bh, i) && InState(l, k, v);
      assert OutAt(l, out, Chunk(l, q.bb, i), q.bh, k, v) == StateOf(l, q.bb, q.bh, i, k, v);
    }
  }
  /** The programs' own account of what is done is the definition. */
  lemma DoneDefines(l: Launch, out: Tensor4)
    ensures AllDone(l, out) <==> Correct(l, out)
  {
    if AllDone(l, out) { DoneIsCorrect(l, out); }
    if Correct(l, out) {
      forall q | IsProgram(l, q) ensures Done(l, out, q) { CorrectIsDone(l, out, q); }
    }
  }

  /** No empty sequence bb strays into a chunk that should hold another state. */
  ghost predicate Unharmed(l: Launch) {
    forall bb, r, bh, i: nat, k, v ::
      EmptyAt(l, bb) && IsChunk(l, r, bh, i) && Chunk(l, r, i) == StrayChunk(l, bb) && InState(l, k, v) ==>
        StateOf(l, r, bh, i, k, v) == StartState(l, bb, bh, k, v)
  }
  lemma HarmlessAt(l: Launch, bb: int, r: int, bh: int, i: nat, k: int, v: int)
    requires AllHarmless(l) && EmptyAt(l, bb) && IsChunk(l, r, bh, i) && Chunk(l, r, i) == StrayChunk(l, bb)
    requires InState(l, k, v)
    ensures StateOf(l, r, bh, i, k, v) == StartState(l, bb, bh, k, v)
  {
    var bv := ColumnOf(l, v);
    var q, p := Program(bb, bh, bv), Program(r, bh, bv);
    assert IsProgram(l, q) && IsProgram(l, p) && Harmless(l, q, p);
    assert Visit(RunOf(l, r, bh), i) == LastChunk(RunOf(l, bb, bh));
    assert SameState(l, q, p, i);
    StateIs(l, r, bh, i, k, v);
  }
  lemma UnharmedAt(l: Launch, q: Program, r: Program, i: nat)
    requires Unharmed(l) && IsProgram(l, q) && IsProgram(l, r) && Empty(l, q) && r.bh == q.bh && r.bv == q.bv
    requires i < Chunks(RunOf(l, r.bb, r.bh)) && Visit(RunOf(l, r.bb, r.bh), i) == LastChunk(RunOf(l, q.bb, q.bh))
    ensures SameState(l, q, r, i)
  {
    forall k, v | 0 <= k < l.dk && q.bv * l.block <= v < q.bv * l.block + l.block
      ensures State(RunOf(l, r.bb, r.bh), i, k, v) == Start(RunOf(l, q.bb, q.bh), k, v)
    {
      ColumnsInside(l, q.bv, v);
      StateIs(l, r.bb, r.bh, i, k, v);
      assert EmptyAt(l, q.bb) && IsChunk(l, r.bb, r.bh, i) && InState(l, k, v);
      assert Chunk(l, r.bb, i) == StrayChunk(l, q.bb);
    }
  }
  lemma HarmDefines(l: Launch)
    ensures AllHarmless(l) <==> Unharmed(l)
  {
    if AllHarmless(l) {
      forall bb, r, bh, i: nat, k, v |
        EmptyAt(l, bb) && IsChunk(l, r, bh, i) && Chunk(l, r, i) == StrayChunk(l, bb) && InState(l, k, v)
        ensures StateOf(l, r, bh, i, k, v) == StartState(l, bb, bh, k, v)
      {
        HarmlessAt(l, bb, r, bh, i, k, v);
      }
    }
    if Unharmed(l) {
      forall q, r | IsProgram(l, q) && IsProgram(l, r)
        ensures Harmless(l, q, r)
      {
        var c, d := RunOf(l, q.bb, q.bh), RunOf(l, r.bb, r.bh);
        forall i: nat |
          Empty(l, q) && r.bh == q.bh && r.bv == q.bv && i < Chunks(d) && Visit(d, i) == LastChunk(c)
          ensures SameState(l, q, r, i)
        {
          UnharmedAt(l, q, r, i);
        }
      }
    }
  }

  // ----- which launches are right in every order

  ghost predicate RightInEveryOrder(l: Launch, out0: Tensor4) {
    forall order :: Complete(l, order) ==> Correct(l, Launched(l, order, out0))
  }
  /** All programs, p the last. */
  function Ending(n: nat, p: nat): seq<int>
    requires p < n
  {
    seq(n, (i: int) => if i < p then i else if i < n - 1 then i + 1 else p)
  }
  lemma EndingIs(l: Launch, p: nat)
    requires p < Programs(l)
    ensures var order := Ending(Programs(l), p); Complete(l, order) && |order| > 0 && order[|order| - 1] == p
  {
    var n := Programs(l);
    var order := Ending(n, p);
    forall x | 0 <= x < n
      ensures x in order
    {
      assert order[if x < p then x else if x == p then n - 1 else x - 1] == x;
    }
  }
  /** Right in every order, from any memory, if and only if no empty sequence overwrites a state with another. */
  lemma OrdersDecide(l: Launch, out0: Tensor4)
    requires Monotone(l)
    ensures RightInEveryOrder(l, out0) <==> Unharmed(l)
  {
    HarmDefines(l);
    if AllHarmless(l) {
      forall order | Complete(l, order)
        ensures Correct(l, Launched(l, order, out0))
      {
        HarmlessIsDone(l, order, out0);
        DoneDefines(l, Launched(l, order, out0));
      }
    }
    if RightInEveryOrder(l, out0) {
      forall q, r | IsProgram(l, q) && IsProgram(l, r)
        ensures Harmless(l, q, r)
      {
        LastDecides(l, out0, q, r);
      }
    }
  }
  lemma LastRight(l: Launch, order: seq<int>, out0: Tensor4, q: Program)
    requires Monotone(l) && Complete(l, order) && Correct(l, Launched(l, order, out0))
    requires order != [] && ProgramAt(l, order[|order| - 1]) == q
    ensures HarmlessToAll(l, q)
  {
    DoneDefines(l, Launched(l, order, out0));
    LastHarmless(l, order, out0);
  }
  lemma LastDecides(l: Launch, out0: Tensor4, q: Program, r: Program)
    requires Monotone(l) && RightInEveryOrder(l, out0) && IsProgram(l, q) && IsProgram(l, r)
    ensures Harmless(l, q, r)
  {
    NumberedProgram(l, q);
    EndingIs(l, NumberOf(l, q));
    LastRight(l, Ending(Programs(l), NumberOf(l, q)), out0, q);
  }

  lemma HarmAt(l: Launch, q: Program, r: Program, i: nat)
    requires Empty(l, q) && r.bh == q.bh && r.bv == q.bv && l.dk > 0 && l.block > 0
    requires i < Chunks(RunOf(l, r.bb, r.bh)) && Visit(RunOf(l, r.bb, r.bh), i) == LastChunk(RunOf(l, q.bb, q.bh))
    requires State(RunOf(l, r.bb, r.bh), i, 0, q.bv * l.block) != Start(RunOf(l, q.bb, q.bh), 0, q.bv * l.block)
    ensures !Harmless(l, q, r)
  {
    assert !SameState(l, q, r, i);
  }
  lemma BothPrograms(l: Launch, order: seq<int>)
    requires Programs(l) == 2 && order == [0, 1]
    ensures Complete(l, order)
  {
    assert order[0] == 0 && order[1] == 1;
  }
  lemma WrongAtLast(l: Launch, order: seq<int>, out0: Tensor4)
    requires Monotone(l) && Empty(l, Program(1, 0, 0)) && l.dk > 0 && l.block > 0
    requires IsProgram(l, Program(0, 0, 0)) && IsProgram(l, Program(1, 0, 0))
    requires Chunks(RunOf(l, 0, 0)) == 1 && Visit(RunOf(l, 0, 0), 0) == LastChunk(RunOf(l, 1, 0))
    requires State(RunOf(l, 0, 0), 0, 0, 0) != Start(RunOf(l, 1, 0), 0, 0)
    requires Numbers(l, order) && order != [] && ProgramAt(l, order[|order| - 1]) == Program(1, 0, 0)
    ensures !AllDone(l, Launched(l, order, out0))
  {
    var q, r := Program(1, 0, 0), Program(0, 0, 0);
    HarmAt(l, q, r, 0);
    if AllDone(l, Launched(l, order, out0)) { LastHarmless(l, order, out0); }
  }
  /** Two sequences of one and no chunk that start from different states, one head, one column. */
  predicate OneThenNone(l: Launch) {
    && l.batch == 2 && l.heads == 1 && l.dk == 1 && l.block == 1 && l.numDv == 1 && !l.reverse && !l.zeroInit
    && l.seqMap(0) == 0 && l.seqMap(1) == 1 && l.seqMap(2) == 1 && l.raw(0, 0, 0, 0) != l.raw(1, 0, 0, 0)
  }
  lemma OneThenNoneIs(l: Launch)
    requires OneThenNone(l)
    ensures Rises(l, 0) && Rises(l, 1) && Programs(l) == 2 && ProgramAt(l, 1) == Program(1, 0, 0)
    ensures IsProgram(l, Program(1, 0, 0)) && IsProgram(l, Program(0, 0, 0)) && Empty(l, Program(1, 0, 0))
    ensures Chunks(RunOf(l, 0, 0)) == 1 && Visit(RunOf(l, 0, 0), 0) == LastChunk(RunOf(l, 1, 0))
    ensures State(RunOf(l, 0, 0), 0, 0, 0) != Start(RunOf(l, 1, 0), 0, 0)
  {
  }
  /** An input and an order for which the launch is wrong, whatever the memory held: the empty sequence, run last,
      writes its own initial state over the first one's. */
  lemma EmptyDoesHarm(l: Launch, order: seq<int>, out0: Tensor4)
    requires OneThenNone(l) && order == [0, 1]
    ensures Complete(l, order) && !Correct(l, Launched(l, order, out0))
  {
    OneThenNoneIs(l);
    BothPrograms(l, order);
    WrongAtLast(l, order, out0);
    DoneDefines(l, Launched(l, order, out0));
  }
  function Spoiling(): Launch {
    Launch(2, 1, 1, 1, 1, false, false, false, false, (i: int) => if i <= 0 then 0 else 1,
           (b: int, h: int, x: int, y: int) => if b == 0 then 0.0 else 1.0, (i: int, h: int, x: int, y: int) => 0.0,
           (i: int, h: int, x: int, y: int) => 0.0, (i: int, h: int) => 0)
  }
  lemma SpoilingIs()
    ensures OneThenNone(Spoiling())
  {
  }

  // ----- which sequence maps are right for all data

  datatype Data = Data(raw: Tensor4, ht: Tensor4, mt: Tensor4, mask: (int, int) -> int)
  function Feed(l: Launch, x: Data): Launch { l.(raw := x.raw, ht := x.ht, mt := x.mt, mask := x.mask) }
  ghost predicate RightForAllData(l: Launch) { forall x, out0 :: RightInEveryOrder(Feed(l, x), out0) }

  predicate Sized(l: Launch) { l.heads > 0 && l.numDv > 0 && l.dk > 0 && l.block > 0 }
  predicate EmptyAt(l: Launch, bb: int) { 0 <= bb < l.batch && l.seqMap(bb) == l.seqMap(bb + 1) }
  /** Where the final copy of an empty sequence falls: before it, or in reverse just after. */
  function StrayChunk(l: Launch, bb: int): int { if l.reverse then l.seqMap(bb) else l.seqMap(bb) - 1 }
  predicate Owns(l: Launch, r: int, idx: int) { 0 <= r < l.batch && l.seqMap(r) <= idx < l.seqMap(r + 1) }
  /** Every empty sequence whose copy falls on a sequence at all falls on one of a single chunk, both starting at
      zero. */
  ghost predicate MapOk(l: Launch) {
    forall bb, r :: EmptyAt(l, bb) && Owns(l, r, StrayChunk(l, bb)) ==> l.zeroInit && l.seqMap(r + 1) == l.seqMap(r) + 1
  }

  lemma MapIsHarmless(l: Launch)
    requires Sized(l) ==> MapOk(l)
    ensures AllHarmless(l)
  {
    forall q, r | IsProgram(l, q) && IsProgram(l, r)
      ensures Harmless(l, q, r)
    {
      var c, d := RunOf(l, q.bb, q.bh), RunOf(l, r.bb, r.bh);
      forall i: nat | Empty(l, q) && i < Chunks(d) && Visit(d, i) == LastChunk(c)
        ensures SameState(l, q, r, i)
      {
        assert LastChunk(c) == StrayChunk(l, q.bb);
        if Sized(l) { assert EmptyAt(l, q.bb) && Owns(l, r.bb, StrayChunk(l, q.bb)); }
      }
    }
  }
  /** The copy falls on the last chunk its sequence visits. */
  lemma StrayIsLast(l: Launch, bb: int, r: int)
    requires Monotone(l) && EmptyAt(l, bb) && Owns(l, r, StrayChunk(l, bb))
    ensures if l.reverse then StrayChunk(l, bb) == l.seqMap(r) else StrayChunk(l, bb) == l.seqMap(r + 1) - 1
  {
    if r < bb { SequencesApart(l, r, bb); } else if bb < r { SequencesApart(l, bb, r); }
  }
  /** Data for which the copy of bb is wrong: bb alone starts from 1, and chunks contribute 1 when starts are zero. */
  function Revealing(l: Launch, bb: int): Data {
    Data((b: int, h: int, x: int, y: int) => if b == bb then 1.0 else 0.0,
         (i: int, h: int, x: int, y: int) => if l.zeroInit then 1.0 else 0.0,
         (i: int, h: int, x: int, y: int) => 0.0, (i: int, h: int) => 0)
  }
  lemma RevealedState(l: Launch, bb: int, r: int, i: nat)
    requires r != bb && (l.zeroInit ==> i > 0)
    ensures var m := Feed(l, Revealing(l, bb)); State(RunOf(m, r, 0), i, 0, 0) != Start(RunOf(m, bb, 0), 0, 0)
  {
  }
  lemma RevealsHarm(l: Launch, bb: int, r: int)
    requires Monotone(l) && Sized(l) && EmptyAt(l, bb) && Owns(l, r, StrayChunk(l, bb))
    requires !(l.zeroInit && l.seqMap(r + 1) == l.seqMap(r) + 1)
    ensures !AllHarmless(Feed(l, Revealing(l, bb)))
  {
    var m, q, p := Feed(l, Revealing(l, bb)), Program(bb, 0, 0), Program(r, 0, 0);
    var c, d := RunOf(m, bb, 0), RunOf(m, r, 0);
    var i: nat := Chunks(d) - 1;
    StrayIsLast(l, bb, r);
    assert Visit(d, i) == LastChunk(c);
    RevealedState(l, bb, r, i);
    assert !SameState(m, q, p, i);
    assert IsProgram(m, q) && IsProgram(m, p) && !Harmless(m, q, p);
  }
  lemma FeedMonotone(l: Launch, x: Data)
    requires Monotone(l)
    ensures Monotone(Feed(l, x))
  {
    forall bb | 0 <= bb < l.batch ensures Rises(Feed(l, x), bb) { assert Rises(l, bb); }
  }
  lemma FeedMap(l: Launch, x: Data)
    requires Sized(l) ==> MapOk(l)
    ensures Sized(Feed(l, x)) ==> MapOk(Feed(l, x))
  {
    var m := Feed(l, x);
    forall bb, r | Sized(m) && EmptyAt(m, bb) && Owns(m, r, StrayChunk(m, bb))
      ensures m.zeroInit && m.seqMap(r + 1) == m.seqMap(r) + 1
    {
      assert EmptyAt(l, bb) && Owns(l, r, StrayChunk(l, bb));
    }
  }
  lemma FeedBounds(l: Launch, x: Data)
    requires Sized(l) ==> Bounded(l)
    ensures Sized(Feed(l, x)) ==> Bounded(Feed(l, x))
  {
    var m := Feed(l, x);
    forall bb | Sized(m) && EmptyAt(m, bb)
      ensures m.seqMap(0) <= StrayChunk(m, bb) < m.seqMap(m.batch)
    {
      assert EmptyAt(l, bb);
    }
  }
  lemma MapSuffices(l: Launch, x: Data, out0: Tensor4)
    requires Monotone(l) && (Sized(l) ==> MapOk(l))
    ensures RightInEveryOrder(Feed(l, x), out0)
  {
    FeedMonotone(l, x);
    FeedMap(l, x);
    MapIsHarmless(Feed(l, x));
    HarmDefines(Feed(l, x));
    OrdersDecide(Feed(l, x), out0);
  }
  lemma MapNeeded(l: Launch, out0: Tensor4) returns (x: Data)
    requires Monotone(l) && Sized(l) && !MapOk(l)
    ensures !RightInEveryOrder(Feed(l, x), out0)
  {
    var bb, r :| EmptyAt(l, bb) && Owns(l, r, StrayChunk(l, bb)) &&
                 !(l.zeroInit && l.seqMap(r + 1) == l.seqMap(r) + 1);
    x := Revealing(l, bb);
    RevealsHarm(l, bb, r);
    FeedMonotone(l, x);
    HarmDefines(Feed(l, x));
    OrdersDecide(Feed(l, x), out0);
  }
  /** Right for all data, orders and initial memory if and only if the sequence map is of that kind. */
  lemma MapDecides(l: Launch)
    requires Monotone(l)
    ensures RightForAllData(l) <==> (Sized(l) ==> MapOk(l))
  {
    if Sized(l) && !MapOk(l) {
      var x := MapNeeded(l, l.raw);
    } else {
      forall x, out0 ensures RightInEveryOrder(Feed(l, x), out0) { MapSuffices(l, x, out0); }
    }
  }
  /** In particular a launch without empty sequences. */
  lemma NoneEmptyOk(l: Launch)
    requires forall bb :: 0 <= bb < l.batch ==> !EmptyAt(l, bb)
    ensures MapOk(l) && Bounded(l)
  {
  }

  // ----- which launches write outside the output

  /** Chunks below the first sequence and above the last one are not part of the output. */
  ghost predicate Inside(l: Launch, out0: Tensor4, out: Tensor4) {
    forall i, h, x, y :: !(l.seqMap(0) <= i < l.seqMap(l.batch)) ==> out(i, h, x, y) == out0(i, h, x, y)
  }
  ghost predicate InsideForAllData(l: Launch) {
    forall x, out0, order :: Complete(l, order) ==> Inside(l, out0, Launched(Feed(l, x), order, out0))
  }
  /** No empty sequence comes first, or in reverse last. */
  ghost predicate Bounded(l: Launch) {
    forall bb :: EmptyAt(l, bb) ==> l.seqMap(0) <= StrayChunk(l, bb) < l.seqMap(l.batch)
  }
  lemma MapBounds(l: Launch, bb: int)
    requires Monotone(l) && 0 <= bb < l.batch
    ensures l.seqMap(0) <= l.seqMap(bb) && l.seqMap(bb + 1) <= l.seqMap(l.batch)
  {
    assert Rises(l, 0) && Rises(l, bb);
    if bb > 0 { SequencesApart(l, 0, bb); }
    if bb + 1 < l.batch { SequencesApart(l, bb, l.batch); }
  }
  lemma RanInside(l: Launch, q: Program, before: Tensor4)
    requires Monotone(l) && IsProgram(l, q) && (Sized(l) ==> Bounded(l))
    ensures Inside(l, before, Ran(l, q, before))
  {
    var c := RunOf(l, q.bb, q.bh);
    assert Rises(l, q.bb);
    OutputDelivers(c, q.bv, l.block, HeadOf(before, q.bh));
    MapBounds(l, q.bb);
    if c.s == c.e && Sized(l) { assert EmptyAt(l, q.bb) && LastChunk(c) == StrayChunk(l, q.bb); }
    forall i, h, x, y | !(l.seqMap(0) <= i < l.seqMap(l.batch))
      ensures Ran(l, q, before)(i, h, x, y) == before(i, h, x, y)
    {
      if h == q.bh {
        assert Output(c, q.bv, l.block, HeadOf(before, q.bh))(i, x, y) == HeadOf(before, q.bh)(i, x, y);
      }
    }
  }
  lemma {:induction false} LaunchedInside(l: Launch, order: seq<int>, out0: Tensor4)
    requires Monotone(l) && Numbers(l, order) && (Sized(l) ==> Bounded(l))
    ensures Inside(l, out0, Launched(l, order, out0))
    decreases |order|
  {
    if order != [] {
      var n := |order| - 1;
      LaunchedInside(l, order[..n], out0);
      ProgramNumbers(l, order[n]);
      RanInside(l, ProgramAt(l, order[n]), Launched(l, order[..n], out0));
    }
  }

  function Ones(): Tensor4 { (i: int, h: int, x: int, y: int) => 1.0 }
  function Zeros(): Data {
    Data((b: int, h: int, x: int, y: int) => 0.0, (i: int, h: int, x: int, y: int) => 0.0,
         (i: int, h: int, x: int, y: int) => 0.0, (i: int, h: int) => 0)
  }
  lemma StrayIsZero(l: Launch, bb: int, before: Tensor4)
    requires Monotone(l) && Sized(l) && EmptyAt(l, bb)
    ensures Ran(Feed(l, Zeros()), Program(bb, 0, 0), before)(StrayChunk(l, bb), 0, 0, 0) == 0.0
  {
    var m := Feed(l, Zeros());
    var c := RunOf(m, bb, 0);
    OutputDelivers(c, 0, m.block, HeadOf(before, 0));
    assert StoredAt(c.vFirst, Output(c, 0, m.block, HeadOf(before, 0)), LastChunk(c), 0, 0) == Start(c, 0, 0);
  }
  lemma BoundsNeeded(l: Launch, bb: int)
    requires Monotone(l) && Sized(l) && EmptyAt(l, bb) && !(l.seqMap(0) <= StrayChunk(l, bb) < l.seqMap(l.batch))
    ensures !InsideForAllData(l)
  {
    var m, q := Feed(l, Zeros()), Program(bb, 0, 0);
    var p := NumberOf(l, q);
    NumberedProgram(l, q);
    EndingIs(l, p);
    var order := Ending(Programs(l), p);
    assert ProgramAt(m, order[|order| - 1]) == q;
    StrayIsZero(l, bb, Launched(m, order[..|order| - 1], Ones()));
    assert Launched(m, order, Ones())(StrayChunk(l, bb), 0, 0, 0) == 0.0;
    assert !Inside(l, Ones(), Launched(m, order, Ones()));
  }
  lemma BoundsSuffice(l: Launch, x: Data, out0: Tensor4, order: seq<int>)
    requires Monotone(l) && Numbers(l, order) && (Sized(l) ==> Bounded(l))
    ensures Inside(l, out0, Launched(Feed(l, x), order, out0))
  {
    FeedMonotone(l, x);
    FeedBounds(l, x);
    LaunchedInside(Feed(l, x), order, out0);
  }
  /** Nothing outside the output is written, for all data and orders, if and only if no empty sequence comes first, or
      in reverse last. */
  lemma BoundsDecide(l: Launch)
    requires Monotone(l)
    ensures InsideForAllData(l) <==> (Sized(l) ==> Bounded(l))
  {
    if Sized(l) && !Bounded(l) {
      var bb :| EmptyAt(l, bb) && !(l.seqMap(0) <= StrayChunk(l, bb) < l.seqMap(l.batch));
      BoundsNeeded(l, bb);
    } else {
      forall x, out0, order | Complete(l, order)
        ensures Inside(l, out0, Launched(Feed(l, x), order, out0))
      {
        BoundsSuffice(l, x, out0, order);
      }
    }
  }
}
