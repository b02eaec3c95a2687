/** The register fragments of the matrix instructions: base tiles and the builders that repeat and replicate them. */
module GemmFragments {
  import opened Arith
  import opened Boxes
  import opened Fragments
  import opened Results

  // ----- base tiles

  function At(x: seq<int>, k: nat): int { if k < |x| then x[k] else 0 }

  function Frag8x8(): Fragment {
    Fragment([8, 8], 1, 32, 2, (x: seq<int>, r: int) => At(x, 1) / 2 + 4 * At(x, 0), (x: seq<int>) => At(x, 1) % 2)
  }
  function Frag8x8Transposed(): Fragment {
    Fragment([8, 8], 1, 32, 2, (x: seq<int>, r: int) => At(x, 0) / 2 + 4 * At(x, 1), (x: seq<int>) => At(x, 0) % 2)
  }
  function Frag8x16(): Fragment {
    Fragment([8, 16], 1, 32, 4, (x: seq<int>, r: int) => At(x, 1) / 4 + 4 * At(x, 0), (x: seq<int>) => At(x, 1) % 4)
  }
  /** Used for A and B, and for C. */
  function Frag16x16CDNA(): Fragment {
    Fragment([16, 16], 1, 64, 4, (x: seq<int>, r: int) => 16 * (At(x, 1) / 4) + At(x, 0), (x: seq<int>) => At(x, 1) % 4)
  }
  function Frag16x16CDNATransposed(): Fragment {
    Fragment([16, 16], 1, 64, 4, (x: seq<int>, r: int) => 16 * (At(x, 0) / 4) + At(x, 1), (x: seq<int>) => At(x, 0) % 4)
  }
  function HalfThread(i: int, j: int): int { i % 4 + i % 16 / 8 * 4 + j % 16 / 8 * 8 + i / 16 * 16 }
  function HalfIndex(i: int, j: int): int { j % 4 + j / 16 * 4 + i % 8 / 4 * 8 + j % 8 / 4 * 16 }
  function SingleThread(i: int, j: int): int { i % 2 + 2 * (j % 4 / 2) + i % 16 / 8 * 4 + j % 16 / 8 * 8 + i / 16 * 16 }
  function SingleIndex(i: int, j: int): int { j % 2 + 2 * (i % 4 / 2) + j / 16 * 4 + i % 8 / 4 * 8 + j % 8 / 4 * 16 }
  function Frag32x32(elementSize: int): Result<Fragment> {
    if elementSize == 16 then Ok(HalfFrag())
    else if elementSize == 32 then Ok(SingleFrag())
    else CheckFailed
  }
  /** The A operand on Volta: every element is held by two threads. */
  function VoltaThread(i: int, j: int, r: int): int { i % 16 / 8 * 4 + 16 * (i / 16) + i % 4 + 8 * r }
  function VoltaIndex(i: int, j: int): int { j + i % 8 / 4 * 4 }
  function Frag32x4Volta(): Fragment { Tile(4, 2, 8, VoltaThread, VoltaIndex) }

  /** A tile of 32 rows for 32 threads. */
  function Tile(cols: int, rep: int, regs: int, thread: (int, int, int) -> int, index: (int, int) -> int): Fragment {
    Fragment([32, cols], rep, 32, regs, (x: seq<int>, r: int) => thread(At(x, 0), At(x, 1), r),
             (x: seq<int>) => index(At(x, 0), At(x, 1)))
  }

  /** What thread th keeps in register rg: row, column and replica. */
  datatype Backward = Backward(row: (int, int) -> int, col: (int, int) -> int, rep: int -> int)

  ghost predicate There(f: Fragment, b: Backward) {
    forall x, r :: Has(f, x, r) ==>
      && 0 <= f.thread(x, r) < f.threads && 0 <= f.index(x) < f.regs
      && b.rep(f.thread(x, r)) == r
      && b.row(f.thread(x, r), f.index(x)) == At(x, 0) && b.col(f.thread(x, r), f.index(x)) == At(x, 1)
  }
  ghost predicate Back(f: Fragment, b: Backward) {
    forall th, rg :: 0 <= th < f.threads && 0 <= rg < f.regs ==>
      Hit(f, th, rg, [b.row(th, rg), b.col(th, rg)], b.rep(th))
  }
  /** A two-sided inverse makes a tile bijective. */
  lemma InverseMakesBijective(f: Fragment, b: Backward)
    requires |f.shape| == 2 && Positive(f.shape) && f.rep > 0 && f.threads > 0 && f.regs > 0 && There(f, b)
    requires Back(f, b)
    ensures Bijective(f)
  {
    forall x, r, y, q | Has(f, x, r) && Has(f, y, q) && f.thread(x, r) == f.thread(y, q) && f.index(x) == f.index(y)
      ensures x == y
    {
      assert x[0] == At(x, 0) && x[1] == At(x, 1) && y[0] == At(y, 0) && y[1] == At(y, 1);
    }
    forall th, rg | 0 <= th < f.threads && 0 <= rg < f.regs
      ensures Reaches(f, th, rg)
    {
      assert Hit(f, th, rg, [b.row(th, rg), b.col(th, rg)], b.rep(th));
    }
  }

  lemma Pair(q: int, d: int, r: int)
    requires d > 0 && 0 <= r < d
    ensures (d * q + r) / d == q && (d * q + r) % d == r
  {
    DivModUnique(d * q + r, d, q, r);
  }
  lemma Base8x8()
    ensures Bijective(Frag8x8())
  {
    var f := Frag8x8();
    var b := Backward((th: int, rg: int) => th / 4,
                      (th: int, rg: int) => th % 4 * 2 + rg, (th: int) => 0);
    forall x, r | Has(f, x, r)
      ensures 0 <= f.thread(x, r) < f.threads && 0 <= f.index(x) < f.regs && b.rep(f.thread(x, r)) == r
      ensures b.row(f.thread(x, r), f.index(x)) == At(x, 0) && b.col(f.thread(x, r), f.index(x)) == At(x, 1)
    {
      Pair(At(x, 0), 4, At(x, 1) / 2);
    }
    forall th, rg | 0 <= th < f.threads && 0 <= rg < f.regs
      ensures Hit(f, th, rg, [b.row(th, rg), b.col(th, rg)], b.rep(th))
    {
      Pair(th % 4, 2, rg);
    }
    InverseMakesBijective(f, b);
  }

  lemma Base8x8Transposed()
    ensures Bijective(Frag8x8Transposed())
  {
    var f := Frag8x8Transposed();
    var b := Backward((th: int, rg: int) => th % 4 * 2 + rg,
                      (th: int, rg: int) => th / 4, (th: int) => 0);
    forall x, r | Has(f, x, r)
      ensures 0 <= f.thread(x, r) < f.threads && 0 <= f.index(x) < f.regs && b.rep(f.thread(x, r)) == r
      ensures b.row(f.thread(x, r), f.index(x)) == At(x, 0) && b.col(f.thread(x, r), f.index(x)) == At(x, 1)
    {
      Pair(At(x, 1), 4, At(x, 0) / 2);
    }
    forall th, rg | 0 <= th < f.threads && 0 <= rg < f.regs
      ensures Hit(f, th, rg, [b.row(th, rg), b.col(th, rg)], b.rep(th))
    {
      Pair(th % 4, 2, rg);
    }
    InverseMakesBijective(f, b);
  }

  lemma Base8x16()
    ensures Bijective(Frag8x16())
  {
    var f := Frag8x16();
    var b := Backward((th: int, rg: int) => th / 4,
                      (th: int, rg: int) => th % 4 * 4 + rg, (th: int) => 0);
    forall x, r | Has(f, x, r)
      ensures 0 <= f.thread(x, r) < f.threads && 0 <= f.index(x) < f.regs && b.rep(f.thread(x, r)) == r
      ensures b.row(f.thread(x, r), f.index(x)) == At(x, 0) && b.col(f.thread(x, r), f.index(x)) == At(x, 1)
    {
      Pair(At(x, 0), 4, At(x, 1) / 4);
    }
    forall th, rg | 0 <= th < f.threads && 0 <= rg < f.regs
      ensures Hit(f, th, rg, [b.row(th, rg), b.col(th, rg)], b.rep(th))
    {
      Pair(th % 4, 4, rg);
    }
    InverseMakesBijective(f, b);
  }

  lemma Base16x16CDNA()
    ensures Bijective(Frag16x16CDNA())
  {
    var f := Frag16x16CDNA();
    var b := Backward((th: int, rg: int) => th % 16,
                      (th: int, rg: int) => th / 16 * 4 + rg, (th: int) => 0);
    forall x, r | Has(f, x, r)
      ensures 0 <= f.thread(x, r) < f.threads && 0 <= f.index(x) < f.regs && b.rep(f.thread(x, r)) == r
      ensures b.row(f.thread(x, r), f.index(x)) == At(x, 0) && b.col(f.thread(x, r), f.index(x)) == At(x, 1)
    {
      Pair(At(x, 1) / 4, 16, At(x, 0));
    }
    forall th, rg | 0 <= th < f.threads && 0 <= rg < f.regs
      ensures Hit(f, th, rg, [b.row(th, rg), b.col(th, rg)], b.rep(th))
    {
      Pair(th / 16, 4, rg);
    }
    InverseMakesBijective(f, b);
  }

  lemma Base16x16CDNATransposed()
    ensures Bijective(Frag16x16CDNATransposed())
  {
    var f := Frag16x16CDNATransposed();
    var b := Backward((th: int, rg: int) => th / 16 * 4 + rg,
                      (th: int, rg: int) => th % 16, (th: int) => 0);
    forall x, r | Has(f, x, r)
      ensures 0 <= f.thread(x, r) < f.threads && 0 <= f.index(x) < f.regs && b.rep(f.thread(x, r)) == r
      ensures b.row(f.thread(x, r), f.index(x)) == At(x, 0) && b.col(f.thread(x, r), f.index(x)) == At(x, 1)
    {
      Pair(At(x, 0) / 4, 16, At(x, 1));
    }
    forall th, rg | 0 <= th < f.threads && 0 <= rg < f.regs
      ensures Hit(f, th, rg, [b.row(th, rg), b.col(th, rg)], b.rep(th))
    {
      Pair(th / 16, 4, rg);
    }
    InverseMakesBijective(f, b);
  }

  // ----- the 32-row tiles permute bits

  predicate Bit(a: int) { 0 <= a < 2 }
  /** The bits of a number below 32. */
  datatype Bits = Bits(b0: int, b1: int, b2: int, b3: int, b4: int)
  predicate Good(b: Bits) { Bit(b.b0) && Bit(b.b1) && Bit(b.b2) && Bit(b.b3) && Bit(b.b4) }
  function Val(b: Bits): int { b.b0 + 2 * b.b1 + 4 * b.b2 + 8 * b.b3 + 16 * b.b4 }

  lemma Join(b: Bits)
    requires Good(b)
    ensures var v := Val(b);
      0 <= v < 32 && v % 2 == b.b0 && v % 4 == b.b0 + 2 * b.b1 && v % 4 / 2 == b.b1 && v % 8 / 4 == b.b2
      && v % 16 / 8 == b.b3 && v / 16 == b.b4
  {
    var v := Val(b);
    DivModUnique(v, 2, b.b1 + 2 * b.b2 + 4 * b.b3 + 8 * b.b4, b.b0);
    DivModUnique(v, 4, b.b2 + 2 * b.b3 + 4 * b.b4, b.b0 + 2 * b.b1);
    DivModUnique(v, 8, b.b3 + 2 * b.b4, b.b0 + 2 * b.b1 + 4 * b.b2);
    DivModUnique(v, 16, b.b4, b.b0 + 2 * b.b1 + 4 * b.b2 + 8 * b.b3);
    DivModUnique(b.b0 + 2 * b.b1, 2, b.b1, b.b0);
    DivModUnique(b.b0 + 2 * b.b1 + 4 * b.b2, 4, b.b2, b.b0 + 2 * b.b1);
    DivModUnique(b.b0 + 2 * b.b1 + 4 * b.b2 + 8 * b.b3, 8, b.b3, b.b0 + 2 * b.b1 + 4 * b.b2);
  }
  lemma Split(v: int) returns (b: Bits)
    requires 0 <= v < 32
    ensures Good(b) && Val(b) == v
  {
    var v1 := v / 2;
    var v2 := v1 / 2;
    var v3 := v2 / 2;
    b := Bits(v % 2, v1 % 2, v2 % 2, v3 % 2, v3 / 2);
  }

  lemma HalfForward(i: Bits, j: Bits)
    requires Good(i) && Good(j)
    ensures HalfThread(Val(i), Val(j)) == Val(Bits(i.b0, i.b1, i.b3, j.b3, i.b4))
    ensures HalfIndex(Val(i), Val(j)) == Val(Bits(j.b0, j.b1, j.b4, i.b2, j.b2))
  {
    Join(i);
    Join(j);
  }
  lemma SingleForward(i: Bits, j: Bits)
    requires Good(i) && Good(j)
    ensures SingleThread(Val(i), Val(j)) == Val(Bits(i.b0, j.b1, i.b3, j.b3, i.b4))
    ensures SingleIndex(Val(i), Val(j)) == Val(Bits(j.b0, i.b1, j.b4, i.b2, j.b2))
  {
    Join(i);
    Join(j);
  }
  lemma VoltaForward(i: Bits, j: Bits, r: int)
    requires Good(i) && Good(j) && Bit(r) && Val(j) < 4
    ensures VoltaThread(Val(i), Val(j), r) == Val(Bits(i.b0, i.b1, i.b3, r, i.b4))
    ensures VoltaIndex(Val(i), Val(j)) == Val(Bits(j.b0, j.b1, i.b2, 0, 0))
  {
    Join(i);
    assert j.b2 == 0 && j.b3 == 0 && j.b4 == 0;
    assert VoltaIndex(Val(i), Val(j)) == Val(j) + 4 * i.b2;
  }

  /** Bits of the row and column and the replica, as thread bits and register bits. */
  datatype Wires = Wires(thread: (Bits, Bits, int) -> Bits, index: (Bits, Bits) -> Bits)

  predicate Cell(cols: int, rep: int, i: Bits, j: Bits, r: int) { Good(i) && Good(j) && Val(j) < cols && 0 <= r < rep }
  predicate Keep(regs: int, t: Bits, g: Bits) { Good(t) && Good(g) && Val(g) < regs }

  /** The tile computes what the wiring says. */
  ghost predicate Wired(cols: int, rep: int, thread: (int, int, int) -> int, index: (int, int) -> int, w: Wires) {
    forall i, j, r {:trigger Cell(cols, rep, i, j, r)} :: Cell(cols, rep, i, j, r) ==>
      thread(Val(i), Val(j), r) == Val(w.thread(i, j, r)) && index(Val(i), Val(j)) == Val(w.index(i, j))
  }
  /** The wiring can be undone. */
  datatype Unwires = Unwires(row: (Bits, Bits) -> Bits, col: (Bits, Bits) -> Bits, rep: Bits -> int)
  ghost predicate Undone(cols: int, rep: int, regs: int, w: Wires, u: Unwires) {
    forall i, j, r {:trigger Cell(cols, rep, i, j, r)} :: Cell(cols, rep, i, j, r) ==>
      var t, g := w.thread(i, j, r), w.index(i, j);
      Keep(regs, t, g) && u.row(t, g) == i && u.col(t, g) == j && u.rep(t) == r
  }
  ghost predicate Redone(cols: int, rep: int, regs: int, w: Wires, u: Unwires) {
    forall t, g {:trigger Keep(regs, t, g)} :: Keep(regs, t, g) ==>
      var i, j, r := u.row(t, g), u.col(t, g), u.rep(t);
      Cell(cols, rep, i, j, r) && w.thread(i, j, r) == t && w.index(i, j) == g
  }

  lemma ValInjective(a: Bits, b: Bits)
    requires Good(a) && Good(b) && Val(a) == Val(b)
    ensures a == b
  {
    Join(a);
    Join(b);
  }
  lemma ValRange(a: Bits)
    requires Good(a)
    ensures 0 <= Val(a) < 32
  {
  }

  lemma TileAt(cols: int, rep: int, regs: int, thread: (int, int, int) -> int, index: (int, int) -> int, x: seq<int>,
               r: int)
    requires Has(Tile(cols, rep, regs, thread, index), x, r)
    ensures |x| == 2 && 0 <= x[0] < 32 && 0 <= x[1] < cols && 0 <= r < rep
    ensures Tile(cols, rep, regs, thread, index).thread(x, r) == thread(x[0], x[1], r)
    ensures Tile(cols, rep, regs, thread, index).index(x) == index(x[0], x[1])
  {
    var f := Tile(cols, rep, regs, thread, index);
    assert f.shape == [32, cols] && f.shape[0] == 32 && f.shape[1] == cols;
    assert At(x, 0) == x[0] && At(x, 1) == x[1];
  }
  lemma WiredRange(cols: int, rep: int, regs: int, thread: (int, int, int) -> int, index: (int, int) -> int, w: Wires,
                   u: Unwires)
    requires 0 < cols <= 32 && rep > 0 && 0 < regs <= 32
    requires Wired(cols, rep, thread, index, w) && Undone(cols, rep, regs, w, u)
    ensures InRange(Tile(cols, rep, regs, thread, index))
  {
    var f := Tile(cols, rep, regs, thread, index);
    forall x, r | Has(f, x, r)
      ensures 0 <= f.thread(x, r) < f.threads && 0 <= f.index(x) < f.regs
    {
      TileAt(cols, rep, regs, thread, index, x, r);
      var i := Split(x[0]);
      var j := Split(x[1]);
      assert Cell(cols, rep, i, j, r);
      ValRange(w.thread(i, j, r));
      ValRange(w.index(i, j));
    }
  }
  lemma WiredOneToOne(cols: int, rep: int, regs: int, thread: (int, int, int) -> int, index: (int, int) -> int,
                      w: Wires, u: Unwires)
    requires 0 < cols <= 32 && rep > 0 && 0 < regs <= 32
    requires Wired(cols, rep, thread, index, w) && Undone(cols, rep, regs, w, u)
    ensures ThreadTellsReplica(Tile(cols, rep, regs, thread, index)) && Injective(Tile(cols, rep, regs, thread, index))
  {
    var f := Tile(cols, rep, regs, thread, index);
    forall x, r, y, q | Has(f, x, r) && Has(f, y, q) && f.thread(x, r) == f.thread(y, q)
      ensures r == q && (f.index(x) == f.index(y) ==> x == y)
    {
      TileAt(cols, rep, regs, thread, index, x, r);
      TileAt(cols, rep, regs, thread, index, y, q);
      var i := Split(x[0]);
      var j := Split(x[1]);
      var k := Split(y[0]);
      var l := Split(y[1]);
      assert Cell(cols, rep, i, j, r) && Cell(cols, rep, k, l, q);
      ValInjective(w.thread(i, j, r), w.thread(k, l, q));
      if f.index(x) == f.index(y) { ValInjective(w.index(i, j), w.index(k, l)); }
    }
  }
  lemma WiredOnto(cols: int, rep: int, regs: int, thread: (int, int, int) -> int, index: (int, int) -> int, w: Wires,
                  u: Unwires)
    requires 0 < cols <= 32 && rep > 0 && 0 < regs <= 32
    requires Wired(cols, rep, thread, index, w) && Redone(cols, rep, regs, w, u)
    ensures Onto(Tile(cols, rep, regs, thread, index))
  {
    var f := Tile(cols, rep, regs, thread, index);
    forall th, rg | 0 <= th < f.threads && 0 <= rg < f.regs
      ensures Reaches(f, th, rg)
    {
      var t := Split(th);
      var g := Split(rg);
      assert Keep(regs, t, g);
      var i, j, r := u.row(t, g), u.col(t, g), u.rep(t);
      assert Cell(cols, rep, i, j, r);
      ValRange(i);
      ValRange(j);
      var x := [Val(i), Val(j)];
      assert Has(f, x, r);
      TileAt(cols, rep, regs, thread, index, x, r);
      assert Hit(f, th, rg, x, r);
    }
  }
  lemma WiredBijective(cols: int, rep: int, regs: int, thread: (int, int, int) -> int, index: (int, int) -> int,
                       w: Wires, u: Unwires)
    requires 0 < cols <= 32 && rep > 0 && 0 < regs <= 32
    requires Wired(cols, rep, thread, index, w) && Undone(cols, rep, regs, w, u) && Redone(cols, rep, regs, w, u)
    ensures Bijective(Tile(cols, rep, regs, thread, index))
  {
    WiredRange(cols, rep, regs, thread, index, w, u);
    WiredOneToOne(cols, rep, regs, thread, index, w, u);
    WiredOnto(cols, rep, regs, thread, index, w, u);
  }

  function HalfFrag(): Fragment { Tile(32, 1, 32, (i: int, j: int, r: int) => HalfThread(i, j), HalfIndex) }
  lemma BaseHalf()
    ensures Bijective(HalfFrag())
  {
    var w := Wires((i: Bits, j: Bits, r: int) => Bits(i.b0, i.b1, i.b3, j.b3, i.b4),
                   (i: Bits, j: Bits) => Bits(j.b0, j.b1, j.b4, i.b2, j.b2));
    var u := Unwires((t: Bits, g: Bits) => Bits(t.b0, t.b1, g.b3, t.b2, t.b4),
                     (t: Bits, g: Bits) => Bits(g.b0, g.b1, g.b4, t.b3, g.b2), (t: Bits) => 0);
    var thread := (i: int, j: int, r: int) => HalfThread(i, j);
    forall i, j, r | Cell(32, 1, i, j, r)
      ensures thread(Val(i), Val(j), r) == Val(w.thread(i, j, r)) && HalfIndex(Val(i), Val(j)) == Val(w.index(i, j))
    {
      HalfForward(i, j);
    }
    WiredBijective(32, 1, 32, thread, HalfIndex, w, u);
  }
  function SingleFrag(): Fragment { Tile(32, 1, 32, (i: int, j: int, r: int) => SingleThread(i, j), SingleIndex) }
  lemma BaseSingle()
    ensures Bijective(SingleFrag())
  {
    var w := Wires((i: Bits, j: Bits, r: int) => Bits(i.b0, j.b1, i.b3, j.b3, i.b4),
                   (i: Bits, j: Bits) => Bits(j.b0, i.b1, j.b4, i.b2, j.b2));
    var u := Unwires((t: Bits, g: Bits) => Bits(t.b0, g.b1, g.b3, t.b2, t.b4),
                     (t: Bits, g: Bits) => Bits(g.b0, t.b1, g.b4, t.b3, g.b2), (t: Bits) => 0);
    var thread := (i: int, j: int, r: int) => SingleThread(i, j);
    forall i, j, r | Cell(32, 1, i, j, r)
      ensures thread(Val(i), Val(j), r) == Val(w.thread(i, j, r)) && SingleIndex(Val(i), Val(j)) == Val(w.index(i, j))
    {
      SingleForward(i, j);
    }
    WiredBijective(32, 1, 32, thread, SingleIndex, w, u);
  }
  lemma Base32x4Volta()
    ensures Bijective(Frag32x4Volta())
  {
    var w := Wires((i: Bits, j: Bits, r: int) => Bits(i.b0, i.b1, i.b3, r, i.b4),
                   (i: Bits, j: Bits) => Bits(j.b0, j.b1, i.b2, 0, 0));
    var u := Unwires((t: Bits, g: Bits) => Bits(t.b0, t.b1, g.b2, t.b2, t.b4),
                     (t: Bits, g: Bits) => Bits(g.b0, g.b1, 0, 0, 0), (t: Bits) => t.b3);
    forall i, j, r | Cell(4, 2, i, j, r)
      ensures VoltaThread(Val(i), Val(j), r) == Val(w.thread(i, j, r))
      ensures VoltaIndex(Val(i), Val(j)) == Val(w.index(i, j))
    {
      VoltaForward(i, j, r);
    }
    WiredBijective(4, 2, 8, VoltaThread, VoltaIndex, w, u);
  }

  // ----- everything the operations can build

  datatype Recipe =
    | Base(tile: Fragment)
    | Repeated(of: Recipe, repeats: seq<int>, onThread: bool, lowerFirst: bool)
    | Replicated(of: Recipe, copies: int)
    | DeReplicated(of: Recipe)

  ghost predicate IsBase(f: Fragment) {
    || f == Frag8x8() || f == Frag8x8Transposed() || f == Frag8x16() || f == Frag16x16CDNA()
    || f == Frag16x16CDNATransposed()
    || f == HalfFrag() || f == SingleFrag() || f == Frag32x4Volta()
  }
  ghost predicate Sound(c: Recipe) {
    match c
    case Base(tile) => IsBase(tile)
    case Repeated(of, repeats, _, _) => Sound(of) && |repeats| == 2 && Positive(repeats)
    case Replicated(of, copies) => Sound(of) && copies >= 1
    case DeReplicated(of) => Sound(of)
  }
  /** Every fragment built from a base tile by Repeat, Replicate and DeReplicate, in any order and number, is a
      one-to-one correspondence whose threads tell the replica. */
  ghost function Build(c: Recipe): (f: Fragment)
    requires Sound(c)
    ensures Bijective(f) && |f.shape| == 2
  {
    match c
    case Base(tile) => BasesBijective(tile); tile
    case Repeated(of, repeats, onThread, lowerFirst) =>
      RepeatBijective(Build(of), repeats, onThread, lowerFirst);
      Repeat(Build(of), repeats, onThread, lowerFirst)
    case Replicated(of, copies) => ReplicateBijective(Build(of), copies); Replicate(Build(of), copies)
    case DeReplicated(of) => DeReplicateBijective(Build(of)); DeReplicate(Build(of))
  }
  lemma BasesBijective(f: Fragment)
    requires IsBase(f)
    ensures Bijective(f) && |f.shape| == 2
  {
    Base8x8();
    Base8x8Transposed();
    Base8x16();
    Base16x16CDNA();
    Base16x16CDNATransposed();
    BaseHalf();
    BaseSingle();
    Base32x4Volta();
  }
}
