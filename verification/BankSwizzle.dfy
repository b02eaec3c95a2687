/** The arithmetic swizzles are the bitwise patterns, and spread the rows of a column over all bank groups. */
module BankSwizzle {
  import opened Arith
  import opened Results
  import opened Swizzle
  import opened GemmLayouts

  // ----- the arithmetic exclusive or is the bitwise one

  lemma Peel(a: nat, b: nat)
    ensures Xor(a, b) == Xor2x2(a % 2, b % 2) + 2 * Xor(a / 2, b / 2)
  {
    XorBits(a, b);
    DivModLaw(Xor(a, b), 2);
  }
  /** Below bit k the two operands mix; what lies above is kept. */
  lemma Low2(c: nat, s: nat, h: nat)
    requires c < 2 && s < 2
    ensures Xor(c + 2 * h, s) == Xor2x2(c, s) + 2 * h
  {
    Peel(c + 2 * h, s);
    XorZero(h);
  }
  lemma Low4(c: nat, s: nat, h: nat)
    requires c < 4 && s < 4
    ensures Xor(c + 4 * h, s) == Xor4x4(c, s) + 4 * h
  {
    Peel(c + 4 * h, s);
    assert (c + 4 * h) / 2 == c / 2 + 2 * h && (c + 4 * h) % 2 == c % 2;
    Low2(c / 2, s / 2, h);
  }
  lemma Low8(c: nat, s: nat, h: nat)
    requires c < 8 && s < 8
    ensures Xor(c + 8 * h, s) == Xor8x8(c, s) + 8 * h
  {
    Peel(c + 8 * h, s);
    assert (c + 8 * h) / 2 == c / 2 + 4 * h && (c + 8 * h) % 2 == c % 2;
    Low4(c / 2, s / 2, h);
  }
  lemma Powers()
    ensures Pow2(0) == 1 && Pow2(2) == 4 && Pow2(3) == 8 && Pow2(4) == 16
  {
    assert Pow2(1) == 2;
  }
  /** A pattern whose mixed-in bits are m. */
  lemma MixIs(p: Pattern, high: nat, m: nat)
    requires p.bits <= p.shift && high / Pow2(p.shift) % Pow2(p.bits) == m
    ensures Mix(p, high) == Xor(high, m)
  {
    MixParts(p, high);
    ShrIsDiv(high, p.shift);
    AndMod(high / Pow2(p.shift), p.bits);
  }
  lemma SwizzleIs(p: Pattern, low: nat, high: nat)
    requires low < Pow2(p.base)
    ensures low + high * Pow2(p.base) >= 0
    ensures SwizzleOf(p, low + high * Pow2(p.base)) == low + Mix(p, high) * Pow2(p.base)
  {
    MulMono(0, high, Pow2(p.base));
    DivModUnique(low + high * Pow2(p.base), Pow2(p.base), high, low);
  }
  lemma Mix323(c: nat, s: nat, k: nat)
    requires c < 8
    ensures Mix(Pattern(3, k, 3), c + s * 8) == FullColumn(c, s % 8) + s * 8
  {
    Powers();
    MixIs(Pattern(3, k, 3), c + 8 * s, s % 8);
    Low8(c, s % 8, s);
  }
  lemma HalfRow(c: int, s: int)
    requires 0 <= c < 4 && 0 <= s
    ensures (c + 4 * s) / 8 % 4 == s % 8 / 2 < 4
  {
    var u, x := s / 8, s % 8;
    assert s == 8 * u + x;
    DivModUnique(c + 4 * s, 8, 4 * u + x / 2, c + 4 * (x % 2));
    DivModUnique(4 * u + x / 2, 4, u, x / 2);
  }
  lemma Mix223(c: nat, s: nat, k: nat)
    requires c < 4
    ensures Mix(Pattern(2, k, 3), c + s * 4) == HalfColumn(c, s % 8) + s * 4
  {
    Powers();
    HalfRow(c, s);
    MixIs(Pattern(2, k, 3), c + 4 * s, s % 8 / 2);
    Low4(c, s % 8 / 2, s);
  }

  /** Row-major offset of an element inside its 8-row tile of w vectors. */
  function TileOffset(v: int, w: int, i: int, j: int): int
    requires v > 0 && w > 0
  {
    j % v + (j / v % w + i % 8 * w) * v
  }
  lemma PatternAt(p: Pattern, w: int, low: nat, c: int, s: int, x: int)
    requires low < Pow2(p.base) && w > 0 && c >= 0 && s >= 0 && c + s * w >= 0 && Mix(p, c + s * w) == x + s * w
    ensures low + (c + s * w) * Pow2(p.base) >= 0
    ensures SwizzleOf(p, low + (c + s * w) * Pow2(p.base)) == low + (x + s * w) * Pow2(p.base)
  {
    SwizzleIs(p, low, c + s * w);
  }
  /** In columns of tiles w vectors wide, pattern p replaces column c of row s by Y(c, s % 8). */
  ghost predicate Moves(p: Pattern, w: int, Y: (int, int) -> int) {
    w > 0 && forall c, s :: 0 <= c < w && 0 <= s ==> c + s * w >= 0 && Mix(p, c + s * w) == Y(c, s % 8) + s * w
  }
  lemma PatternTile(p: Pattern, w: int, Y: (int, int) -> int, low: nat, c: int, s: int)
    requires Moves(p, w, Y) && low < Pow2(p.base) && 0 <= c < w && 0 <= s
    ensures low + (c + s * w) * Pow2(p.base) >= 0
    ensures SwizzleOf(p, low + (c + s * w) * Pow2(p.base)) == low + (Y(c, s % 8) + s * w) * Pow2(p.base)
  {
    PatternAt(p, w, low, c, s, Y(c, s % 8));
  }
  lemma PatternInTile(p: Pattern, w: int, Y: (int, int) -> int, low: nat, c: int, s: int)
    requires Moves(p, w, Y) && low < Pow2(p.base) && 0 <= c < w && 0 <= s < 8
    ensures low + (c + s * w) * Pow2(p.base) >= 0
    ensures SwizzleOf(p, low + (c + s * w) * Pow2(p.base)) == low + (Y(c, s) + s * w) * Pow2(p.base)
  {
    assert s % 8 == s;
    PatternTile(p, w, Y, low, c, s);
  }
  lemma Column(j: nat, v: int, w: int)
    requires v > 0 && w > 0
    ensures 0 <= j % v < v && 0 <= j / v % w < w
  {
    DivModLaw(j, v);
    DivModLaw(j / v, w);
  }
  lemma PatternRow(p: Pattern, w: int, Y: (int, int) -> int, i: nat, j: nat)
    requires Moves(p, w, Y)
    ensures TileOffset(Pow2(p.base), w, i, j) >= 0
    ensures SwizzleOf(p, TileOffset(Pow2(p.base), w, i, j)) == TileIndex(Y, Pow2(p.base), w, i, j)
  {
    Column(j, Pow2(p.base), w);
    PatternInTile(p, w, Y, j % Pow2(p.base), j / Pow2(p.base) % w, i % 8);
  }
  lemma FullMoves(k: nat)
    ensures Moves(Pattern(3, k, 3), 8, FullColumn)
  {
    forall c, s | 0 <= c < 8 && 0 <= s
      ensures c + s * 8 >= 0 && Mix(Pattern(3, k, 3), c + s * 8) == FullColumn(c, s % 8) + s * 8
    {
      Mix323(c, s, k);
    }
  }
  lemma HalfMoves(k: nat)
    ensures Moves(Pattern(2, k, 3), 4, HalfColumn)
  {
    forall c, s | 0 <= c < 4 && 0 <= s
      ensures c + s * 4 >= 0 && Mix(Pattern(2, k, 3), c + s * 4) == HalfColumn(c, s % 8) + s * 4
    {
      Mix223(c, s, k);
    }
  }
  /** The same for a whole column of tiles, row i of which has w * v elements. */
  lemma PatternColumn(p: Pattern, w: int, Y: (int, int) -> int, i: nat, j: nat)
    requires Moves(p, w, Y)
    ensures var v := Pow2(p.base); j % v + (j / v % w + i * w) * v >= 0
    ensures var v := Pow2(p.base);
      SwizzleOf(p, j % v + (j / v % w + i * w) * v) == j % v + (Y(j / v % w, i % 8) + i * w) * v
  {
    Column(j, Pow2(p.base), w);
    PatternTile(p, w, Y, j % Pow2(p.base), j / Pow2(p.base) % w, i);
  }
  /** Full-bank swizzling is pattern (3, log2 v, 3). */
  lemma FullIsPattern(k: nat, i: nat, j: nat)
    ensures TileOffset(Pow2(k), 8, i, j) >= 0
    ensures SwizzleOf(Pattern(3, k, 3), TileOffset(Pow2(k), 8, i, j)) == TileIndex(FullColumn, Pow2(k), 8, i, j)
  {
    FullMoves(k);
    PatternRow(Pattern(3, k, 3), 8, FullColumn, i, j);
  }
  /** Half-bank swizzling is pattern (2, log2 v, 3). */
  lemma HalfIsPattern(k: nat, i: nat, j: nat)
    ensures TileOffset(Pow2(k), 4, i, j) >= 0
    ensures SwizzleOf(Pattern(2, k, 3), TileOffset(Pow2(k), 4, i, j)) == TileIndex(HalfColumn, Pow2(k), 4, i, j)
  {
    HalfMoves(k);
    PatternRow(Pattern(2, k, 3), 4, HalfColumn, i, j);
  }
  lemma InnerDigits(c: int, s: int)
    requires 0 <= c < 16 && 0 <= s < 4
    ensures (c + 16 * s) / 16 == s && c + 16 * s == c % 4 + 4 * (c / 4 + 4 * s)
  {
  }
  lemma InnerMix(c: nat, s: nat)
    requires c < 16 && s < 4
    ensures Mix(Pattern(2, 0, 4), c + 16 * s) == Xor(c + 16 * s, s)
  {
    Powers();
    InnerDigits(c, s);
    MixIs(Pattern(2, 0, 4), c + 16 * s, s);
  }
  lemma InnerXor(c: nat, s: nat)
    requires c < 16 && s < 4
    ensures Xor(c + 16 * s, s) == Xor4x4(c % 4, s) + 4 * (c / 4 + 4 * s)
  {
    InnerDigits(c, s);
    Low4(c % 4, s, c / 4 + 4 * s);
  }
  lemma InnerPattern(c: nat, s: nat)
    requires c < 16 && s < 4
    ensures SwizzleOf(Pattern(2, 0, 4), c + 16 * s) == Xor4x4(c % 4, s) + 4 * (c / 4 + 4 * s)
  {
    Powers();
    SwizzleIs(Pattern(2, 0, 4), 0, c + 16 * s);
    InnerMix(c, s);
    InnerXor(c, s);
  }
  /** The double-precision K-inner index is pattern (2, 0, 4) on the offset in a 4 x 16 tile. */
  lemma KinnerIsPattern(i: nat, j: nat)
    ensures SwizzleOf(Pattern(2, 0, 4), j % 16 + i % 4 * 16) == KinnerIndex(i, j)
  {
    InnerPattern(j % 16, i % 4);
  }
  lemma OuterDigits(c: int, s: int)
    requires 0 <= c < 16 && 0 <= s < 4
    ensures (c / 4 + 4 * s) / 4 == s && c + 16 * s == c % 4 + (c / 4 + 4 * s) * 4
  {
  }
  lemma OuterMix(c: nat, s: nat)
    requires c < 4 && s < 4
    ensures Mix(Pattern(2, 2, 2), c + 4 * s) == Xor4x4(c, s) + 4 * s
  {
    Powers();
    MixIs(Pattern(2, 2, 2), c + 4 * s, s);
    Low4(c, s, s);
  }
  lemma OuterPattern(c: nat, s: nat)
    requires c < 16 && s < 4
    ensures SwizzleOf(Pattern(2, 2, 2), c + 16 * s) == c % 4 + (Xor4x4(c / 4, s) + 4 * s) * 4
  {
    Powers();
    OuterDigits(c, s);
    SwizzleIs(Pattern(2, 2, 2), c % 4, c / 4 + 4 * s);
    OuterMix(c / 4, s);
  }
  /** And K-outer is pattern (2, 2, 2). */
  lemma KouterIsPattern(i: nat, j: nat)
    ensures SwizzleOf(Pattern(2, 2, 2), j % 16 + i % 4 * 16) == KouterIndex(i, j)
  {
    OuterPattern(j % 16, i % 4);
  }

  // ----- bank groups

  /** Row-major address of index (tc, ts, index) in a buffer of `tall` tiles a column, each of `size` elements. */
  function Address(tc: int, ts: int, index: int, tall: int, size: int): int { (tc * tall + ts) * size + index }
  function TileAddress(Y: (int, int) -> int, v: int, w: int, stride: int, i: int, j: int): int
    requires v > 0 && w > 0
  {
    Address(j / v / w, i / 8, TileIndex(Y, v, w, i, j), stride / 8, 8 * w * v)
  }
  /** 16 bytes are v elements; 8 such vectors span the 32 banks. */
  function BankGroup(v: int, address: int): int
    requires v > 0
  {
    address / v % 8
  }
  lemma VectorOf(v: int, tiles: int, per: int, low: int, vec: int)
    requires v > 0 && 0 <= low < v
    ensures (tiles * (per * v) + (low + vec * v)) / v == tiles * per + vec
  {
    assert tiles * (per * v) + (low + vec * v) == (tiles * per + vec) * v + low;
    DivModUnique(tiles * (per * v) + (low + vec * v), v, tiles * per + vec, low);
  }
  lemma TileVector(Y: (int, int) -> int, v: int, w: int, stride: int, i: int, j: int) returns (tiles: int)
    requires v > 0 && w > 0
    ensures TileAddress(Y, v, w, stride, i, j) / v == tiles * (8 * w) + (Y(j / v % w, i % 8) + i % 8 * w)
  {
    tiles := j / v / w * (stride / 8) + i / 8;
    DivModLaw(j, v);
    VectorOf(v, tiles, 8 * w, j % v, Y(j / v % w, i % 8) + i % 8 * w);
  }
  lemma FullMod(t: int, y: int, s: int)
    requires 0 <= y < 8
    ensures (t * (8 * 8) + (y + s * 8)) % 8 == y
  {
    DivModUnique(t * 64 + (y + s * 8), 8, 8 * t + s, y);
  }
  lemma HalfMod(t: int, y: int, s: int)
    requires 0 <= y < 4 && 0 <= s < 8
    ensures (t * (8 * 4) + (y + s * 4)) % 8 == y + 4 * (s % 2)
  {
    DivModUnique(t * 32 + (y + s * 4), 8, 4 * t + s / 2, y + 4 * (s % 2));
  }
  lemma XorRight(X: (int, int) -> int, n: int, c: int, s: int, t: int)
    requires IsXor(X, n) && 0 <= c < n && 0 <= s < n && 0 <= t < n && X(c, s) == X(c, t)
    requires X(c, s) == X(s, c) && X(c, t) == X(t, c)
    ensures s == t
  {
    assert X(X(s, c), c) == s && X(X(t, c), c) == t;
  }
  ghost predicate Commutes(X: (int, int) -> int) { forall i, j :: X(i, j) == X(j, i) }
  lemma XorCommutes()
    ensures Commutes(Xor4x4) && Commutes(Xor8x8)
  {
    forall i, j ensures Xor2x2(i, j) == Xor2x2(j, i) {}
    forall i, j ensures Xor4x4(i, j) == Xor4x4(j, i) { assert Xor2x2(i / 2, j / 2) == Xor2x2(j / 2, i / 2); }
  }

  /** Where row s of vector column c falls, in groups of 16 bytes. */
  ghost predicate Spreads(G: (int, int) -> int, w: int) {
    forall c, s, t :: 0 <= c < w && 0 <= s < 8 && 0 <= t < 8 && G(c, s) == G(c, t) ==> s == t
  }
  function HalfGroup(c: int, s: int): int { HalfColumn(c, s) + 4 * (s % 2) }
  lemma FullSpreads(X: (int, int) -> int, Y: (int, int) -> int)
    requires IsXor(X, 8) && Commutes(X) && forall c, s :: Y(c, s) == X(c, s)
    ensures Spreads(Y, 8)
  {
    forall c, s, t | 0 <= c < 8 && 0 <= s < 8 && 0 <= t < 8 && Y(c, s) == Y(c, t)
      ensures s == t
    {
      XorRight(X, 8, c, s, t);
    }
  }
  lemma TwoDigits(a: int, x: int, b: int, y: int)
    requires 0 <= a < 4 && 0 <= b < 4 && a + 4 * x == b + 4 * y
    ensures a == b && x == y
  {
  }
  lemma HalfSpreads(X: (int, int) -> int, G: (int, int) -> int)
    requires IsXor(X, 4) && Commutes(X) && forall c, s :: G(c, s) == X(c, s / 2) + 4 * (s % 2)
    ensures Spreads(G, 4)
  {
    forall c, s, t | 0 <= c < 4 && 0 <= s < 8 && 0 <= t < 8 && G(c, s) == G(c, t) ensures s == t {
      assert 0 <= X(c, s / 2) < 4 && 0 <= X(c, t / 2) < 4;
      TwoDigits(X(c, s / 2), s % 2, X(c, t / 2), t % 2);
      XorRight(X, 4, c, s / 2, t / 2);
    }
  }
  lemma OtherRow(i: int, k: int)
    requires i / 8 == k / 8 && i != k
    ensures i % 8 != k % 8
  {
  }

  lemma FullGroupIs(Y: (int, int) -> int, v: int, stride: int, i: int, j: int)
    requires v > 0 && Permuting(Y, 8)
    ensures BankGroup(v, TileAddress(Y, v, 8, stride, i, j)) == Y(j / v % 8, i % 8)
  {
    var t := TileVector(Y, v, 8, stride, i, j);
    FullMod(t, Y(j / v % 8, i % 8), i % 8);
  }
  lemma HalfGroupIs(Y: (int, int) -> int, v: int, stride: int, i: int, j: int)
    requires v > 0 && Permuting(Y, 4)
    ensures BankGroup(v, TileAddress(Y, v, 4, stride, i, j)) == Y(j / v % 4, i % 8) + 4 * (i % 8 % 2)
  {
    var t := TileVector(Y, v, 4, stride, i, j);
    HalfMod(t, Y(j / v % 4, i % 8), i % 8);
  }

  /** The 8 rows of one 16-byte column of a tile fall into 8 different bank groups: full bank. */
  lemma FullBankGroupsDiffer(v: int, stride: int, i: int, k: int, j: int, l: int)
    requires v > 0 && i / 8 == k / 8 && i != k && j / v == l / v
    ensures BankGroup(v, TileAddress(FullColumn, v, 8, stride, i, j)) !=
      BankGroup(v, TileAddress(FullColumn, v, 8, stride, k, l))
  {
    FullPermuting();
    Xor8Law();
    XorCommutes();
    FullSpreads(Xor8x8, FullColumn);
    FullDiffer(FullColumn, v, stride, i, k, j, l);
  }
  lemma FullDiffer(Y: (int, int) -> int, v: int, stride: int, i: int, k: int, j: int, l: int)
    requires v > 0 && i / 8 == k / 8 && i != k && j / v == l / v && Permuting(Y, 8) && Spreads(Y, 8)
    ensures BankGroup(v, TileAddress(Y, v, 8, stride, i, j)) != BankGroup(v, TileAddress(Y, v, 8, stride, k, l))
  {
    FullGroupIs(Y, v, stride, i, j);
    FullGroupIs(Y, v, stride, k, l);
    OtherRow(i, k);
  }
  /** And half bank. */
  lemma HalfBankGroupsDiffer(v: int, stride: int, i: int, k: int, j: int, l: int)
    requires v > 0 && i / 8 == k / 8 && i != k && j / v == l / v
    ensures BankGroup(v, TileAddress(HalfColumn, v, 4, stride, i, j)) !=
      BankGroup(v, TileAddress(HalfColumn, v, 4, stride, k, l))
  {
    HalfPermuting();
    Xor4Law();
    XorCommutes();
    HalfSpreads(Xor4x4, HalfGroup);
    HalfDiffer(HalfColumn, HalfGroup, v, stride, i, k, j, l);
  }
  lemma HalfDiffer(Y: (int, int) -> int, G: (int, int) -> int, v: int, stride: int, i: int, k: int, j: int, l: int)
    requires v > 0 && i / 8 == k / 8 && i != k && j / v == l / v && Permuting(Y, 4) && Spreads(G, 4)
    requires forall c, s :: G(c, s) == Y(c, s) + 4 * (s % 2)
    ensures BankGroup(v, TileAddress(Y, v, 4, stride, i, j)) != BankGroup(v, TileAddress(Y, v, 4, stride, k, l))
  {
    HalfGroupIs(Y, v, stride, i, j);
    HalfGroupIs(Y, v, stride, k, l);
    OtherRow(i, k);
    var c := j / v % 4;
    assert G(c, i % 8) != G(c, k % 8);
  }
}
