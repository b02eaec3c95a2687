/** Which address each element of an operand gets, for every argument of the two dispatches, in terms of bitwise
    exclusive or and swizzle patterns. */
module LayoutPlaces {
  import opened Arith
  import opened Results
  import opened Swizzle
  import opened GemmLayouts
  import opened BankSwizzle
  import opened VoltaLayouts

  // ----- the A and B dispatch

  /** One address per element: rows follow each other, with 128 bits in between when a row is a multiple of 256 bits. */
  predicate RowsPadded(g: Layout, continuous: int, bits: int, i: int, j: int)
    requires bits > 0
  {
    g.forward(i, j) == [i * (continuous + (if bits * continuous % 256 == 0 then 128 / bits else 0)) + j]
  }
  /** Tile column, tile row, and in the tile of `rows` x `cols` the row-major offset swizzled with x. */
  predicate TilesSwizzled(g: Layout, rows: nat, cols: nat, x: Pattern, i: nat, j: nat)
    requires rows > 0 && cols > 0
  {
    i % rows * cols + j % cols >= 0 &&
    g.forward(i, j) == [j / cols, i / rows, SwizzleOf(x, i % rows * cols + j % cols)]
  }
  lemma KouterPlaces(stride: int, continuous: int, i: nat, j: nat)
    ensures TilesSwizzled(F64Kouter(stride, continuous), 4, 16, Pattern(2, 2, 2), i, j)
  {
    var e := i % 4 * 16 + j % 16;
    KouterIsPattern(i, j);
    assert e == j % 16 + i % 4 * 16 && SwizzleOf(Pattern(2, 2, 2), e) == KouterIndex(i, j);
  }
  lemma KinnerPlaces(stride: int, continuous: int, i: nat, j: nat)
    ensures TilesSwizzled(F64Kinner(stride, continuous), 4, 16, Pattern(2, 0, 4), i, j)
  {
    var n := KinnerIndex(i, j);
    KinnerForward(stride, continuous, i, j, n);
    KinnerIsPattern(i, j);
    SwizzledBy(F64Kinner(stride, continuous), 4, 16, Pattern(2, 0, 4), i, j, j % 16 + i % 4 * 16, n);
  }
  lemma KinnerForward(stride: int, continuous: int, i: nat, j: nat, n: int)
    requires n == KinnerIndex(i, j)
    ensures F64Kinner(stride, continuous).forward(i, j) == [j / 16, i / 4, n]
  {
  }
  lemma SwizzledBy(g: Layout, rows: nat, cols: nat, x: Pattern, i: nat, j: nat, e: nat, n: int)
    requires rows > 0 && cols > 0 && e == i % rows * cols + j % cols && SwizzleOf(x, e) == n
    requires g.forward(i, j) == [j / cols, i / rows, n]
    ensures TilesSwizzled(g, rows, cols, x, i, j)
  {
  }
  /** Row-major offset in a tile of rows of w vectors of v elements. */
  lemma TileOffsetIs(v: int, w: int, i: int, j: int)
    requires v > 0 && w > 0
    ensures w * v > 0 && j / (w * v) == j / v / w && i % 8 * (w * v) + j % (w * v) == TileOffset(v, w, i, j)
  {
    MulFar(w, v);
    DivModLaw(j, v);
    DivModLaw(j / v, w);
    var q, s, a := j / v / w, j / v % w, j % v;
    TwoLevels(v, w, j, j / v, q, s, a);
    RowOffset(v, w, s, i % 8);
  }
  lemma RowOffset(v: int, w: int, s: int, y: int)
    ensures (s + y * w) * v == s * v + y * (w * v)
  {
  }
  /** j = (q w + s) v + a. */
  lemma TwoLevels(v: int, w: int, j: int, x: int, q: int, s: int, a: int)
    requires v > 0 && w * v > 0 && j == x * v + a && x == q * w + s && 0 <= a < v && 0 <= s < w
    ensures j / (w * v) == q && j % (w * v) == s * v + a
  {
    MulMono(0, s, v);
    MulMono(s + 1, w, v);
    assert j == q * (w * v) + (s * v + a);
    DivModUnique(j, w * v, q, s * v + a);
  }
  lemma TileForward(Y: (int, int) -> int, v: int, w: int, stride: int, continuous: int, i: nat, j: nat, n: int)
    requires v > 0 && w > 0 && n == TileIndex(Y, v, w, i, j)
    ensures w * v > 0 && SwizzledTile(Y, v, w, stride, continuous).forward(i, j) == [j / (w * v), i / 8, n]
  {
    TileOffsetIs(v, w, i, j);
  }
  lemma FullPlaces(k: nat, v: nat, stride: int, continuous: int, i: nat, j: nat)
    requires v == Pow2(k)
    ensures 8 * v > 0
    ensures TilesSwizzled(SwizzledTile(FullColumn, v, 8, stride, continuous), 8, 8 * v, Pattern(3, k, 3), i, j)
  {
    TileOffsetIs(v, 8, i, j);
    FullIsPattern(k, i, j);
    TileForward(FullColumn, v, 8, stride, continuous, i, j, TileIndex(FullColumn, v, 8, i, j));
    SwizzledBy(SwizzledTile(FullColumn, v, 8, stride, continuous), 8, 8 * v, Pattern(3, k, 3), i, j,
               TileOffset(v, 8, i, j), TileIndex(FullColumn, v, 8, i, j));
  }
  lemma HalfPlaces(k: nat, v: nat, stride: int, continuous: int, i: nat, j: nat)
    requires v == Pow2(k)
    ensures 4 * v > 0
    ensures TilesSwizzled(SwizzledTile(HalfColumn, v, 4, stride, continuous), 8, 4 * v, Pattern(2, k, 3), i, j)
  {
    TileOffsetIs(v, 4, i, j);
    HalfIsPattern(k, i, j);
    TileForward(HalfColumn, v, 4, stride, continuous, i, j, TileIndex(HalfColumn, v, 4, i, j));
    SwizzledBy(SwizzledTile(HalfColumn, v, 4, stride, continuous), 8, 4 * v, Pattern(2, k, 3), i, j,
               TileOffset(v, 4, i, j), TileIndex(HalfColumn, v, 4, i, j));
  }
  lemma PaddedPlaces(stride: int, continuous: int, bits: int, i: int, j: int)
    requires bits > 0
    ensures RowsPadded(Padded(stride, continuous, bits), continuous, bits, i, j)
  {
  }
  datatype Choice = Kouter | Kinner | RowPadding | Full | Half
  /** Double precision goes K-outer for kfactor 1 and K-inner for kfactor 2 when the continuity is a multiple of 16;
      bytes with kfactor 1 are padded; otherwise full bank, half bank or padding, the first that fits the row. */
  function Chosen(continuous: int, continuity: int, bits: int, v: int, kfactor: int): Choice
    requires v > 0
  {
    if bits == 64 then
      if continuity % 16 == 0 && kfactor == 1 then Kouter
      else if continuity % 16 == 0 && kfactor == 2 then Kinner
      else RowPadding
    else if bits == 8 && kfactor == 1 then RowPadding
    else if continuous % (8 * v) == 0 then Full
    else if continuous % (4 * v) == 0 then Half
    else RowPadding
  }
  lemma DispatchIs(stride: int, continuous: int, continuity: int, bits: int, v: int, kfactor: int)
    requires 1 <= bits <= 128 && v == 128 / bits && v > 0 && ABLayout(stride, continuous, continuity, bits, kfactor).Ok?
    ensures ABLayout(stride, continuous, continuity, bits, kfactor).value ==
      match Chosen(continuous, continuity, bits, v, kfactor)
      case Kouter => F64Kouter(stride, continuous)
      case Kinner => F64Kinner(stride, continuous)
      case RowPadding => Padded(stride, continuous, bits)
      case Full => SwizzledTile(FullColumn, v, 8, stride, continuous)
      case Half => SwizzledTile(HalfColumn, v, 4, stride, continuous)
  {
    assert v * 8 == 8 * v && v * 4 == 4 * v;
  }
  /** What every operand gets, for elements of `bits` bits, v = 2 ^ k of which make 128 bits. */
  lemma ABLayoutPlaces(stride: int, continuous: int, continuity: int, bits: int, k: nat, v: nat, kfactor: int,
                       i: nat, j: nat)
    requires v == Pow2(k) && bits >= 1 && bits * v == 128 && v <= 128 && bits <= 128
    requires ABLayout(stride, continuous, continuity, bits, kfactor).Ok?
    ensures var g := ABLayout(stride, continuous, continuity, bits, kfactor).value;
      match Chosen(continuous, continuity, bits, v, kfactor)
      case Kouter => TilesSwizzled(g, 4, 16, Pattern(2, 2, 2), i, j)
      case Kinner => TilesSwizzled(g, 4, 16, Pattern(2, 0, 4), i, j)
      case RowPadding => RowsPadded(g, continuous, bits, i, j)
      case Full => TilesSwizzled(g, 8, 8 * v, Pattern(3, k, 3), i, j)
      case Half => TilesSwizzled(g, 8, 4 * v, Pattern(2, k, 3), i, j)
  {
    DivModUnique(128, bits, v, 0);
    DispatchIs(stride, continuous, continuity, bits, v, kfactor);
    match Chosen(continuous, continuity, bits, v, kfactor)
    case Kouter => KouterPlaces(stride, continuous, i, j);
    case Kinner => KinnerPlaces(stride, continuous, i, j);
    case RowPadding => PaddedPlaces(stride, continuous, bits, i, j);
    case Full => FullPlaces(k, v, stride, continuous, i, j);
    case Half => HalfPlaces(k, v, stride, continuous, i, j);
  }

  // ----- the Volta dispatch

  /** Two bits mixed with two. */
  function Mixed(y1: int, y0: int, s1: int, s0: int): int { 2 * ((y1 + s1) % 2) + (y0 + s0) % 2 }
  predicate TwoBits(y: int, y1: int, y0: int) { 0 <= y1 < 2 && 0 <= y0 < 2 && y == 2 * y1 + y0 }
  lemma XorOfFour(y: int, y1: int, y0: int, s: int, s1: int, s0: int)
    requires TwoBits(y, y1, y0) && TwoBits(s, s1, s0)
    ensures Xor4x4(y, s) == Mixed(y1, y0, s1, s0)
  {
    DivModUnique(y, 2, y1, y0);
    DivModUnique(s, 2, s1, s0);
  }
  /** Row y of tile row t. */
  predicate InTileRow(i: int, t: int, y: int, y1: int, y0: int) { TwoBits(y, y1, y0) && i == 4 * t + y }
  /** Column a of vector c of tile u. */
  predicate InVector(j: int, u: int, c: int, a: int) { 0 <= c < 8 && 0 <= a < 8 && j == 64 * u + 8 * c + a }
  lemma ElementIs(X: (int, int) -> int, S: int -> int, L: int -> int, stride: int, continuous: int, i: int, j: int,
                  t: int, y: int, y1: int, y0: int, u: int, c: int, a: int, s: int, l: int, n: int)
    requires InTileRow(i, t, y, y1, y0) && InVector(j, u, c, a) && S(c) == s && L(c) == l && X(y, s) == n
    ensures CongruousWith(X, S, L, stride, continuous).forward(i, j) ==
      [(s + 4 * t) * continuous + (64 * u + 32 * l + 8 * n + a)]
  {
    DivModUnique(i, 4, t, y);
    DivModUnique(j, 8, 8 * u + c, a);
    DivModUnique(8 * u + c, 8, u, c);
    assert ElementStrided(S, i, j / 8 % 8) == s + 4 * t;
    assert ElementContiguous(X, S, L, i, j) == 64 * u + 32 * l + 8 * n + a;
  }
  lemma SplitA(s: int, l: int)
    requires 0 <= l < 2
    ensures StepA(2 * s + l) == s && LeadA(2 * s + l) == l
  {
    DivModUnique(2 * s + l, 2, s, l);
  }
  lemma SplitB(s: int, l: int)
    requires 0 <= s < 4
    ensures StepB(s + 4 * l) == s && LeadB(s + 4 * l) == l
  {
    DivModUnique(s + 4 * l, 4, l, s);
  }
  /** Row y of tile row t, column a of vector c of tile u.  In the A operand c = 2 s + l, in the B operand c = s + 4 l:
      the vector goes to row s, half l, the row number mixed into its place. */
  lemma ACongruousPlaces(stride: int, continuous: int, i: int, j: int, t: int, y: int, y1: int, y0: int,
                         u: int, c: int, a: int, s: int, s1: int, s0: int, l: int)
    requires stride % 4 == 0 && continuous % 64 == 0 && InTileRow(i, t, y, y1, y0) && InVector(j, u, c, a)
    requires TwoBits(s, s1, s0) && 0 <= l < 2 && c == 2 * s + l
    ensures ACongruous(stride, continuous).Ok?
    ensures ACongruous(stride, continuous).value.forward(i, j) ==
      [(s + 4 * t) * continuous + (64 * u + 32 * l + 8 * Mixed(y1, y0, s1, s0) + a)]
  {
    XorOfFour(y, y1, y0, s, s1, s0);
    SplitA(s, l);
    ElementIs(Xor4x4, StepA, LeadA, stride, continuous, i, j, t, y, y1, y0, u, c, a, s, l, Mixed(y1, y0, s1, s0));
  }
  lemma BCongruousPlaces(stride: int, continuous: int, i: int, j: int, t: int, y: int, y1: int, y0: int,
                         u: int, c: int, a: int, s: int, s1: int, s0: int, l: int)
    requires stride % 4 == 0 && continuous % 64 == 0 && InTileRow(i, t, y, y1, y0) && InVector(j, u, c, a)
    requires TwoBits(s, s1, s0) && 0 <= l < 2 && c == s + 4 * l
    ensures BCongruous(stride, continuous).Ok?
    ensures BCongruous(stride, continuous).value.forward(i, j) ==
      [(s + 4 * t) * continuous + (64 * u + 32 * l + 8 * Mixed(y1, y0, s1, s0) + a)]
  {
    XorOfFour(y, y1, y0, s, s1, s0);
    SplitB(s, l);
    ElementIs(Xor4x4, StepB, LeadB, stride, continuous, i, j, t, y, y1, y0, u, c, a, s, l, Mixed(y1, y0, s1, s0));
  }
  lemma SameParity(h: int, k: int)
    ensures (h % 2 + k) % 2 == (h + k) % 2
  {
  }
  lemma CrosswiseAt(P: (int, int) -> int, stride: int, continuous: int, i: int, v: int, q: int, e: int)
    requires 0 <= q < 8 && 0 <= e < 4
    ensures CrosswiseWith(P, stride, continuous).forward(i, 4 * (8 * v + q) + e) ==
      [e + P(i, q) * 4 + (8 * v + q) * stride * 4]
  {
    DivModUnique(4 * (8 * v + q) + e, 4, 8 * v + q, e);
    DivModUnique(8 * v + q, 8, v, q);
  }
  lemma PermutedIs(h: nat, d: nat, b: nat, x: nat, w: nat, z: nat, o: nat)
    requires d < 2 && b < 2 && x < 4 && w < 2 && z < 2 && o < 2
    ensures Permuted(16 * h + 8 * d + 4 * b + x, 4 * w + 2 * z + o) ==
      16 * h + 4 * x + 2 * ((h + (d + w)) % 2) + (b + z) % 2
  {
    var q := 4 * w + 2 * z + o;
    DivModUnique(q, 4, w, 2 * z + o);
    DivModUnique(2 * z + o, 2, z, o);
    PermutedParts(h, d, b, x, q);
    SameParity(h, d + w);
  }
  /** Row 16 h + 8 d + 4 b + x, column e of vector 8 v + 4 w + 2 z + o: the row's low two bits move up, its bits d and b
      are mixed with those of h and of the vector's number. */
  lemma CrosswisePlaces(stride: int, continuous: int, h: nat, d: nat, b: nat, x: nat, v: nat, w: nat, z: nat, o: nat,
                        e: nat)
    requires d < 2 && b < 2 && x < 4 && w < 2 && z < 2 && o < 2 && e < 4 && stride % 32 == 0 && continuous % 32 == 0
    ensures var i, q := 16 * h + 8 * d + 4 * b + x, 4 * w + 2 * z + o;
      Crosswise(stride, continuous).Ok? &&
      Crosswise(stride, continuous).value.forward(i, 4 * (8 * v + q) + e) ==
        [e + (16 * h + 4 * x + 2 * ((h + (d + w)) % 2) + (b + z) % 2) * 4 + (8 * v + q) * stride * 4]
  {
    var i, q := 16 * h + 8 * d + 4 * b + x, 4 * w + 2 * z + o;
    PermutedIs(h, d, b, x, w, z, o);
    CrosswiseAt(Permuted, stride, continuous, i, v, q, e);
  }
  /** Which of them an operand gets. */
  lemma VoltaABLayoutPlaces(stride: int, continuous: int, isA: bool, kfactor: int, i: int, j: int)
    ensures var r := VoltaABLayout(stride, continuous, isA, kfactor);
      if kfactor == 2 then r == Crosswise(stride, continuous)
      else if continuous % 64 == 0 then
        r == if isA then ACongruous(stride, continuous) else BCongruous(stride, continuous)
      else r.Ok? && RowsPadded(r.value, continuous, 16, i, j)
  {
  }
}
