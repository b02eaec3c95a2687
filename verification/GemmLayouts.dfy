/** Shared-memory layouts of the matrix operands: which address each element of a stride x continuous tile gets. */
module GemmLayouts {
  import opened Arith
  import opened Results

  // ----- xor by addition modulo 2

  function Xor2x2(i: int, j: int): int { (i + j) % 2 }
  function Xor4x4(i: int, j: int): int { 2 * Xor2x2(i / 2, j / 2) + Xor2x2(i % 2, j % 2) }
  function Xor8x8(i: int, j: int): int { 2 * Xor4x4(i / 2, j / 2) + Xor2x2(i % 2, j % 2) }

  /** X behaves as exclusive or on numbers below n: it stays below n and is undone by doing it again. */
  ghost predicate IsXor(X: (int, int) -> int, n: int) {
    forall i, j :: 0 <= i < n && 0 <= j < n ==> 0 <= X(i, j) < n && X(X(i, j), j) == i
  }
  lemma Xor2Law()
    ensures IsXor(Xor2x2, 2)
  {
  }
  lemma Pair(a: int, b: int)
    requires 0 <= b < 2
    ensures (2 * a + b) / 2 == a && (2 * a + b) % 2 == b
  {
  }
  /** Doubling: an exclusive or on the upper bits and one on the lowest. */
  lemma XorDouble(X: (int, int) -> int, Y: (int, int) -> int, Z: (int, int) -> int, n: int)
    requires IsXor(X, n) && IsXor(Z, 2) && forall i, j :: Y(i, j) == 2 * X(i / 2, j / 2) + Z(i % 2, j % 2)
    ensures IsXor(Y, 2 * n)
  {
    forall i, j | 0 <= i < 2 * n && 0 <= j < 2 * n
      ensures 0 <= Y(i, j) < 2 * n && Y(Y(i, j), j) == i
    {
      var a, b := X(i / 2, j / 2), Z(i % 2, j % 2);
      Pair(a, b);
      assert Y(Y(i, j), j) == 2 * X(a, j / 2) + Z(b, j % 2);
    }
  }
  lemma Xor4Law()
    ensures IsXor(Xor4x4, 4)
  {
    Xor2Law();
    XorDouble(Xor2x2, Xor4x4, Xor2x2, 2);
  }
  lemma Xor8Law()
    ensures IsXor(Xor8x8, 8)
  {
    Xor4Law();
    Xor2Law();
    XorDouble(Xor4x4, Xor8x8, Xor2x2, 4);
  }

  // ----- the layouts

  /** A layout of the box rows x cols: each element's index vector. */
  datatype Layout = Layout(rows: int, cols: int, forward: (int, int) -> seq<int>)

  predicate InTile(g: Layout, i: int, j: int) { 0 <= i < g.rows && 0 <= j < g.cols }
  ghost predicate Injective(g: Layout) {
    forall i, j, k, l :: InTile(g, i, j) && InTile(g, k, l) && g.forward(i, j) == g.forward(k, l) ==> i == k && j == l
  }
  ghost predicate At(g: Layout, n: int, i: int, j: int) { InTile(g, i, j) && g.forward(i, j) == [n] }
  ghost predicate Fills(g: Layout, n: int) { exists i, j :: At(g, n, i, j) }
  /** Flat layouts: the addresses are exactly 0 .. size - 1, each used once. */
  ghost predicate Permutes(g: Layout, size: int) {
    && Injective(g)
    && (forall i, j :: InTile(g, i, j) ==> |g.forward(i, j)| == 1 && 0 <= g.forward(i, j)[0] < size)
    && (forall n :: 0 <= n < size ==> Fills(g, n))
  }

  /** Index inside a tile of 8 rows of w vectors of v elements, when Y(c, s) replaces vector column c in row s. */
  function TileIndex(Y: (int, int) -> int, v: int, w: int, i: int, j: int): int
    requires v > 0 && w > 0
  {
    j % v + (Y(j / v % w, i % 8) + i % 8 * w) * v
  }
  function SwizzledTile(Y: (int, int) -> int, v: int, w: int, stride: int, continuous: int): Layout
    requires v > 0 && w > 0
  {
    Layout(stride, continuous, (i: int, j: int) => [j / v / w, i / 8, TileIndex(Y, v, w, i, j)])
  }
  /** Full bank: 8 vectors, three bits swizzled.  Half bank: 4 vectors, two bits swizzled, the same for rows 2s and
      2s + 1. */
  function FullColumn(c: int, s: int): int { Xor8x8(c, s) }
  function HalfColumn(c: int, s: int): int { Xor4x4(c, s / 2) }
  function FullBank(stride: int, continuous: int, elementSize: int): Result<Layout>
    requires 1 <= elementSize <= 128
  {
    var v := 128 / elementSize;
    if stride % 8 == 0 && continuous % (v * 8) == 0 then
      Ok(SwizzledTile(FullColumn, v, 8, stride, continuous))
    else
      CheckFailed
  }
  function HalfBank(stride: int, continuous: int, elementSize: int): Result<Layout>
    requires 1 <= elementSize <= 128
  {
    var v := 128 / elementSize;
    if stride % 8 == 0 && continuous % (v * 4) == 0 then
      Ok(SwizzledTile(HalfColumn, v, 4, stride, continuous))
    else
      CheckFailed
  }
  function KinnerIndex(i: int, j: int): int { j % 16 / 4 * 4 + Xor4x4(j % 16 % 4, i % 4) + i % 4 * 16 }
  function KouterIndex(i: int, j: int): int { j % 16 % 4 + Xor4x4(j % 16 / 4, i % 4) * 4 + i % 4 * 16 }
  function F64Kinner(stride: int, continuous: int): Layout {
    Layout(stride, continuous, (i: int, j: int) => [j / 16, i / 4, KinnerIndex(i, j)])
  }
  function F64Kouter(stride: int, continuous: int): Layout {
    Layout(stride, continuous, (i: int, j: int) => [j / 16, i / 4, KouterIndex(i, j)])
  }
  function PaddedWidth(continuous: int, elementSize: int): int
    requires elementSize >= 1
  {
    if elementSize * continuous % 256 == 0 then continuous + 128 / elementSize else continuous
  }
  function Padded(stride: int, continuous: int, elementSize: int): Layout
    requires elementSize >= 1
  {
    var padded := PaddedWidth(continuous, elementSize);
    Layout(stride, continuous, (i: int, j: int) => [i * padded + j])
  }

  /** The dispatch for A and B operands. */
  function ABLayout(stride: int, continuous: int, continuity: int, elementSize: int, kfactor: int): Result<Layout>
    requires 1 <= elementSize <= 128
  {
    if elementSize == 64 then
      if kfactor == 1 && continuity % 16 == 0 then Ok(F64Kouter(stride, continuous))
      else if kfactor == 2 && continuity % 16 == 0 then Ok(F64Kinner(stride, continuous))
      else Ok(Padded(stride, continuous, elementSize))
    else
      var v := 128 / elementSize;
      if kfactor == 1 && elementSize == 8 then Ok(Padded(stride, continuous, elementSize))
      else if continuous % (v * 8) == 0 then FullBank(stride, continuous, elementSize)
      else if continuous % (v * 4) == 0 then HalfBank(stride, continuous, elementSize)
      else Ok(Padded(stride, continuous, elementSize))
  }

  // ----- injectivity

  lemma Radix(k: int, a: int, b: int, c: int, d: int)
    requires k > 0 && 0 <= a < k && 0 <= c < k && a + b * k == c + d * k
    ensures a == c && b == d
  {
    DivModUnique(a + b * k, k, b, a);
    DivModUnique(c + d * k, k, d, c);
  }
  /** In every row, Y permutes the vector columns. */
  ghost predicate Permuting(Y: (int, int) -> int, w: int) {
    && w > 0 && (forall c, s :: 0 <= c < w && 0 <= s < 8 ==> 0 <= Y(c, s) < w)
    && (forall c, d, s :: 0 <= c < w && 0 <= d < w && 0 <= s < 8 && Y(c, s) == Y(d, s) ==> c == d)
  }
  lemma FullPermuting()
    ensures Permuting(FullColumn, 8)
  {
    Xor8Law();
    XorPermutes(Xor8x8, FullColumn, 8, (s: int) => s);
  }
  lemma HalfPermuting()
    ensures Permuting(HalfColumn, 4)
  {
    Xor4Law();
    XorPermutes(Xor4x4, HalfColumn, 4, (s: int) => s / 2);
  }
  lemma XorPermutes(X: (int, int) -> int, Y: (int, int) -> int, n: int, f: int -> int)
    requires n > 0 && IsXor(X, n) && (forall s :: 0 <= s < 8 ==> 0 <= f(s) < n) && forall c, s :: Y(c, s) == X(c, f(s))
    ensures Permuting(Y, n)
  {
    forall c, d, s | 0 <= c < n && 0 <= d < n && 0 <= s < 8 && Y(c, s) == Y(d, s) ensures c == d {
      assert X(X(c, f(s)), f(s)) == c && X(X(d, f(s)), f(s)) == d;
    }
  }
  lemma TileTells(Y: (int, int) -> int, v: int, w: int, i: int, j: int, k: int, l: int)
    requires Permuting(Y, w) && v > 0 && j / v / w == l / v / w && i / 8 == k / 8
    requires TileIndex(Y, v, w, i, j) == TileIndex(Y, v, w, k, l)
    ensures i == k && j == l
  {
    DivModLaw(j, v);
    DivModLaw(l, v);
    DivModLaw(j / v, w);
    DivModLaw(l / v, w);
    var c, d, s, t := j / v % w, l / v % w, i % 8, k % 8;
    Radix(v, j % v, Y(c, s) + s * w, l % v, Y(d, t) + t * w);
    Radix(w, Y(c, s), s, Y(d, t), t);
  }
  lemma KinnerTells(X: (int, int) -> int, i: int, j: int, k: int, l: int)
    requires IsXor(X, 4) && j / 16 == l / 16 && i / 4 == k / 4
    requires j % 16 / 4 * 4 + X(j % 16 % 4, i % 4) + i % 4 * 16 == l % 16 / 4 * 4 + X(l % 16 % 4, k % 4) + k % 4 * 16
    ensures i == k && j == l
  {
    var c, d, s, t := j % 16, l % 16, i % 4, k % 4;
    var x, y := X(c % 4, s), X(d % 4, t);
    assert s == t && c / 4 == d / 4 && x == y;
    assert X(x, s) == c % 4 && X(y, t) == d % 4;
  }
  lemma KouterTells(X: (int, int) -> int, i: int, j: int, k: int, l: int)
    requires IsXor(X, 4) && j / 16 == l / 16 && i / 4 == k / 4
    requires j % 16 % 4 + X(j % 16 / 4, i % 4) * 4 + i % 4 * 16 == l % 16 % 4 + X(l % 16 / 4, k % 4) * 4 + k % 4 * 16
    ensures i == k && j == l
  {
    var c, d, s, t := j % 16, l % 16, i % 4, k % 4;
    var x, y := X(c / 4, s), X(d / 4, t);
    assert s == t && c % 4 == d % 4 && x == y;
    assert X(x, s) == c / 4 && X(y, t) == d / 4;
  }
  lemma PaddedInjective(stride: int, continuous: int, elementSize: int)
    requires elementSize >= 1
    ensures Injective(Padded(stride, continuous, elementSize))
  {
    var g, p := Padded(stride, continuous, elementSize), PaddedWidth(continuous, elementSize);
    forall i, j, k, l | InTile(g, i, j) && InTile(g, k, l) && g.forward(i, j) == g.forward(k, l)
      ensures i == k && j == l
    {
      assert g.forward(i, j)[0] == g.forward(k, l)[0];
      Radix(p, j, i, l, k);
    }
  }

  /** Whatever branch the dispatch takes, no two elements of the tile share an address.  It fails only on a swizzled
      branch whose stride is not a multiple of 8. */
  lemma ABLayoutInjective(stride: int, continuous: int, continuity: int, elementSize: int, kfactor: int)
    requires 1 <= elementSize <= 128
    ensures var r := ABLayout(stride, continuous, continuity, elementSize, kfactor);
            && (r.Ok? ==> r.value.rows == stride && r.value.cols == continuous && Injective(r.value))
            && (r.CheckFailed? <==> elementSize != 64 && !(kfactor == 1 && elementSize == 8)
                                    && continuous % (128 / elementSize * 4) == 0 && stride % 8 != 0)
  {
    PaddedInjective(stride, continuous, elementSize);
    MultipleOf8(continuous, 128 / elementSize);
    KouterInjective(stride, continuous);
    KinnerInjective(stride, continuous);
    FullPermuting();
    HalfPermuting();
    TileInjective(FullColumn, 128 / elementSize, 8, stride, continuous);
    TileInjective(HalfColumn, 128 / elementSize, 4, stride, continuous);
  }
  lemma MultipleOf8(n: int, v: int)
    requires v > 0
    ensures n % (v * 8) == 0 ==> n % (v * 4) == 0
  {
    if n % (v * 8) == 0 {
      DivModLaw(n, v * 8);
      assert n == n / (v * 8) * 2 * (v * 4);
      DivModUnique(n, v * 4, n / (v * 8) * 2, 0);
    }
  }
  lemma SameParts(a: seq<int>, b: seq<int>)
    requires a == b && |a| == 3
    ensures a[0] == b[0] && a[1] == b[1] && a[2] == b[2]
  {
  }
  lemma TileInjective(Y: (int, int) -> int, v: int, w: int, stride: int, continuous: int)
    requires v > 0 && Permuting(Y, w)
    ensures Injective(SwizzledTile(Y, v, w, stride, continuous))
  {
    var g := SwizzledTile(Y, v, w, stride, continuous);
    forall i, j, k, l | InTile(g, i, j) && InTile(g, k, l) && g.forward(i, j) == g.forward(k, l)
      ensures i == k && j == l
    {
      SameParts(g.forward(i, j), g.forward(k, l));
      TileTells(Y, v, w, i, j, k, l);
    }
  }
  lemma KinnerInjective(stride: int, continuous: int)
    ensures Injective(F64Kinner(stride, continuous))
  {
    Xor4Law();
    var g := F64Kinner(stride, continuous);
    forall i, j, k, l | InTile(g, i, j) && InTile(g, k, l) && g.forward(i, j) == g.forward(k, l)
      ensures i == k && j == l
    {
      SameParts(g.forward(i, j), g.forward(k, l));
      KinnerTells(Xor4x4, i, j, k, l);
    }
  }
  lemma KouterInjective(stride: int, continuous: int)
    ensures Injective(F64Kouter(stride, continuous))
  {
    Xor4Law();
    var g := F64Kouter(stride, continuous);
    forall i, j, k, l | InTile(g, i, j) && InTile(g, k, l) && g.forward(i, j) == g.forward(k, l)
      ensures i == k && j == l
    {
      SameParts(g.forward(i, j), g.forward(k, l));
      KouterTells(Xor4x4, i, j, k, l);
    }
  }
}
