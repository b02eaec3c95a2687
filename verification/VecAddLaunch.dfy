/** The vector add launch: tile numbering, the result on the whole matrix, and the kernel's own program order. */
module VecAddLaunch {
  import opened Arith
  import opened PipeProtocol
  import opened VecAdd

  // ----- tile numbering

  /** M, N and the block sizes of a launch. */
  datatype Shape = Shape(M: int, N: int, bm: int, bn: int)

  predicate LegalShape(s: Shape) { s.M >= 0 && s.N >= 0 && s.bm > 0 && s.bn > 0 }

  function Rows(s: Shape): int requires LegalShape(s) { s.M / s.bm }
  function Cols(s: Shape): int requires LegalShape(s) { s.N / s.bn }
  function Tiles(s: Shape): nat
    requires LegalShape(s)
  {
    DivBelow(s.M, s.bm, 0);
    DivBelow(s.N, s.bn, 0);
    MulMono(0, Rows(s), Cols(s));
    Rows(s) * Cols(s)
  }
  /** At most 48 physical kernels share the tiles. */
  function Kernels(s: Shape): nat requires LegalShape(s) { if Tiles(s) < 48 then Tiles(s) else 48 }

  /** ceildiv(tiles - p, num); only kernels 0 .. num - 1 exist. */
  function TasksOf(tiles: nat, num: nat, p: int): nat {
    if 0 <= p < num <= tiles then
      DivBelow(tiles - p + num - 1, num, 0);
      (tiles - p + num - 1) / num
    else 0
  }
  function TileNo(num: int, p: int, t: int): int { t * num + p }
  function CornerX(s: Shape, l: int): int requires LegalShape(s) { if Cols(s) > 0 then l / Cols(s) * s.bm else 0 }
  function CornerY(s: Shape, l: int): int requires LegalShape(s) { if Cols(s) > 0 then l % Cols(s) * s.bn else 0 }

  function GridOf(s: Shape, A: Matrix, B: Matrix): Grid
    requires LegalShape(s)
  {
    var num, tiles := Kernels(s), Tiles(s);
    Grid(num, (p: int) => TasksOf(tiles, num, p),
         (p: int, t: int) => CornerX(s, TileNo(num, p, t)), (p: int, t: int) => CornerY(s, TileNo(num, p, t)),
         s.bm, s.bn, A, B)
  }

  /** (kernel, task) and tile number determine each other. */
  lemma TaskOfTile(tiles: nat, num: nat, p: int, t: int)
    requires 0 < num <= tiles && 0 <= p < num
    ensures 0 <= t < TasksOf(tiles, num, p) <==> 0 <= TileNo(num, p, t) < tiles
    ensures TileNo(num, p, t) / num == t && TileNo(num, p, t) % num == p
  {
    DivModUnique(TileNo(num, p, t), num, t, p);
    DivBelow(TileNo(num, p, t), num, 0);
    DivBelow(tiles - p + num - 1, num, t + 1);
    assert (t + 1) * num == t * num + num;
  }

  /** A point lies in the tile of its own block row and block column, and in no other. */
  lemma PointInTile(s: Shape, l: int, x: int, y: int)
    requires LegalShape(s) && Cols(s) > 0
    ensures CornerX(s, l) <= x < CornerX(s, l) + s.bm && CornerY(s, l) <= y < CornerY(s, l) + s.bn
      <==> x / s.bm == l / Cols(s) && y / s.bn == l % Cols(s)
  {
    InStripe(x, s.bm, l / Cols(s));
    InStripe(y, s.bn, l % Cols(s));
  }

  lemma InStripe(x: int, d: int, q: int)
    requires d > 0
    ensures q * d <= x < q * d + d <==> x / d == q
  {
    DivModLaw(x, d);
    if q * d <= x < q * d + d { DivModUnique(x, d, q, x - q * d); }
  }

  lemma GridLegal(s: Shape, A: Matrix, B: Matrix)
    requires LegalShape(s)
    ensures Legal(GridOf(s, A, B))
  {
    var g, num, tiles := GridOf(s, A, B), Kernels(s), Tiles(s);
    forall p, t, q, u | IsTask(g, p, t) && IsTask(g, q, u) && (p != q || t != u)
      ensures Apart(g, p, t, q, u)
    {
      var l, k := TileNo(num, p, t), TileNo(num, q, u);
      TaskOfTile(tiles, num, p, t);
      TaskOfTile(tiles, num, q, u);
      assert l != k;
      ColsPositive(s);
      forall x, y ensures !(InTile(g, p, t, x, y) && InTile(g, q, u, x, y)) {
        PointInTile(s, l, x, y);
        PointInTile(s, k, x, y);
        DivModLaw(l, Cols(s));
        DivModLaw(k, Cols(s));
      }
    }
  }

  lemma ColsPositive(s: Shape)
    requires LegalShape(s) && Tiles(s) > 0
    ensures Cols(s) > 0 && Rows(s) > 0
  {
    DivBelow(s.M, s.bm, 0);
    DivBelow(s.N, s.bn, 0);
  }

  /** The part of the matrix covered by whole blocks: all of it when the blocks divide M and N. */
  predicate Covered(s: Shape, x: int, y: int) requires LegalShape(s) {
    0 <= x < s.M - s.M % s.bm && 0 <= y < s.N - s.N % s.bn
  }

  lemma TaskFor(tiles: nat, num: nat, l: int) returns (p: int, t: int)
    requires 0 < num <= tiles && 0 <= l < tiles
    ensures 0 <= p < num && 0 <= t < TasksOf(tiles, num, p) && TileNo(num, p, t) == l
  {
    p, t := l % num, l / num;
    DivModLaw(l, num);
    TaskOfTile(tiles, num, p, t);
  }
  lemma CoveredByTask(s: Shape, A: Matrix, B: Matrix, x: int, y: int) returns (p: int, t: int)
    requires LegalShape(s) && Covered(s, x, y)
    ensures IsTask(GridOf(s, A, B), p, t) && InTile(GridOf(s, A, B), p, t, x, y)
  {
    var r, c, cols := x / s.bm, y / s.bn, Cols(s);
    WholeStripes(x, s.M, s.bm);
    WholeStripes(y, s.N, s.bn);
    TableAt(r, c, Rows(s), cols);
    var l := r * cols + c;
    p, t := TaskFor(Tiles(s), Kernels(s), l);
    PointInTile(s, l, x, y);
  }

  lemma TaskIsCovered(s: Shape, A: Matrix, B: Matrix, p: int, t: int, x: int, y: int)
    requires LegalShape(s) && IsTask(GridOf(s, A, B), p, t) && InTile(GridOf(s, A, B), p, t, x, y)
    ensures Covered(s, x, y)
  {
    var num, cols := Kernels(s), Cols(s);
    var l := TileNo(num, p, t);
    TaskOfTile(Tiles(s), num, p, t);
    ColsPositive(s);
    PointInTile(s, l, x, y);
    DivModLaw(l, cols);
    DivBelow(l, cols, Rows(s));
    DivBelow(l, cols, 0);
    WholeStripes(x, s.M, s.bm);
    WholeStripes(y, s.N, s.bn);
  }
  lemma WholeStripes(x: int, m: int, d: int)
    requires d > 0
    ensures 0 <= x < m - m % d <==> 0 <= x / d < m / d
  {
    DivModLaw(m, d);
    DivBelow(x, d, m / d);
  }

  /** Every complete run, in every interleaving: C = A + B wherever whole blocks reach, untouched elsewhere. */
  lemma LaunchAdds(s: Shape, A: Matrix, B: Matrix, m: Machine, acts: seq<Act>, x: int, y: int)
    requires LegalShape(s) && Initial(GridOf(s, A, B), m) && Schedule(GridOf(s, A, B), m, acts)
    requires AllFinished(GridOf(s, A, B), After(GridOf(s, A, B), m, acts))
    ensures After(GridOf(s, A, B), m, acts).C(x, y) == (if Covered(s, x, y) then A(x, y) + B(x, y) else m.C(x, y))
    ensures s.M % s.bm == 0 && s.N % s.bn == 0 ==> (Covered(s, x, y) <==> 0 <= x < s.M && 0 <= y < s.N)
  {
    var g := GridOf(s, A, B);
    var z := After(g, m, acts);
    GridLegal(s, A, B);
    FinishedRun(g, m, acts);
    DivModLaw(s.M, s.bm);
    DivModLaw(s.N, s.bn);
    if Covered(s, x, y) {
      var p, t := CoveredByTask(s, A, B, x, y);
      assert TileOk(g, z.C, p, t);
    } else {
      forall p, t | IsTask(g, p, t) ensures !InTile(g, p, t, x, y) {
        if InTile(g, p, t, x, y) { TaskIsCovered(s, A, B, p, t, x, y); }
      }
    }
  }
}
