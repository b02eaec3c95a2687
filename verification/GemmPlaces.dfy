/** Where the builders put each element: thread and register in terms of the digits of row and column.  A row is
    written as stripe, warp, half and offset, a column likewise; p and q are the warps along rows and columns. */
module GemmPlaces {
  import opened Arith
  import opened Boxes
  import opened Fragments
  import opened GemmFragments
  import opened GemmBuilders
  import opened Results

  // ----- one repetition, one replication

  lemma Flat2(a: int, b: int, m: int, n: int)
    ensures Flat([a, b], [m, n]) == a + m * b
  {
    assert [a, b][1..] == [b] && [m, n][1..] == [n] && [b][1..] == [] && [n][1..] == [];
    assert Flat([], []) == 0 && Flat([b], [n]) == b + n * Flat([], []);
  }
  lemma Rev2(a: int, b: int)
    ensures Rev([a, b]) == [b, a]
  {
    RevAt([a, b]);
  }
  /** The number of block (y, z) among a x b, the first dimension fastest or the last. */
  function Number(a: int, b: int, lf: bool, y: int, z: int): int { if lf then z + b * y else y + a * z }

  /** Element (s, t) of block (y, z). */
  predicate Split(m: int, n: int, i: int, j: int, y: int, s: int, z: int, t: int) {
    0 <= s < m && 0 <= t < n && i == y * m + s && j == z * n + t
  }
  lemma OuterIs(f: Fragment, m: int, n: int, a: int, b: int, lf: bool, i: int, j: int, y: int, s: int, z: int, t: int)
    requires f.shape == [m, n] && Split(m, n, i, j, y, s, z, t)
    ensures Inner(f, [i, j]) == [s, t] && Outer(f, [a, b], lf, [i, j]) == Number(a, b, lf, y, z)
  {
    DivModUnique(i, m, y, s);
    DivModUnique(j, n, z, t);
    var x := [i, j];
    assert Mods(x, [m, n]) == [s, t] && Quots(x, [m, n]) == [y, z];
    if lf {
      Rev2(y, z);
      Rev2(a, b);
      Flat2(z, y, b, a);
    } else {
      Flat2(y, z, a, b);
    }
  }
  /** f has this shape, and puts element (i, j), replica r, into this thread and register. */
  predicate Puts(f: Fragment, m: int, n: int, threads: int, regs: int, i: int, j: int, r: int, th: int, rg: int) {
    && f.shape == [m, n] && f.threads == threads && f.regs == regs && f.rep > 0
    && f.thread([i, j], r) == th && f.index([i, j]) == rg
  }
  /** The same element, block (y, z) of the repetition: (i, j) in a fragment of m2 x n2. */
  predicate Grown(m: int, n: int, s: int, t: int, a: int, b: int, y: int, z: int, m2: int, n2: int, i: int, j: int) {
    0 <= s < m && 0 <= t < n && m2 == m * a && n2 == n * b && i == y * m + s && j == z * n + t
  }
  lemma ThreadPuts(f: Fragment, m: int, n: int, th: int, rg: int, s: int, t: int, r: int, x: int, k: int,
                   a: int, b: int, lf: bool, y: int, z: int, m2: int, n2: int, th2: int, i: int, j: int, x2: int)
    requires Puts(f, m, n, th, rg, s, t, r, x, k) && Grown(m, n, s, t, a, b, y, z, m2, n2, i, j)
    requires th2 == th * (a * b) && x2 == x + th * Number(a, b, lf, y, z)
    ensures Puts(Rep2(f, a, b, true, lf), m2, n2, th2, rg, i, j, r, x2, k) && Rep2(f, a, b, true, lf).rep == f.rep
  {
    OuterIs(f, m, n, a, b, lf, i, j, y, s, z, t);
    Volume2(a, b);
    Rep2Shape(f, m, n, a, b, true, lf);
  }
  lemma IndexPuts(f: Fragment, m: int, n: int, th: int, rg: int, s: int, t: int, r: int, x: int, k: int,
                  a: int, b: int, lf: bool, y: int, z: int, m2: int, n2: int, rg2: int, i: int, j: int, k2: int)
    requires Puts(f, m, n, th, rg, s, t, r, x, k) && Grown(m, n, s, t, a, b, y, z, m2, n2, i, j)
    requires rg2 == rg * (a * b) && k2 == k + rg * Number(a, b, lf, y, z)
    ensures Puts(Rep2(f, a, b, false, lf), m2, n2, th, rg2, i, j, r, x, k2) && Rep2(f, a, b, false, lf).rep == f.rep
  {
    OuterIs(f, m, n, a, b, lf, i, j, y, s, z, t);
    Volume2(a, b);
    Rep2Shape(f, m, n, a, b, false, lf);
  }
  lemma CopiesPuts(f: Fragment, m: int, n: int, th: int, rg: int, i: int, j: int, x: int, k: int, c: int,
                   r: int, th2: int, x2: int)
    requires Puts(f, m, n, th, rg, i, j, 0, x, k) && c >= 1 && f.rep == 1 && th2 == th * c && x2 == x + th * r
    ensures Copies(f, c).Ok? && Puts(Copies(f, c).value, m, n, th2, rg, i, j, r, x2, k)
  {
    assert Copies(f, c) == Ok(Replicate(f, c));
    assert Mod(r, 1) == 0 && Div(r, 1) == r;
  }
  /** Offset s in piece w of p pieces of width d. */
  lemma Within(w: int, p: int, d: int, s: int, size: int)
    requires 0 <= w < p && 0 <= s < d && size == d * p
    ensures 0 <= w * d + s < size
  {
    MulMono(0, w, d);
    MulMono(w + 1, p, d);
  }

  // ----- digits

  /** Coordinate x as stripe a, piece w of p, offset s in a piece of width d. */
  predicate InPiece(x: int, d: int, p: int, a: int, w: int, s: int) {
    0 <= w < p && 0 <= s < d && x == a * (d * p) + (w * d + s)
  }
  /** Every coordinate has such digits. */
  lemma PieceOf(x: int, d: int, p: int) returns (a: int, w: int, s: int)
    requires d > 0 && p > 0
    ensures InPiece(x, d, p, a, w, s)
  {
    DivModLaw(x, d);
    DivModLaw(x / d, p);
    a, w, s := x / d / p, x / d % p, x % d;
    assert (a * p + w) * d == a * (d * p) + w * d;
  }
  /** Offset x below 16 (or 32) as half h and rest s. */
  predicate InHalf(x: int, d: int, h: int, s: int) { 0 <= h < 2 && 0 <= s < d && x == h * d + s }

  // ----- base tiles

  lemma Tile8x8(s: int, t: int)
    requires 0 <= s < 8 && 0 <= t < 8
    ensures Puts(Frag8x8(), 8, 8, 32, 2, s, t, 0, 4 * s + t / 2, t % 2)
    ensures Puts(Frag8x8Transposed(), 8, 8, 32, 2, t, s, 0, 4 * s + t / 2, t % 2)
  {
  }
  lemma Tile8x16(s: int, t: int)
    requires 0 <= s < 8 && 0 <= t < 16
    ensures Puts(Frag8x16(), 8, 16, 32, 4, s, t, 0, 4 * s + t / 4, t % 4)
  {
  }
  lemma Tile16x16(s: int, t: int)
    requires 0 <= s < 16 && 0 <= t < 16
    ensures Puts(Rep2(Frag16x16CDNA(), 1, 1, false, true), 16, 16, 64, 4, s, t, 0, s + 16 * (t / 4), t % 4)
    ensures Puts(Rep2(Frag16x16CDNA(), 1, 1, false, false), 16, 16, 64, 4, s, t, 0, s + 16 * (t / 4), t % 4)
    ensures Puts(Rep2(Frag16x16CDNATransposed(), 1, 1, false, false), 16, 16, 64, 4, t, s, 0, s + 16 * (t / 4), t % 4)
    ensures Rep2(Frag16x16CDNA(), 1, 1, false, true).rep == Rep2(Frag16x16CDNA(), 1, 1, false, false).rep == 1
    ensures Rep2(Frag16x16CDNATransposed(), 1, 1, false, false).rep == 1
  {
    var x, k := s + 16 * (t / 4), t % 4;
    IndexPuts(Frag16x16CDNA(), 16, 16, 64, 4, s, t, 0, x, k, 1, 1, true, 0, 0, 16, 16, 4, s, t, k);
    IndexPuts(Frag16x16CDNA(), 16, 16, 64, 4, s, t, 0, x, k, 1, 1, false, 0, 0, 16, 16, 4, s, t, k);
    IndexPuts(Frag16x16CDNATransposed(), 16, 16, 64, 4, t, s, 0, x, k, 1, 1, false, 0, 0, 16, 16, 4, t, s, k);
  }

  // ----- accumulators

  lemma F64At(p: int, q: int, m: int, n: int, i: int, j: int, a: int, w: int, s: int, b: int, u: int, t: int)
    requires InPiece(i, 8, p, a, w, s) && InPiece(j, 8, q, b, u, t)
    ensures var f := Rep2(Rep2(Frag8x8(), p, q, true, false), m, n, false, false);
      f.thread([i, j], 0) == 4 * s + t / 2 + 32 * (w + p * u) && f.index([i, j]) == t % 2 + 2 * (a + m * b)
  {
    var x, y, z, x2 := 4 * s + t / 2, w * 8 + s, u * 8 + t, 4 * s + t / 2 + 32 * (w + p * u);
    var p8, q8, th := 8 * p, 8 * q, 32 * (p * q);
    Tile8x8(s, t);
    ThreadPuts(Frag8x8(), 8, 8, 32, 2, s, t, 0, x, t % 2, p, q, false, w, u, p8, q8, th, y, z, x2);
    Within(w, p, 8, s, p8);
    Within(u, q, 8, t, q8);
    IndexPuts(Rep2(Frag8x8(), p, q, true, false), p8, q8, th, 2, y, z, 0, x2, t % 2, m, n, false, a, b,
              p8 * m, q8 * n, 2 * (m * n), i, j, t % 2 + 2 * (a + m * b));
  }
  /** Row i is offset s of warp row w's stripe a, column j offset t of warp column u's stripe b: tiles of 8 x 8 go round
      the warps in both directions.  Row s of a tile is on lanes 4 s .. 4 s + 3 of its warp, two columns a lane. */
  lemma FragmentCF64Places(bm: int, bn: int, wm: int, wn: int, i: int, j: int,
                           a: int, w: int, s: int, b: int, u: int, t: int)
    requires bm > 0 && bn > 0 && wm > 0 && wn > 0 && FragmentC_F64(bm, bn, wm, wn).Ok?
    requires InPiece(i, 8, bm / wm, a, w, s) && InPiece(j, 8, bn / wn, b, u, t)
    ensures var f := FragmentC_F64(bm, bn, wm, wn).value;
      && FragmentC(bm, bn, wm, wn, 64).Ok? && FragmentC(bm, bn, wm, wn, 64).value == f
      && f.thread([i, j], 0) == 4 * s + t / 2 + 32 * (w + bm / wm * u)
      && f.index([i, j]) == t % 2 + 2 * (a + wm / 8 * b)
  {
    F64At(bm / wm, bn / wn, wm / 8, wn / 8, i, j, a, w, s, b, u, t);
  }

  lemma CAt(p: int, q: int, m: int, n: int, i: int, j: int,
            a: int, w: int, y: int, h: int, s: int, b: int, u: int, t: int)
    requires InPiece(i, 16, p, a, w, y) && InHalf(y, 8, h, s) && InPiece(j, 8, q, b, u, t)
    ensures var f := Rep2(Rep2(Rep2(Frag8x8(), 2, 1, false, true), p, q, true, false), m, n, false, false);
      f.thread([i, j], 0) == 4 * s + t / 2 + 32 * (w + p * u) && f.index([i, j]) == t % 2 + 2 * h + 4 * (a + m * b)
  {
    var base := Rep2(Frag8x8(), 2, 1, false, true);
    var x, k, i1, j1 := 4 * s + t / 2, t % 2 + 2 * h, w * 16 + y, u * 8 + t;
    var p16, q8, th, x2 := 16 * p, 8 * q, 32 * (p * q), x + 32 * (w + p * u);
    Tile8x8(s, t);
    IndexPuts(Frag8x8(), 8, 8, 32, 2, s, t, 0, x, t % 2, 2, 1, true, h, 0, 16, 8, 4, y, t, k);
    ThreadPuts(base, 16, 8, 32, 4, y, t, 0, x, k, p, q, false, w, u, p16, q8, th, i1, j1, x2);
    Within(w, p, 16, y, p16);
    Within(u, q, 8, t, q8);
    IndexPuts(Rep2(base, p, q, true, false), p16, q8, th, 4, i1, j1, 0, x2, k, m, n, false, a, b,
              p16 * m, q8 * n, 4 * (m * n), i, j, k + 4 * (a + m * b));
  }
  /** Warps take turns on stripes of 16 rows and 8 columns; a thread keeps its column pair in rows s and s + 8 of the
      tile, then those of the warp's next stripes, down first. */
  lemma FragmentCPlaces(bm: int, bn: int, wm: int, wn: int, elementSize: int, i: int, j: int,
                        a: int, w: int, y: int, h: int, s: int, b: int, u: int, t: int)
    requires bm > 0 && bn > 0 && wm > 0 && wn > 0 && elementSize != 64 && FragmentC(bm, bn, wm, wn, elementSize).Ok?
    requires InPiece(i, 16, bm / wm, a, w, y) && InHalf(y, 8, h, s) && InPiece(j, 8, bn / wn, b, u, t)
    ensures var f := FragmentC(bm, bn, wm, wn, elementSize).value;
      && f.thread([i, j], 0) == 4 * s + t / 2 + 32 * (w + bm / wm * u)
      && f.index([i, j]) == t % 2 + 2 * h + 4 * (a + wm / 16 * b)
  {
    CAt(bm / wm, bn / wn, wm / 16, wn / 8, i, j, a, w, y, h, s, b, u, t);
  }

  lemma CCDNAAt(p: int, q: int, m: int, n: int, i: int, j: int, w: int, a: int, s: int, u: int, b: int, t: int)
    requires InPiece(i, 16, m, w, a, s) && InPiece(j, 16, n, u, b, t)
    ensures var f := Rep2(Rep2(Rep2(Frag16x16CDNA(), 1, 1, false, true), m, n, false, true), p, q, true, false);
      && f.thread([i, j], 0) == s + 16 * (t / 4) + 64 * (w + p * u)
      && f.index([i, j]) == t % 4 + 4 * (b + n * a)
  {
    var base := Rep2(Frag16x16CDNA(), 1, 1, false, true);
    var x, k, i1, j1 := s + 16 * (t / 4), t % 4 + 4 * (b + n * a), a * 16 + s, b * 16 + t;
    var m16, n16, rg := 16 * m, 16 * n, 4 * (m * n);
    Tile16x16(s, t);
    IndexPuts(base, 16, 16, 64, 4, s, t, 0, x, t % 4, m, n, true, a, b, m16, n16, rg, i1, j1, k);
    Within(a, m, 16, s, m16);
    Within(b, n, 16, t, n16);
    ThreadPuts(Rep2(base, m, n, false, true), m16, n16, 64, rg, i1, j1, 0, x, k, p, q, false, w, u,
               m16 * p, n16 * q, 64 * (p * q), i, j, x + 64 * (w + p * u));
  }
  /** On CDNA, 64 lanes: four neighbouring columns a lane, column groups on lanes 16 apart; each warp has a contiguous
      part of the block and keeps its tiles row by row. */
  lemma FragmentCCDNAPlaces(bm: int, bn: int, wm: int, wn: int, elementSize: int, i: int, j: int,
                            w: int, a: int, s: int, u: int, b: int, t: int)
    requires bm > 0 && bn > 0 && wm > 0 && wn > 0 && FragmentCCDNA(bm, bn, wm, wn, elementSize).Ok?
    requires InPiece(i, 16, wm / 16, w, a, s) && InPiece(j, 16, wn / 16, u, b, t)
    ensures var f := FragmentCCDNA(bm, bn, wm, wn, elementSize).value;
      && f.thread([i, j], 0) == s + 16 * (t / 4) + 64 * (w + bm / wm * u)
      && f.index([i, j]) == t % 4 + 4 * (b + wn / 16 * a)
  {
    CCDNAAt(bm / wm, bn / wn, wm / 16, wn / 16, i, j, w, a, s, u, b, t);
  }

  lemma HopperAt(p: int, q: int, c: int, m: int, i: int, j: int,
                 a: int, w: int, y: int, h: int, s: int, u: int, b: int, t: int)
    requires InPiece(i, 16, p, a, w, y) && InHalf(y, 8, h, s) && InPiece(j, 8, c, u, b, t) && 0 <= u < q
    ensures var f := Rep2(Rep2(Rep2(Frag8x8(), 2, c, false, false), p, q, true, false), m, 1, false, false);
      && f.thread([i, j], 0) == 4 * s + t / 2 + 32 * (w + p * u)
      && f.index([i, j]) == t % 2 + 2 * (h + 2 * b) + 4 * c * a
  {
    var warp := Rep2(Frag8x8(), 2, c, false, false);
    var x, k, i1, j1 := 4 * s + t / 2, t % 2 + 2 * (h + 2 * b), w * 16 + y, b * 8 + t;
    var p16, c8, c4, th, x2 := 16 * p, 8 * c, 4 * c, 32 * (p * q), x + 32 * (w + p * u);
    var n2 := c8 * q;
    Tile8x8(s, t);
    IndexPuts(Frag8x8(), 8, 8, 32, 2, s, t, 0, x, t % 2, 2, c, false, h, b, 16, c8, c4, y, j1, k);
    Within(b, c, 8, t, c8);
    ThreadPuts(warp, 16, c8, 32, c4, y, j1, 0, x, k, p, q, false, w, u, p16, n2, th, i1, j, x2);
    Within(w, p, 16, y, p16);
    Within(u, q, c8, j1, n2);
    assert 0 * n2 == 0;
    IndexPuts(Rep2(warp, p, q, true, false), p16, n2, th, c4, i1, j, 0, x2, k, m, 1, false, a, 0,
              p16 * m, n2, c4 * m, i, j, k + c4 * a);
  }
  /** On Hopper a warp has a contiguous range of columns, all of them before its next stripe of 16 rows. */
  lemma FragmentCHopperPlaces(bm: int, bn: int, wm: int, wn: int, i: int, j: int,
                              a: int, w: int, y: int, h: int, s: int, u: int, b: int, t: int)
    requires bm > 0 && bn > 0 && wm > 0 && wn > 0 && FragmentCHopper(bm, bn, wm, wn).Ok?
    requires InPiece(i, 16, bm / wm, a, w, y) && InHalf(y, 8, h, s)
    requires InPiece(j, 8, wn / 8, u, b, t) && 0 <= u < bn / wn
    ensures var f := FragmentCHopper(bm, bn, wm, wn).value;
      && f.thread([i, j], 0) == 4 * s + t / 2 + 32 * (w + bm / wm * u)
      && f.index([i, j]) == t % 2 + 2 * (h + 2 * b) + 4 * (wn / 8) * a
  {
    HopperAt(bm / wm, bn / wn, wn / 8, wm / 16, i, j, a, w, y, h, s, u, b, t);
  }

  // ----- the A operand

  lemma ATransposedAt(p: int, q: int, m: int, k: int, i: int, j: int, r: int,
                      a: int, x: int, g: int, s: int, b: int, w: int, y: int, h: int, t: int)
    requires q > 0 && i == a * 16 + x && InHalf(x, 8, g, s) && InPiece(j, 16, p, b, w, y) && InHalf(y, 8, h, t)
    ensures var c := Copies(Rep2(Rep2(Frag8x8Transposed(), 2, 2, false, true), 1, p, true, false), q);
      c.Ok? && var f := Rep2(c.value, k, m, false, true);
      && f.thread([i, j], r) == 4 * t + s / 2 + 32 * w + 32 * p * r
      && f.index([i, j]) == s % 2 + 2 * (h + 2 * g) + 8 * (b + m * a)
  {
    var base := Rep2(Frag8x8Transposed(), 2, 2, false, true);
    var warp := Rep2(base, 1, p, true, false);
    var l, e, j1 := 4 * t + s / 2, s % 2 + 2 * (h + 2 * g), w * 16 + y;
    var p16, p32, th := 16 * p, 32 * p, 32 * p * q;
    Tile8x8(t, s);
    IndexPuts(Frag8x8Transposed(), 8, 8, 32, 2, s, t, 0, l, s % 2, 2, 2, true, g, h, 16, 16, 8, x, y, e);
    ThreadPuts(base, 16, 16, 32, 8, x, y, 0, l, e, 1, p, false, 0, w, 16, p16, p32, x, j1, l + 32 * w);
    Within(w, p, 16, y, p16);
    CopiesPuts(warp, 16, p16, p32, 8, x, j1, l + 32 * w, e, q, r, th, l + 32 * w + p32 * r);
    IndexPuts(Copies(warp, q).value, 16, p16, th, 8, x, j1, r, l + 32 * w + p32 * r, e, k, m, true, a, b,
              16 * k, p16 * m, 8 * (k * m), i, j, e + 8 * (b + m * a));
  }
  lemma A16At(p: int, q: int, m: int, k: int, i: int, j: int, r: int,
              b: int, w: int, y: int, h: int, s: int, a: int, x: int, g: int, t: int)
    requires q > 0 && InPiece(i, 16, p, b, w, y) && InHalf(y, 8, h, s) && j == a * 16 + x && InHalf(x, 8, g, t)
    ensures var c := Copies(Rep2(Rep2(Frag8x8(), 2, 2, false, false), p, 1, true, true), q);
      c.Ok? && var f := Rep2(c.value, m, k, false, false);
      && f.thread([i, j], r) == 4 * s + t / 2 + 32 * w + 32 * p * r
      && f.index([i, j]) == t % 2 + 2 * (h + 2 * g) + 8 * (b + m * a)
  {
    var base := Rep2(Frag8x8(), 2, 2, false, false);
    var warp := Rep2(base, p, 1, true, true);
    var l, e, i1 := 4 * s + t / 2, t % 2 + 2 * (h + 2 * g), w * 16 + y;
    var p16, p32, th := 16 * p, 32 * p, 32 * p * q;
    Tile8x8(s, t);
    IndexPuts(Frag8x8(), 8, 8, 32, 2, s, t, 0, l, t % 2, 2, 2, false, h, g, 16, 16, 8, y, x, e);
    ThreadPuts(base, 16, 16, 32, 8, y, x, 0, l, e, p, 1, true, w, 0, p16, 16, p32, i1, x, l + 32 * w);
    Within(w, p, 16, y, p16);
    CopiesPuts(warp, p16, 16, p32, 8, i1, x, l + 32 * w, e, q, r, th, l + 32 * w + p32 * r);
    IndexPuts(Copies(warp, q).value, p16, 16, th, 8, i1, x, r, l + 32 * w + p32 * r, e, m, k, false, b, a,
              p16 * m, 16 * k, 8 * (m * k), i, j, e + 8 * (b + m * a));
  }
  lemma A8At(p: int, q: int, m: int, k: int, i: int, j: int, r: int,
             b: int, w: int, y: int, h: int, s: int, a: int, x: int, g: int, t: int)
    requires q > 0 && InPiece(i, 16, p, b, w, y) && InHalf(y, 8, h, s) && j == a * 32 + x && InHalf(x, 16, g, t)
    ensures var c := Copies(Rep2(Rep2(Frag8x16(), 2, 2, false, false), p, 1, true, true), q);
      c.Ok? && var f := Rep2(c.value, m, k, false, false);
      && f.thread([i, j], r) == 4 * s + t / 4 + 32 * w + 32 * p * r
      && f.index([i, j]) == t % 4 + 4 * (h + 2 * g) + 16 * (b + m * a)
  {
    var base := Rep2(Frag8x16(), 2, 2, false, false);
    var warp := Rep2(base, p, 1, true, true);
    var l, e, i1 := 4 * s + t / 4, t % 4 + 4 * (h + 2 * g), w * 16 + y;
    var p16, p32, th := 16 * p, 32 * p, 32 * p * q;
    Tile8x16(s, t);
    IndexPuts(Frag8x16(), 8, 16, 32, 4, s, t, 0, l, t % 4, 2, 2, false, h, g, 16, 32, 16, y, x, e);
    ThreadPuts(base, 16, 32, 32, 16, y, x, 0, l, e, p, 1, true, w, 0, p16, 32, p32, i1, x, l + 32 * w);
    Within(w, p, 16, y, p16);
    CopiesPuts(warp, p16, 32, p32, 16, i1, x, l + 32 * w, e, q, r, th, l + 32 * w + p32 * r);
    IndexPuts(Copies(warp, q).value, p16, 32, th, 16, i1, x, r, l + 32 * w + p32 * r, e, m, k, false, b, a,
              p16 * m, 32 * k, 16 * (m * k), i, j, e + 16 * (b + m * a));
  }
  /** Rows go round the warps in stripes of 16, warp column r has its own copy.  16 bits: column pairs as in the
      accumulator, two row halves inside two column halves; 8 bits: four columns a lane; transposed: rows and columns
      exchanged, column halves inside row halves. */
  lemma FragmentAPlaces(bm: int, bn: int, bk: int, wm: int, wn: int, elementSize: int, i: int, j: int, r: int,
                        b: int, w: int, y: int, h: int, s: int, a: int, x: int, g: int, t: int)
    requires bm > 0 && bn > 0 && bk > 0 && wm > 0 && wn > 0 && AChecks(bm, bn, bk, wm, wn, elementSize)
    requires InPiece(i, 16, bm / wm, b, w, y) && InHalf(y, 8, h, s)
    ensures elementSize == 16 && j == a * 16 + x && InHalf(x, 8, g, t) ==>
      var c := FragmentA(bm, bn, bk, wm, wn, elementSize, false);
      && c.Ok? && c.value.thread([i, j], r) == 4 * s + t / 2 + 32 * w + 32 * (bm / wm) * r
      && c.value.index([i, j]) == t % 2 + 2 * (h + 2 * g) + 8 * (b + wm / 16 * a)
    ensures elementSize == 8 && j == a * 32 + x && InHalf(x, 16, g, t) ==>
      var c := FragmentA(bm, bn, bk, wm, wn, elementSize, false);
      && c.Ok? && c.value.thread([i, j], r) == 4 * s + t / 4 + 32 * w + 32 * (bm / wm) * r
      && c.value.index([i, j]) == t % 4 + 4 * (h + 2 * g) + 16 * (b + wm / 16 * a)
    ensures j == a * 16 + x && InHalf(x, 8, g, t) ==>
      var c := FragmentA(bm, bn, bk, wm, wn, elementSize, true);
      && c.Ok? && c.value.thread([j, i], r) == 4 * s + t / 2 + 32 * w + 32 * (bm / wm) * r
      && c.value.index([j, i]) == t % 2 + 2 * (h + 2 * g) + 8 * (b + wm / 16 * a)
  {
    Tiles(bn, wn, 1);
    var p, q, m := bm / wm, bn / wn, wm / 16;
    if j == a * 16 + x && InHalf(x, 8, g, t) {
      ATransposedAt(p, q, m, bk / 16, j, i, r, a, x, g, t, b, w, y, h, s);
      A16At(p, q, m, bk / 16, i, j, r, b, w, y, h, s, a, x, g, t);
    }
    if j == a * 32 + x && InHalf(x, 16, g, t) { A8At(p, q, m, bk / 32, i, j, r, b, w, y, h, s, a, x, g, t); }
  }

  lemma ACDNATransposedAt(p: int, q: int, m: int, k: int, i: int, j: int, r: int,
                          a: int, s: int, w: int, b: int, t: int)
    requires q > 0 && i == a * 16 + s && 0 <= s < 16 && 0 <= a < k && InPiece(j, 16, m, w, b, t)
    ensures var warp := Rep2(Rep2(Frag16x16CDNATransposed(), 1, 1, false, false), k, m, false, true);
      var c := Copies(Rep2(warp, 1, p, true, true), q);
      && c.Ok? && c.value.thread([i, j], r) == t + 16 * (s / 4) + 64 * w + 64 * p * r
      && c.value.index([i, j]) == s % 4 + 4 * (b + m * a)
  {
    var base := Rep2(Frag16x16CDNATransposed(), 1, 1, false, false);
    var warp := Rep2(base, k, m, false, true);
    var l, e, j1 := t + 16 * (s / 4), s % 4 + 4 * (b + m * a), b * 16 + t;
    var k16, m16, rg, p64 := 16 * k, 16 * m, 4 * (k * m), 64 * p;
    Tile16x16(t, s);
    IndexPuts(base, 16, 16, 64, 4, s, t, 0, l, s % 4, k, m, true, a, b, k16, m16, rg, i, j1, e);
    Within(a, k, 16, s, k16);
    Within(b, m, 16, t, m16);
    assert 0 * k16 == 0;
    ThreadPuts(warp, k16, m16, 64, rg, i, j1, 0, l, e, 1, p, true, 0, w, k16, m16 * p, p64, i, j, l + 64 * w);
    CopiesPuts(Rep2(warp, 1, p, true, true), k16, m16 * p, p64, rg, i, j, l + 64 * w, e, q, r, p64 * q,
               l + 64 * w + p64 * r);
  }
  lemma ACDNAAt(p: int, q: int, m: int, k: int, i: int, j: int, r: int, w: int, b: int, s: int, a: int, t: int)
    requires q > 0 && InPiece(i, 16, m, w, b, s) && j == a * 16 + t && 0 <= t < 16 && 0 <= a < k
    ensures var warp := Rep2(Rep2(Frag16x16CDNA(), 1, 1, false, false), m, k, false, false);
      var c := Copies(Rep2(warp, p, 1, true, true), q);
      && c.Ok? && c.value.thread([i, j], r) == s + 16 * (t / 4) + 64 * w + 64 * p * r
      && c.value.index([i, j]) == t % 4 + 4 * (b + m * a)
  {
    var base := Rep2(Frag16x16CDNA(), 1, 1, false, false);
    var warp := Rep2(base, m, k, false, false);
    var l, e, i1 := s + 16 * (t / 4), t % 4 + 4 * (b + m * a), b * 16 + s;
    var k16, m16, rg, p64 := 16 * k, 16 * m, 4 * (m * k), 64 * p;
    Tile16x16(s, t);
    IndexPuts(base, 16, 16, 64, 4, s, t, 0, l, t % 4, m, k, false, b, a, m16, k16, rg, i1, j, e);
    Within(a, k, 16, t, k16);
    Within(b, m, 16, s, m16);
    assert 0 * k16 == 0;
    ThreadPuts(warp, m16, k16, 64, rg, i1, j, 0, l, e, p, 1, true, w, 0, m16 * p, k16, p64, i, j, l + 64 * w);
    CopiesPuts(Rep2(warp, p, 1, true, true), m16 * p, k16, p64, rg, i, j, l + 64 * w, e, q, r, p64 * q,
               l + 64 * w + p64 * r);
  }
  /** Each warp has contiguous rows, its tiles down first, and every warp column its own copy. */
  lemma FragmentACDNAPlaces(bm: int, bn: int, bk: int, wm: int, wn: int, elementSize: int, i: int, j: int, r: int,
                            w: int, b: int, s: int, a: int, t: int)
    requires bm > 0 && bn > 0 && bk > 0 && wm > 0 && wn > 0 && AChecks(bm, bn, bk, wm, wn, elementSize)
    requires InPiece(i, 16, wm / 16, w, b, s) && j == a * 16 + t && 0 <= t < 16 && 0 <= a < bk / 16
    ensures var c := FragmentACDNA(bm, bn, bk, wm, wn, elementSize, false);
      && c.Ok? && c.value.thread([i, j], r) == s + 16 * (t / 4) + 64 * w + 64 * (bm / wm) * r
      && c.value.index([i, j]) == t % 4 + 4 * (b + wm / 16 * a)
    ensures var c := FragmentACDNA(bm, bn, bk, wm, wn, elementSize, true);
      && c.Ok? && c.value.thread([j, i], r) == s + 16 * (t / 4) + 64 * w + 64 * (bm / wm) * r
      && c.value.index([j, i]) == t % 4 + 4 * (b + wm / 16 * a)
  {
    Tiles(bn, wn, 1);
    ACDNAAt(bm / wm, bn / wn, wm / 16, bk / 16, i, j, r, w, b, s, a, t);
    ACDNATransposedAt(bm / wm, bn / wn, wm / 16, bk / 16, j, i, r, a, t, w, b, s);
  }

  // ----- the B operand

  lemma BPlainAt(p: int, q: int, n: int, k: int, i: int, j: int, r: int,
                 a: int, w: int, s: int, b: int, x: int, g: int, t: int)
    requires q > 0 && InPiece(i, 8, p, a, w, s) && j == b * 16 + x && InHalf(x, 8, g, t)
    ensures var c := Copies(Rep2(Frag8x8(), 1, 2, false, false), q);
      c.Ok? && var f := Rep2(Rep2(c.value, p, 1, true, false), n, k, false, false);
      && f.thread([i, j], r) == 4 * s + t / 2 + 32 * r + 32 * q * w
      && f.index([i, j]) == t % 2 + 2 * g + 4 * (a + n * b)
  {
    var base := Rep2(Frag8x8(), 1, 2, false, false);
    var l, e, i1 := 4 * s + t / 2, t % 2 + 2 * g, w * 8 + s;
    var p8, q32, th, l2 := 8 * p, 32 * q, 32 * q * p, l + 32 * r + 32 * q * w;
    Tile8x8(s, t);
    IndexPuts(Frag8x8(), 8, 8, 32, 2, s, t, 0, l, t % 2, 1, 2, false, 0, g, 8, 16, 4, s, x, e);
    CopiesPuts(base, 8, 16, 32, 4, s, x, l, e, q, r, q32, l + 32 * r);
    var c := Copies(base, q).value;
    ThreadPuts(c, 8, 16, q32, 4, s, x, r, l + 32 * r, e, p, 1, false, w, 0, p8, 16, th, i1, x, l2);
    Within(w, p, 8, s, p8);
    IndexPuts(Rep2(c, p, 1, true, false), p8, 16, th, 4, i1, x, r, l2, e, n, k, false, a, b,
              p8 * n, 16 * k, 4 * (n * k), i, j, e + 4 * (a + n * b));
  }
  lemma BTransposedAt(p: int, q: int, n: int, k: int, i: int, j: int, r: int,
                      b: int, x: int, g: int, s: int, a: int, w: int, t: int)
    requires q > 0 && i == b * 16 + x && InHalf(x, 8, g, s) && InPiece(j, 8, p, a, w, t)
    ensures var c := Copies(Rep2(Frag8x8Transposed(), 2, 1, false, false), q);
      c.Ok? && var f := Rep2(Rep2(c.value, 1, p, true, true), k, n, false, true);
      && f.thread([i, j], r) == 4 * t + s / 2 + 32 * r + 32 * q * w
      && f.index([i, j]) == s % 2 + 2 * g + 4 * (a + n * b)
  {
    var base := Rep2(Frag8x8Transposed(), 2, 1, false, false);
    var l, e, j1 := 4 * t + s / 2, s % 2 + 2 * g, w * 8 + t;
    var p8, q32, th, l2 := 8 * p, 32 * q, 32 * q * p, l + 32 * r + 32 * q * w;
    Tile8x8(t, s);
    IndexPuts(Frag8x8Transposed(), 8, 8, 32, 2, s, t, 0, l, s % 2, 2, 1, false, g, 0, 16, 8, 4, x, t, e);
    CopiesPuts(base, 16, 8, 32, 4, x, t, l, e, q, r, q32, l + 32 * r);
    var c := Copies(base, q).value;
    ThreadPuts(c, 16, 8, q32, 4, x, t, r, l + 32 * r, e, 1, p, true, 0, w, 16, p8, th, x, j1, l2);
    Within(w, p, 8, t, p8);
    IndexPuts(Rep2(c, 1, p, true, true), 16, p8, th, 4, x, j1, r, l2, e, k, n, true, b, a,
              16 * k, p8 * n, 4 * (k * n), i, j, e + 4 * (a + n * b));
  }
  /** The columns of B, rows of its transpose, go round the warps in eights; warp row r has its own copy. */
  lemma FragmentBPlaces(bm: int, bn: int, bk: int, wm: int, wn: int, i: int, j: int, r: int,
                        a: int, w: int, s: int, b: int, x: int, g: int, t: int)
    requires bm > 0 && bn > 0 && bk > 0 && wm > 0 && wn > 0 && wn % 8 == 0 && bk % 16 == 0 && bm >= wm
    requires InPiece(i, 8, bn / wn, a, w, s) && j == b * 16 + x && InHalf(x, 8, g, t)
    ensures var c := FragmentB(bm, bn, bk, wm, wn, true);
      && c.Ok? && c.value.thread([i, j], r) == 4 * s + t / 2 + 32 * r + 32 * (bm / wm) * w
      && c.value.index([i, j]) == t % 2 + 2 * g + 4 * (a + wn / 8 * b)
    ensures var c := FragmentB(bm, bn, bk, wm, wn, false);
      && c.Ok? && c.value.thread([j, i], r) == 4 * s + t / 2 + 32 * r + 32 * (bm / wm) * w
      && c.value.index([j, i]) == t % 2 + 2 * g + 4 * (a + wn / 8 * b)
  {
    DivBelow(bm, wm, 1);
    BPlainAt(bn / wn, bm / wm, wn / 8, bk / 16, i, j, r, a, w, s, b, x, g, t);
    BTransposedAt(bn / wn, bm / wm, wn / 8, bk / 16, j, i, r, b, x, g, t, a, w, s);
  }

  // ----- Volta

  /** x in binary. */
  predicate Binary(x: int, x0: int, x1: int, x2: int, x3: int, x4: int) {
    && 0 <= x0 < 2 && 0 <= x1 < 2 && 0 <= x2 < 2 && 0 <= x3 < 2 && 0 <= x4 < 2
    && x == x0 + 2 * x1 + 4 * x2 + 8 * x3 + 16 * x4
  }
  lemma BinaryParts(x: int, x0: int, x1: int, x2: int, x3: int, x4: int)
    requires Binary(x, x0, x1, x2, x3, x4)
    ensures x % 2 == x0 && x % 4 == x0 + 2 * x1 && x % 4 / 2 == x1
    ensures x % 8 / 4 == x2 && x % 16 / 8 == x3 && x / 16 == x4
  {
    DivModUnique(x, 16, x4, x0 + 2 * x1 + 4 * x2 + 8 * x3);
    DivModUnique(x, 8, x3 + 2 * x4, x0 + 2 * x1 + 4 * x2);
    DivModUnique(x, 4, x2 + 2 * x3 + 4 * x4, x0 + 2 * x1);
    DivModUnique(x, 2, x1 + 2 * x2 + 4 * x3 + 8 * x4, x0);
  }
  lemma TilePuts(cols: int, rep: int, regs: int, thread: (int, int, int) -> int, index: (int, int) -> int,
                 x: int, y: int, r: int, th: int, rg: int)
    requires rep > 0 && thread(x, y, r) == th && index(x, y) == rg
    ensures Puts(Tile(cols, rep, regs, thread, index), 32, cols, 32, regs, x, y, r, th, rg)
  {
    assert At([x, y], 0) == x && At([x, y], 1) == y;
  }
  lemma HalfIs(x: int, y: int, x0: int, x1: int, x2: int, x3: int, x4: int,
               y0: int, y1: int, y2: int, y3: int, y4: int)
    requires Binary(x, x0, x1, x2, x3, x4) && Binary(y, y0, y1, y2, y3, y4)
    ensures HalfThread(x, y) == x0 + 2 * x1 + 4 * x3 + 8 * y3 + 16 * x4
    ensures HalfIndex(x, y) == y0 + 2 * y1 + 4 * y4 + 8 * x2 + 16 * y2
    ensures SingleThread(x, y) == x0 + 2 * y1 + 4 * x3 + 8 * y3 + 16 * x4
    ensures SingleIndex(x, y) == y0 + 2 * x1 + 4 * y4 + 8 * x2 + 16 * y2
  {
    BinaryParts(x, x0, x1, x2, x3, x4);
    BinaryParts(y, y0, y1, y2, y3, y4);
  }
  lemma VoltaIs(x: int, y: int, r: int, x0: int, x1: int, x2: int, x3: int, x4: int)
    requires Binary(x, x0, x1, x2, x3, x4)
    ensures VoltaThread(x, y, r) == x0 + 2 * x1 + 4 * x3 + 8 * r + 16 * x4 && VoltaIndex(x, y) == y + 4 * x2
  {
    BinaryParts(x, x0, x1, x2, x3, x4);
  }
  lemma VoltaAt(f: Fragment, p: int, q: int, m: int, n: int, i: int, j: int, l: int, e: int,
                w: int, a: int, x: int, u: int, b: int, y: int)
    requires Puts(f, 32, 32, 32, 32, x, y, 0, l, e) && InPiece(i, 32, m, w, a, x) && InPiece(j, 32, n, u, b, y)
    ensures var g := Rep2(Rep2(f, m, n, false, false), p, q, true, true);
      g.thread([i, j], 0) == l + 32 * (u + q * w) && g.index([i, j]) == e + 32 * (a + m * b)
  {
    var i1, j1, e2, rg, m32, n32 := a * 32 + x, b * 32 + y, e + 32 * (a + m * b), 32 * (m * n), 32 * m, 32 * n;
    IndexPuts(f, 32, 32, 32, 32, x, y, 0, l, e, m, n, false, a, b, m32, n32, rg, i1, j1, e2);
    Within(a, m, 32, x, m32);
    Within(b, n, 32, y, n32);
    ThreadPuts(Rep2(f, m, n, false, false), m32, n32, 32, rg, i1, j1, 0, l, e2, p, q, true, w, u,
               m32 * p, n32 * q, 32 * (p * q), i, j, l + 32 * (u + q * w));
  }
  /** The Volta accumulator: bits of row and column of a 32 x 32 tile wired to bits of lane and register; each warp has
      a contiguous part of the block, its tiles down first, and the warps are numbered across first. */
  lemma VoltaFragmentCPlaces(bm: int, bn: int, wm: int, wn: int, elementSize: int, i: int, j: int,
                             w: int, a: int, x: int, u: int, b: int, y: int,
                             x0: int, x1: int, x2: int, x3: int, x4: int, y0: int, y1: int, y2: int, y3: int, y4: int)
    requires bm > 0 && bn > 0 && wm > 0 && wn > 0 && VoltaFragmentC(bm, bn, wm, wn, elementSize).Ok?
    requires InPiece(i, 32, wm / 32, w, a, x) && InPiece(j, 32, wn / 32, u, b, y)
    requires Binary(x, x0, x1, x2, x3, x4) && Binary(y, y0, y1, y2, y3, y4)
    ensures elementSize == 16 || elementSize == 32
    ensures var f := VoltaFragmentC(bm, bn, wm, wn, elementSize).value;
      && f.thread([i, j], 0) == x0 + 2 * (if elementSize == 16 then x1 else y1) + 4 * x3 + 8 * y3 + 16 * x4
                                + 32 * (u + bn / wn * w)
      && f.index([i, j]) == y0 + 2 * (if elementSize == 16 then y1 else x1) + 4 * y4 + 8 * x2 + 16 * y2
                            + 32 * (a + wm / 32 * b)
  {
    HalfIs(x, y, x0, x1, x2, x3, x4, y0, y1, y2, y3, y4);
    if elementSize == 16 {
      var l, e := HalfThread(x, y), HalfIndex(x, y);
      TilePuts(32, 1, 32, (i: int, j: int, r: int) => HalfThread(i, j), HalfIndex, x, y, 0, l, e);
      VoltaAt(HalfFrag(), bm / wm, bn / wn, wm / 32, wn / 32, i, j, l, e, w, a, x, u, b, y);
    } else {
      var l, e := SingleThread(x, y), SingleIndex(x, y);
      TilePuts(32, 1, 32, (i: int, j: int, r: int) => SingleThread(i, j), SingleIndex, x, y, 0, l, e);
      VoltaAt(SingleFrag(), bm / wm, bn / wn, wm / 32, wn / 32, i, j, l, e, w, a, x, u, b, y);
    }
  }
  lemma CopiesOfTwo(f: Fragment, m: int, n: int, th: int, rg: int, i: int, j: int, r: int, x: int, k: int, c: int,
                    u: int, th2: int, r2: int, x2: int)
    requires Puts(f, m, n, th, rg, i, j, r, x, k) && c >= 1 && f.rep == 2 && 0 <= r < 2
    requires th2 == th * c && r2 == 2 * u + r && x2 == x + th * u
    ensures Copies(f, c).Ok? && Puts(Copies(f, c).value, m, n, th2, rg, i, j, r2, x2, k)
  {
    DivModUnique(r2, 2, u, r);
    assert Copies(f, c) == Ok(Replicate(f, c));
    assert Mod(r2, 2) == r && Div(r2, 2) == u;
  }
  lemma VoltaAAt(p: int, q: int, m: int, k: int, i: int, j: int, u: int, r: int, l: int, e: int,
                 w: int, a: int, x: int, b: int, y: int)
    requires q > 0 && 0 <= r < 2 && Puts(Frag32x4Volta(), 32, 4, 32, 8, x, y, r, l, e) && InPiece(i, 32, m, w, a, x)
    requires j == b * 4 + y && 0 <= y < 4 && 0 <= b < k
    ensures var c := Copies(Rep2(Frag32x4Volta(), m, k, false, false), q);
      c.Ok? && var f := Rep2(c.value, p, 1, true, true);
      && f.thread([i, j], 2 * u + r) == l + 32 * u + 32 * q * w && f.index([i, j]) == e + 8 * (a + m * b)
  {
    var i1, e2, r2 := a * 32 + x, e + 8 * (a + m * b), 2 * u + r;
    var m32, k4, rg, q32 := 32 * m, 4 * k, 8 * (m * k), 32 * q;
    IndexPuts(Frag32x4Volta(), 32, 4, 32, 8, x, y, r, l, e, m, k, false, a, b, m32, k4, rg, i1, j, e2);
    var warp := Rep2(Frag32x4Volta(), m, k, false, false);
    CopiesOfTwo(warp, m32, k4, 32, rg, i1, j, r, l, e2, q, u, q32, r2, l + 32 * u);
    Within(a, m, 32, x, m32);
    Within(b, k, 4, y, k4);
    assert 0 * k4 == 0;
    ThreadPuts(Copies(warp, q).value, m32, k4, q32, rg, i1, j, r2, l + 32 * u, e2, p, 1, true, w, 0,
               m32 * p, k4, q32 * p, i, j, l + 32 * u + q32 * w);
  }
  /** The Volta A operand: replica 2 u + r is the copy of warp column u in the lanes with bit 3 equal to r; rows belong
      to warps in contiguous parts. */
  lemma VoltaFragmentAPlaces(bm: int, bn: int, bk: int, wm: int, wn: int, i: int, j: int, u: int, r: int,
                             w: int, a: int, x: int, b: int, y: int, x0: int, x1: int, x2: int, x3: int, x4: int)
    requires bm > 0 && bn > 0 && bk > 0 && wm > 0 && wn > 0 && VoltaFragmentA(bm, bn, bk, wm, wn).Ok? && 0 <= r < 2
    requires InPiece(i, 32, wm / 32, w, a, x) && Binary(x, x0, x1, x2, x3, x4)
    requires j == b * 4 + y && 0 <= y < 4 && 0 <= b < bk / 4
    ensures var f := VoltaFragmentA(bm, bn, bk, wm, wn).value;
      && f.thread([i, j], 2 * u + r) == x0 + 2 * x1 + 4 * x3 + 8 * r + 16 * x4 + 32 * u + 32 * (bn / wn) * w
      && f.index([i, j]) == y + 4 * x2 + 8 * (a + wm / 32 * b)
  {
    Tiles(bn, wn, 1);
    VoltaIs(x, y, r, x0, x1, x2, x3, x4);
    TilePuts(4, 2, 8, VoltaThread, VoltaIndex, x, y, r, VoltaThread(x, y, r), VoltaIndex(x, y));
    VoltaAAt(bm / wm, bn / wn, wm / 32, bk / 4, i, j, u, r, VoltaThread(x, y, r), VoltaIndex(x, y), w, a, x, b, y);
  }
}
