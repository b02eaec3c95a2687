/** The builders of matrix-instruction fragments: what each block shape gets, and when. */
module GemmBuilders {
  import opened Arith
  import opened Boxes
  import opened Fragments
  import opened GemmFragments
  import opened Results

  function Rep2(f: Fragment, a: int, b: int, onThread: bool, lowerFirst: bool): (g: Fragment)
    requires |f.shape| == 2
    ensures |g.shape| == 2
  {
    Repeat(f, [a, b], onThread, lowerFirst)
  }
  function Copies(f: Fragment, k: int): (r: Result<Fragment>)
    requires |f.shape| == 2
    ensures r.Ok? ==> |r.value.shape| == 2
  {
    if k >= 1 then Ok(Replicate(f, k)) else CheckFailed
  }

  function FragmentC_F64(bm: int, bn: int, wm: int, wn: int): Result<Fragment>
    requires wm > 0 && wn > 0
  {
    if bm % wm == 0 && bn % wn == 0 && wm % 16 == 0 && wn % 8 == 0 then
      var warp := Rep2(Frag8x8(), bm / wm, bn / wn, true, false);
      Ok(Rep2(warp, wm / 8, wn / 8, false, false))
    else CheckFailed
  }
  function FragmentC(bm: int, bn: int, wm: int, wn: int, elementSize: int): Result<Fragment>
    requires wm > 0 && wn > 0
  {
    if elementSize == 64 then FragmentC_F64(bm, bn, wm, wn)
    else if bm % wm == 0 && bn % wn == 0 && wm % 16 == 0 && wn % 8 == 0 then
      var base := Rep2(Frag8x8(), 2, 1, false, true);
      var warp := Rep2(base, bm / wm, bn / wn, true, false);
      Ok(Rep2(warp, wm / 16, wn / 8, false, false))
    else CheckFailed
  }
  function FragmentCCDNA(bm: int, bn: int, wm: int, wn: int, elementSize: int): Result<Fragment>
    requires wm > 0 && wn > 0
  {
    if elementSize != 64 && bm % wm == 0 && bn % wn == 0 && wm % 16 == 0 && wn % 16 == 0 then
      var base := Rep2(Frag16x16CDNA(), 1, 1, false, true);
      var warp := Rep2(base, wm / 16, wn / 16, false, true);
      Ok(Rep2(warp, bm / wm, bn / wn, true, false))
    else CheckFailed
  }
  function FragmentCHopper(bm: int, bn: int, wm: int, wn: int): Result<Fragment>
    requires wm > 0 && wn > 0
  {
    if bm % wm == 0 && wm % 16 == 0 then
      var warp := Rep2(Frag8x8(), 2, wn / 8, false, false);
      var block := Rep2(warp, bm / wm, bn / wn, true, false);
      Ok(Rep2(block, wm / 16, 1, false, false))
    else CheckFailed
  }
  predicate AChecks(bm: int, bn: int, bk: int, wm: int, wn: int, elementSize: int)
    requires wm > 0 && wn > 0
  {
    bm % wm == 0 && bn % wn == 0 && wm % 16 == 0 && bk % 16 == 0 && (elementSize == 8 || elementSize == 16)
  }
  function FragmentA(bm: int, bn: int, bk: int, wm: int, wn: int, elementSize: int, transposed: bool): Result<Fragment>
    requires wm > 0 && wn > 0
  {
    if !AChecks(bm, bn, bk, wm, wn, elementSize) then CheckFailed
    else if transposed then
      var base := Rep2(Frag8x8Transposed(), 2, 2, false, true);
      match Copies(Rep2(base, 1, bm / wm, true, false), bn / wn)
      case Ok(warp) => Ok(Rep2(warp, bk / 16, wm / 16, false, true))
      case CheckFailed => CheckFailed
    else if elementSize == 8 then
      var base := Rep2(Frag8x16(), 2, 2, false, false);
      match Copies(Rep2(base, bm / wm, 1, true, true), bn / wn)
      case Ok(warp) => Ok(Rep2(warp, wm / 16, bk / 32, false, false))
      case CheckFailed => CheckFailed
    else
      var base := Rep2(Frag8x8(), 2, 2, false, false);
      match Copies(Rep2(base, bm / wm, 1, true, true), bn / wn)
      case Ok(warp) => Ok(Rep2(warp, wm / 16, bk / 16, false, false))
      case CheckFailed => CheckFailed
  }
  function FragmentB(bm: int, bn: int, bk: int, wm: int, wn: int, transposed: bool): Result<Fragment>
    requires wm > 0 && wn > 0
  {
    if wn % 8 != 0 || bk % 16 != 0 then CheckFailed
    else if transposed then
      match Copies(Rep2(Frag8x8(), 1, 2, false, false), bm / wm)
      case Ok(copies) => Ok(Rep2(Rep2(copies, bn / wn, 1, true, false), wn / 8, bk / 16, false, false))
      case CheckFailed => CheckFailed
    else
      match Copies(Rep2(Frag8x8Transposed(), 2, 1, false, false), bm / wm)
      case Ok(copies) => Ok(Rep2(Rep2(copies, 1, bn / wn, true, true), bk / 16, wn / 8, false, true))
      case CheckFailed => CheckFailed
  }
  function FragmentACDNA(bm: int, bn: int, bk: int, wm: int, wn: int, elementSize: int,
                         transposed: bool): Result<Fragment>
    requires wm > 0 && wn > 0
  {
    if !AChecks(bm, bn, bk, wm, wn, elementSize) then CheckFailed
    else if transposed then
      var base := Rep2(Frag16x16CDNATransposed(), 1, 1, false, false);
      Copies(Rep2(Rep2(base, bk / 16, wm / 16, false, true), 1, bm / wm, true, true), bn / wn)
    else
      var base := Rep2(Frag16x16CDNA(), 1, 1, false, false);
      Copies(Rep2(Rep2(base, wm / 16, bk / 16, false, false), bm / wm, 1, true, true), bn / wn)
  }
  function VoltaFragmentC(bm: int, bn: int, wm: int, wn: int, elementSize: int): Result<Fragment>
    requires wm > 0 && wn > 0
  {
    if bm % wm == 0 && bn % wn == 0 && wm % 32 == 0 && wn % 32 == 0 then
      match Frag32x32(elementSize)
      case Ok(base) => Ok(Rep2(Rep2(base, wm / 32, wn / 32, false, false), bm / wm, bn / wn, true, true))
      case CheckFailed => CheckFailed
    else CheckFailed
  }
  function VoltaFragmentA(bm: int, bn: int, bk: int, wm: int, wn: int): Result<Fragment>
    requires wm > 0 && wn > 0
  {
    if bm % wm == 0 && bn % wn == 0 && wm % 32 == 0 && bk % 4 == 0 then
      match Copies(Rep2(Frag32x4Volta(), wm / 32, bk / 4, false, false), bn / wn)
      case Ok(copies) => Ok(Rep2(copies, bm / wm, 1, true, true))
      case CheckFailed => CheckFailed
    else CheckFailed
  }

  // ----- what they build

  /** f holds a rows x cols block, every element `rep` times, one to one on `threads` threads. */
  ghost predicate Holds(f: Fragment, rows: int, cols: int, rep: int, threads: int) {
    Bijective(f) && f.shape == [rows, cols] && f.rep == rep && f.threads == threads
  }
  lemma Volume2(a: int, b: int)
    ensures Volume([a, b]) == a * b
  {
    assert [a, b][1..] == [b] && [b][1..] == [];
    assert Volume([]) == 1 && Volume([b]) == b * Volume([]);
  }
  lemma OnThread(f: Fragment, m: int, n: int, rep: int, t: int, a: int, b: int, lf: bool)
    requires Holds(f, m, n, rep, t) && a > 0 && b > 0
    ensures Holds(Rep2(f, a, b, true, lf), m * a, n * b, rep, t * (a * b))
  {
    RepeatBijective(f, [a, b], true, lf);
    Volume2(a, b);
    assert Times([m, n], [a, b]) == [m * a, n * b];
  }
  lemma OnIndex(f: Fragment, m: int, n: int, rep: int, t: int, a: int, b: int, lf: bool)
    requires Holds(f, m, n, rep, t) && a > 0 && b > 0
    ensures Holds(Rep2(f, a, b, false, lf), m * a, n * b, rep, t)
  {
    RepeatBijective(f, [a, b], false, lf);
    assert Times([m, n], [a, b]) == [m * a, n * b];
  }
  lemma Copied(f: Fragment, m: int, n: int, rep: int, t: int, k: int)
    requires Holds(f, m, n, rep, t) && k >= 1
    ensures Copies(f, k).Ok? && Holds(Copies(f, k).value, m, n, rep * k, t * k)
  {
    ReplicateBijective(f, k);
  }

  lemma Rep2Shape(f: Fragment, m: int, n: int, a: int, b: int, onThread: bool, lf: bool)
    requires f.shape == [m, n]
    ensures Rep2(f, a, b, onThread, lf).shape == [m * a, n * b]
  {
    assert Times([m, n], [a, b]) == [m * a, n * b];
  }

  /** n is n / w warps of w / b base tiles of size b. */
  lemma Tiles(n: int, w: int, b: int)
    requires n > 0 && w > 0 && b > 0 && n % w == 0 && w % b == 0
    ensures n / w > 0 && w / b > 0 && b * (n / w) * (w / b) == n && b * (w / b) * (n / w) == n && b * (w / b) == w
  {
    DivModLaw(n, w);
    DivModLaw(w, b);
    Positives(n, n / w, w);
    Positives(w, w / b, b);
    Commute(b, n / w, w / b);
  }
  lemma Positives(n: int, q: int, w: int)
    requires n > 0 && w > 0 && n == q * w
    ensures q > 0
  {
    if q <= 0 { MulMono(q, 0, w); }
  }
  lemma Commute(b: int, p: int, q: int)
    ensures b * p * q == p * (q * b) && b * q * p == p * (q * b)
  {
  }

  lemma FragmentCF64Holds(bm: int, bn: int, wm: int, wn: int)
    requires bm > 0 && bn > 0 && wm > 0 && wn > 0 && FragmentC_F64(bm, bn, wm, wn).Ok?
    ensures Holds(FragmentC_F64(bm, bn, wm, wn).value, bm, bn, 1, 32 * (bm / wm * (bn / wn)))
  {
    Base8x8();
    Tiles(bm, wm, 8);
    Tiles(bn, wn, 8);
    var p, q := bm / wm, bn / wn;
    OnThread(Frag8x8(), 8, 8, 1, 32, p, q, false);
    OnIndex(Rep2(Frag8x8(), p, q, true, false), 8 * p, 8 * q, 1, 32 * (p * q), wm / 8, wn / 8, false);
  }
  /** The accumulator covers the whole block, each element once, on 32 threads a warp. */
  lemma FragmentCHolds(bm: int, bn: int, wm: int, wn: int, elementSize: int)
    requires bm > 0 && bn > 0 && wm > 0 && wn > 0
    ensures FragmentC(bm, bn, wm, wn, elementSize).Ok? <==> bm % wm == 0 && bn % wn == 0 && wm % 16 == 0 && wn % 8 == 0
    ensures FragmentC(bm, bn, wm, wn, elementSize).Ok? ==>
              Holds(FragmentC(bm, bn, wm, wn, elementSize).value, bm, bn, 1, 32 * (bm / wm * (bn / wn)))
  {
    if FragmentC(bm, bn, wm, wn, elementSize).Ok? {
      if elementSize == 64 {
        FragmentCF64Holds(bm, bn, wm, wn);
      } else {
        Base8x8();
        Tiles(bm, wm, 16);
        Tiles(bn, wn, 8);
        var p, q := bm / wm, bn / wn;
        OnIndex(Frag8x8(), 8, 8, 1, 32, 2, 1, true);
        var base := Rep2(Frag8x8(), 2, 1, false, true);
        OnThread(base, 16, 8, 1, 32, p, q, false);
        OnIndex(Rep2(base, p, q, true, false), 16 * p, 8 * q, 1, 32 * (p * q), wm / 16, wn / 8, false);
      }
    }
  }
  lemma FragmentCCDNAHolds(bm: int, bn: int, wm: int, wn: int, elementSize: int)
    requires bm > 0 && bn > 0 && wm > 0 && wn > 0 && FragmentCCDNA(bm, bn, wm, wn, elementSize).Ok?
    ensures Holds(FragmentCCDNA(bm, bn, wm, wn, elementSize).value, bm, bn, 1, 64 * (bm / wm * (bn / wn)))
  {
    Base16x16CDNA();
    Tiles(bm, wm, 16);
    Tiles(bn, wn, 16);
    OnIndex(Frag16x16CDNA(), 16, 16, 1, 64, 1, 1, true);
    var base := Rep2(Frag16x16CDNA(), 1, 1, false, true);
    OnIndex(base, 16, 16, 1, 64, wm / 16, wn / 16, true);
    OnThread(Rep2(base, wm / 16, wn / 16, false, true), 16 * (wm / 16), 16 * (wn / 16), 1, 64, bm / wm, bn / wn, false);
  }

  /** Without the commented-out check the Hopper accumulator drops columns: it covers the block exactly when the warp
      width is a multiple of 8 and divides the block width. */
  lemma FragmentCHopperHolds(bm: int, bn: int, wm: int, wn: int)
    requires bm > 0 && bn > 0 && wm > 0 && wn > 0 && FragmentCHopper(bm, bn, wm, wn).Ok?
    ensures bn >= wn >= 8 ==>
      Holds(FragmentCHopper(bm, bn, wm, wn).value, bm, 8 * (wn / 8) * (bn / wn), 1, 32 * (bm / wm * (bn / wn)))
    ensures FragmentCHopper(bm, bn, wm, wn).value.shape == [bm, bn] <==> wn % 8 == 0 && bn % wn == 0
  {
    Tiles(bm, wm, 16);
    var p, q, c := bm / wm, bn / wn, wn / 8;
    DivModLaw(bn, wn);
    DivBelow(bn, wn, 1);
    var warp := Rep2(Frag8x8(), 2, c, false, false);
    var block := Rep2(warp, p, q, true, false);
    if bn >= wn >= 8 {
      Base8x8();
      OnIndex(Frag8x8(), 8, 8, 1, 32, 2, c, false);
      OnThread(warp, 16, 8 * c, 1, 32, p, q, false);
      OnIndex(block, 16 * p, 8 * c * q, 1, 32 * (p * q), wm / 16, 1, false);
    }
    assert warp.shape == [16, 8 * c];
    assert block.shape == [16 * p, 8 * c * q];
    assert FragmentCHopper(bm, bn, wm, wn).value.shape == [16 * p * (wm / 16), 8 * c * q];
    assert [16 * p * (wm / 16), 8 * c * q] == [bm, bn] <==> 8 * c * q == bn;
    ExactTiling(bn, wn);
  }
  lemma MulStrict(a: int, b: int, q: int)
    requires a < b && q >= 1
    ensures a * q < b * q
  {
    MulFar(q, b - a);
  }
  lemma ExactTiling(n: int, w: int)
    requires n > 0 && w > 0
    ensures 8 * (w / 8) * (n / w) == n <==> w % 8 == 0 && n % w == 0
  {
    var c, q := 8 * (w / 8), n / w;
    DivModLaw(n, w);
    assert c <= w;
    assert w * q == q * w;
    if c * q == n {
      DivBelow(n, w, 1);
      if c < w && q >= 1 { MulStrict(c, w, q); }
    }
  }

  /** The A operand covers its block, once for each warp column.  The 8-bit layout steps through k in 32s: it covers the
      block exactly when 32 divides block_k, and is a correspondence at all exactly when block_k is at least 32. */
  lemma FragmentAHolds(bm: int, bn: int, bk: int, wm: int, wn: int, elementSize: int, transposed: bool)
    requires bm > 0 && bn > 0 && bk > 0 && wm > 0 && wn > 0
    ensures FragmentA(bm, bn, bk, wm, wn, elementSize, transposed).Ok? <==> AChecks(bm, bn, bk, wm, wn, elementSize)
    ensures AChecks(bm, bn, bk, wm, wn, elementSize) && transposed ==>
              Holds(FragmentA(bm, bn, bk, wm, wn, elementSize, transposed).value, bk, bm, bn / wn,
                    32 * (bm / wm) * (bn / wn))
    ensures AChecks(bm, bn, bk, wm, wn, elementSize) && !transposed && elementSize == 16 ==>
              Holds(FragmentA(bm, bn, bk, wm, wn, elementSize, transposed).value, bm, bk, bn / wn,
                    32 * (bm / wm) * (bn / wn))
    ensures AChecks(bm, bn, bk, wm, wn, elementSize) && !transposed && elementSize == 8 && bk >= 32 ==>
              Holds(FragmentA(bm, bn, bk, wm, wn, elementSize, transposed).value, bm, 32 * (bk / 32), bn / wn,
                    32 * (bm / wm) * (bn / wn))
    ensures AChecks(bm, bn, bk, wm, wn, elementSize) && !transposed && elementSize == 8 ==>
              var f := FragmentA(bm, bn, bk, wm, wn, elementSize, transposed).value;
              (f.shape == [bm, bk] <==> bk % 32 == 0) && (Bijective(f) <==> bk >= 32)
  {
    if AChecks(bm, bn, bk, wm, wn, elementSize) {
      var p, q := bm / wm, bn / wn;
      Tiles(bm, wm, 16);
      Tiles(bn, wn, 1);
      if transposed {
        AFromTransposed(p, q, wm / 16, bk / 16);
      } else if elementSize == 8 {
        AFrom8(p, q, wm / 16, bk / 32);
        var f := FragmentA(bm, bn, bk, wm, wn, elementSize, transposed).value;
        assert f.shape == [bm, 32 * (bk / 32)] && f.shape[1] == 32 * (bk / 32);
        assert [bm, 32 * (bk / 32)] == [bm, bk] <==> 32 * (bk / 32) == bk;
      } else {
        AFrom16(p, q, wm / 16, bk / 16);
      }
    }
  }
  lemma AFromTransposed(p: int, q: int, m: int, k: int)
    requires p > 0 && q > 0 && m > 0 && k > 0
    ensures var w := Rep2(Rep2(Frag8x8Transposed(), 2, 2, false, true), 1, p, true, false);
            Copies(w, q).Ok? && Holds(Rep2(Copies(w, q).value, k, m, false, true), 16 * k, 16 * p * m, q, 32 * p * q)
  {
    var base := Rep2(Frag8x8Transposed(), 2, 2, false, true);
    Base8x8Transposed();
    OnIndex(Frag8x8Transposed(), 8, 8, 1, 32, 2, 2, true);
    OnThread(base, 16, 16, 1, 32, 1, p, false);
    var w := Rep2(base, 1, p, true, false);
    Copied(w, 16, 16 * p, 1, 32 * p, q);
    OnIndex(Copies(w, q).value, 16, 16 * p, q, 32 * p * q, k, m, true);
  }
  lemma AFrom16(p: int, q: int, m: int, k: int)
    requires p > 0 && q > 0 && m > 0 && k > 0
    ensures var w := Rep2(Rep2(Frag8x8(), 2, 2, false, false), p, 1, true, true);
            Copies(w, q).Ok? && Holds(Rep2(Copies(w, q).value, m, k, false, false), 16 * p * m, 16 * k, q, 32 * p * q)
  {
    var base := Rep2(Frag8x8(), 2, 2, false, false);
    Base8x8();
    OnIndex(Frag8x8(), 8, 8, 1, 32, 2, 2, false);
    OnThread(base, 16, 16, 1, 32, p, 1, true);
    var w := Rep2(base, p, 1, true, true);
    Copied(w, 16 * p, 16, 1, 32 * p, q);
    OnIndex(Copies(w, q).value, 16 * p, 16, q, 32 * p * q, m, k, false);
  }
  lemma AFrom8(p: int, q: int, m: int, k: int)
    requires p > 0 && q > 0 && m > 0
    ensures var w := Rep2(Rep2(Frag8x16(), 2, 2, false, false), p, 1, true, true);
            && Copies(w, q).Ok? && Rep2(Copies(w, q).value, m, k, false, false).shape == [16 * p * m, 32 * k]
            && (k > 0 ==> Holds(Rep2(Copies(w, q).value, m, k, false, false), 16 * p * m, 32 * k, q, 32 * p * q))
  {
    var base := Rep2(Frag8x16(), 2, 2, false, false);
    Base8x16();
    OnIndex(Frag8x16(), 8, 16, 1, 32, 2, 2, false);
    OnThread(base, 16, 32, 1, 32, p, 1, true);
    var w := Rep2(base, p, 1, true, true);
    Copied(w, 16 * p, 32, 1, 32 * p, q);
    Rep2Shape(Copies(w, q).value, 16 * p, 32, m, k, false, false);
    if k > 0 { OnIndex(Copies(w, q).value, 16 * p, 32, q, 32 * p * q, m, k, false); }
  }

  /** The B operand covers the warps that fit, once for each warp row: the whole block exactly when warp_n divides
      block_n, and nothing when block_n is below warp_n. */
  lemma FragmentBHolds(bm: int, bn: int, bk: int, wm: int, wn: int, transposed: bool)
    requires bm > 0 && bn > 0 && bk > 0 && wm > 0 && wn > 0
    ensures FragmentB(bm, bn, bk, wm, wn, transposed).Ok? <==> wn % 8 == 0 && bk % 16 == 0 && bm >= wm
    ensures FragmentB(bm, bn, bk, wm, wn, transposed).Ok? && bn >= wn && transposed ==>
              Holds(FragmentB(bm, bn, bk, wm, wn, transposed).value, wn * (bn / wn), bk, bm / wm,
                    32 * (bm / wm) * (bn / wn))
    ensures FragmentB(bm, bn, bk, wm, wn, transposed).Ok? && bn >= wn && !transposed ==>
              Holds(FragmentB(bm, bn, bk, wm, wn, transposed).value, bk, wn * (bn / wn), bm / wm,
                    32 * (bm / wm) * (bn / wn))
    ensures FragmentB(bm, bn, bk, wm, wn, transposed).Ok? ==>
              var f := FragmentB(bm, bn, bk, wm, wn, transposed).value;
              (f.shape == (if transposed then [bn, bk] else [bk, bn]) <==> bn % wn == 0) && (Bijective(f) <==> bn >= wn)
  {
    DivBelow(bm, wm, 1);
    DivBelow(bn, wn, 1);
    DivBelow(bn, wn, 0);
    if wn % 8 == 0 && bk % 16 == 0 && bm >= wm {
      var p, q := bn / wn, bm / wm;
      Commute(8, p, wn / 8);
      WarpsCover(bn, wn);
      var f := FragmentB(bm, bn, bk, wm, wn, transposed).value;
      if transposed {
        BFromPlain(p, q, wn / 8, bk / 16);
        assert f.shape == [wn * p, bk] && f.shape[0] == wn * p;
        assert [wn * p, bk] == [bn, bk] <==> wn * p == bn;
      } else {
        BFromTransposed(p, q, wn / 8, bk / 16);
        assert f.shape == [bk, wn * p] && f.shape[1] == wn * p;
        assert [bk, wn * p] == [bk, bn] <==> wn * p == bn;
      }
    }
  }
  lemma WarpsCover(n: int, w: int)
    requires n > 0 && w > 0
    ensures w * (n / w) == n <==> n % w == 0
    ensures w * (n / w) > 0 <==> n >= w
  {
    DivModLaw(n, w);
    DivBelow(n, w, 1);
    if n / w >= 1 { MulFar(n / w, w); } else { MulMono(n / w, 0, w); }
  }
  lemma BFromPlain(p: int, q: int, n: int, k: int)
    requires p >= 0 && q > 0 && n > 0 && k > 0
    ensures var c := Copies(Rep2(Frag8x8(), 1, 2, false, false), q);
            && c.Ok? && Rep2(Rep2(c.value, p, 1, true, false), n, k, false, false).shape == [8 * p * n, 16 * k]
            && (p > 0 ==> Holds(Rep2(Rep2(c.value, p, 1, true, false), n, k, false, false), 8 * p * n, 16 * k, q,
                                32 * q * p))
  {
    var base := Rep2(Frag8x8(), 1, 2, false, false);
    Base8x8();
    OnIndex(Frag8x8(), 8, 8, 1, 32, 1, 2, false);
    Copied(base, 8, 16, 1, 32, q);
    var c := Copies(base, q).value;
    Rep2Shape(c, 8, 16, p, 1, true, false);
    Rep2Shape(Rep2(c, p, 1, true, false), 8 * p, 16, n, k, false, false);
    if p > 0 {
      OnThread(c, 8, 16, q, 32 * q, p, 1, false);
      OnIndex(Rep2(c, p, 1, true, false), 8 * p, 16, q, 32 * q * p, n, k, false);
    }
  }
  lemma BFromTransposed(p: int, q: int, n: int, k: int)
    requires p >= 0 && q > 0 && n > 0 && k > 0
    ensures var c := Copies(Rep2(Frag8x8Transposed(), 2, 1, false, false), q);
            && c.Ok? && Rep2(Rep2(c.value, 1, p, true, true), k, n, false, true).shape == [16 * k, 8 * p * n]
            && (p > 0 ==> Holds(Rep2(Rep2(c.value, 1, p, true, true), k, n, false, true), 16 * k, 8 * p * n, q,
                                32 * q * p))
  {
    var base := Rep2(Frag8x8Transposed(), 2, 1, false, false);
    Base8x8Transposed();
    OnIndex(Frag8x8Transposed(), 8, 8, 1, 32, 2, 1, false);
    Copied(base, 16, 8, 1, 32, q);
    var c := Copies(base, q).value;
    Rep2Shape(c, 16, 8, 1, p, true, true);
    Rep2Shape(Rep2(c, 1, p, true, true), 16, 8 * p, k, n, false, true);
    if p > 0 {
      OnThread(c, 16, 8, q, 32 * q, 1, p, true);
      OnIndex(Rep2(c, 1, p, true, true), 16, 8 * p, q, 32 * q * p, k, n, true);
    }
  }

  lemma FragmentACDNAHolds(bm: int, bn: int, bk: int, wm: int, wn: int, elementSize: int, transposed: bool)
    requires bm > 0 && bn > 0 && bk > 0 && wm > 0 && wn > 0
    ensures FragmentACDNA(bm, bn, bk, wm, wn, elementSize, transposed).Ok? <==> AChecks(bm, bn, bk, wm, wn, elementSize)
    ensures AChecks(bm, bn, bk, wm, wn, elementSize) && transposed ==>
              Holds(FragmentACDNA(bm, bn, bk, wm, wn, elementSize, transposed).value, bk, bm, bn / wn,
                    64 * (bm / wm) * (bn / wn))
    ensures AChecks(bm, bn, bk, wm, wn, elementSize) && !transposed ==>
              Holds(FragmentACDNA(bm, bn, bk, wm, wn, elementSize, transposed).value, bm, bk, bn / wn,
                    64 * (bm / wm) * (bn / wn))
  {
    if AChecks(bm, bn, bk, wm, wn, elementSize) {
      var p, q, m, k := bm / wm, bn / wn, wm / 16, bk / 16;
      Tiles(bm, wm, 16);
      Tiles(bn, wn, 1);
      if transposed {
        var base := Rep2(Frag16x16CDNATransposed(), 1, 1, false, false);
        Base16x16CDNATransposed();
        OnIndex(Frag16x16CDNATransposed(), 16, 16, 1, 64, 1, 1, false);
        OnIndex(base, 16, 16, 1, 64, k, m, true);
        var warp := Rep2(base, k, m, false, true);
        OnThread(warp, bk, 16 * m, 1, 64, 1, p, true);
        Copied(Rep2(warp, 1, p, true, true), bk, bm, 1, 64 * p, q);
      } else {
        var base := Rep2(Frag16x16CDNA(), 1, 1, false, false);
        Base16x16CDNA();
        OnIndex(Frag16x16CDNA(), 16, 16, 1, 64, 1, 1, false);
        OnIndex(base, 16, 16, 1, 64, m, k, false);
        var warp := Rep2(base, m, k, false, false);
        OnThread(warp, 16 * m, bk, 1, 64, p, 1, true);
        Copied(Rep2(warp, p, 1, true, true), bm, bk, 1, 64 * p, q);
      }
    }
  }
  lemma VoltaFragmentCHolds(bm: int, bn: int, wm: int, wn: int, elementSize: int)
    requires bm > 0 && bn > 0 && wm > 0 && wn > 0 && VoltaFragmentC(bm, bn, wm, wn, elementSize).Ok?
    ensures Holds(VoltaFragmentC(bm, bn, wm, wn, elementSize).value, bm, bn, 1, 32 * (bm / wm * (bn / wn)))
  {
    Tiles(bm, wm, 32);
    Tiles(bn, wn, 32);
    BaseHalf();
    BaseSingle();
    var base := Frag32x32(elementSize).value;
    OnIndex(base, 32, 32, 1, 32, wm / 32, wn / 32, false);
    OnThread(Rep2(base, wm / 32, wn / 32, false, false), 32 * (wm / 32), 32 * (wn / 32), 1, 32, bm / wm, bn / wn, true);
  }
  lemma VoltaFragmentAHolds(bm: int, bn: int, bk: int, wm: int, wn: int)
    requires bm > 0 && bn > 0 && bk > 0 && wm > 0 && wn > 0 && bm % wm == 0 && bn % wn == 0 && wm % 32 == 0
    requires bk % 4 == 0
    ensures VoltaFragmentA(bm, bn, bk, wm, wn).Ok?
    ensures Holds(VoltaFragmentA(bm, bn, bk, wm, wn).value, bm, bk, 2 * (bn / wn), 32 * (bn / wn) * (bm / wm))
  {
    Tiles(bm, wm, 32);
    Tiles(bn, wn, 1);
    var p, q, m := bm / wm, bn / wn, wm / 32;
    Base32x4Volta();
    OnIndex(Frag32x4Volta(), 32, 4, 2, 32, m, bk / 4, false);
    var warp := Rep2(Frag32x4Volta(), m, bk / 4, false, false);
    Copied(warp, 32 * m, bk, 2, 32, q);
    OnThread(Copies(warp, q).value, 32 * m, bk, 2 * q, 32 * q, p, 1, true);
  }
}
