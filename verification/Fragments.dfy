/** Fragments: maps from (element, replica) to (thread, register), and the operations that grow and shrink them. */
module Fragments {
  import opened Arith
  import opened Boxes

  /** `threads` and `regs` are ThreadExtent and OutputShape[0]; `thread` and `index` are forward_thread and
      forward_index[0] as functions of the element and, for the thread, the replica. */
  datatype Fragment = Fragment(shape: seq<int>, rep: int, threads: int, regs: int,
                               thread: (seq<int>, int) -> int, index: seq<int> -> int)

  /** x is an element of the fragment and r one of its replicas. */
  predicate Has(f: Fragment, x: seq<int>, r: int) { InBox(x, f.shape) && 0 <= r < f.rep }

  ghost predicate InRange(f: Fragment) {
    forall x, r :: Has(f, x, r) ==> 0 <= f.thread(x, r) < f.threads && 0 <= f.index(x) < f.regs
  }
  /** The thread alone tells the replica. */
  ghost predicate ThreadTellsReplica(f: Fragment) {
    forall x, r, y, q :: Has(f, x, r) && Has(f, y, q) && f.thread(x, r) == f.thread(y, q) ==> r == q
  }
  ghost predicate Injective(f: Fragment) {
    forall x, r, y, q ::
      Has(f, x, r) && Has(f, y, q) && f.thread(x, r) == f.thread(y, q) && f.index(x) == f.index(y) ==> x == y
  }
  ghost predicate Hit(f: Fragment, th: int, rg: int, x: seq<int>, r: int) {
    Has(f, x, r) && f.thread(x, r) == th && f.index(x) == rg
  }
  ghost predicate Reaches(f: Fragment, th: int, rg: int) { exists x, r :: Hit(f, th, rg, x, r) }
  ghost predicate Onto(f: Fragment) {
    forall th, rg :: 0 <= th < f.threads && 0 <= rg < f.regs ==> Reaches(f, th, rg)
  }
  /** (element, replica) and (thread, register) correspond one to one. */
  ghost predicate Bijective(f: Fragment) {
    && Positive(f.shape) && f.rep > 0 && f.threads > 0 && f.regs > 0
    && InRange(f) && ThreadTellsReplica(f) && Injective(f) && Onto(f)
  }

  // ----- Repeat

  /** The number of a block among the repeats: dimension 0 fastest, or the last dimension when lower_dim_first. */
  function BlockNo(q: seq<int>, repeats: seq<int>, lowerFirst: bool): int
    requires |q| == |repeats|
  {
    if lowerFirst then
      RevAt(q); RevAt(repeats);
      Flat(Rev(q), Rev(repeats))
    else Flat(q, repeats)
  }
  function BlockAt(n: int, repeats: seq<int>, lowerFirst: bool): seq<int>
    requires Positive(repeats)
  {
    if lowerFirst then
      RevBox([], repeats);
      Rev(Unflat(n, Rev(repeats)))
    else Unflat(n, repeats)
  }

  /** Blocks are numbered 0 .. volume(repeats) - 1, one number each. */
  lemma BlockNoInverse(q: seq<int>, repeats: seq<int>, lowerFirst: bool)
    requires Positive(repeats) && InBox(q, repeats)
    ensures 0 <= BlockNo(q, repeats, lowerFirst) < Volume(repeats)
    ensures BlockAt(BlockNo(q, repeats, lowerFirst), repeats, lowerFirst) == q
  {
    if lowerFirst {
      RevBox(q, repeats);
      FlatInverse(Rev(q), Rev(repeats));
      VolumeRev(repeats);
    } else {
      FlatInverse(q, repeats);
    }
  }
  lemma BlockAtInverse(n: int, repeats: seq<int>, lowerFirst: bool)
    requires Positive(repeats) && 0 <= n < Volume(repeats)
    ensures InBox(BlockAt(n, repeats, lowerFirst), repeats)
    ensures BlockNo(BlockAt(n, repeats, lowerFirst), repeats, lowerFirst) == n
  {
    if lowerFirst {
      RevBox([], repeats);
      VolumeRev(repeats);
      UnflatInverse(n, Rev(repeats));
      var u := Unflat(n, Rev(repeats));
      RevBox(u, Rev(repeats));
      RevBox(repeats, repeats);
      RevBox(Rev(u), repeats);
    } else {
      UnflatInverse(n, repeats);
    }
  }

  /** The accumulation loop of Repeat computes that number. */
  method RepeatsIndex(q: seq<int>, repeats: seq<int>, lowerFirst: bool) returns (index: int)
    requires |q| == |repeats|
    ensures index == BlockNo(q, repeats, lowerFirst)
  {
    index := 0;
    var stride := 1;
    if lowerFirst {
      RevAt(q);
      RevAt(repeats);
      var i := |q| - 1;
      while i >= 0
        invariant -1 <= i < |q|
        invariant index == Flat(Rev(q)[..|q| - 1 - i], Rev(repeats)[..|q| - 1 - i])
        invariant stride == Volume(Rev(repeats)[..|q| - 1 - i])
      {
        var k := |q| - 1 - i;
        FlatSnoc(Rev(q)[..k], Rev(repeats)[..k], q[i], repeats[i]);
        assert Rev(q)[..k + 1] == Rev(q)[..k] + [q[i]] && Rev(repeats)[..k + 1] == Rev(repeats)[..k] + [repeats[i]];
        index := index + stride * q[i];
        stride := stride * repeats[i];
        i := i - 1;
      }
      assert Rev(q)[..|q|] == Rev(q) && Rev(repeats)[..|q|] == Rev(repeats);
    } else {
      var i := 0;
      while i < |q|
        invariant 0 <= i <= |q|
        invariant index == Flat(q[..i], repeats[..i]) && stride == Volume(repeats[..i])
      {
        FlatSnoc(q[..i], repeats[..i], q[i], repeats[i]);
        assert q[..i + 1] == q[..i] + [q[i]] && repeats[..i + 1] == repeats[..i] + [repeats[i]];
        index := index + stride * q[i];
        stride := stride * repeats[i];
        i := i + 1;
      }
      assert q[..|q|] == q && repeats[..|q|] == repeats;
    }
  }

  /** Offset of an element inside its block, and the number of the block. */
  function Inner(f: Fragment, x: seq<int>): seq<int> {
    if |x| == |f.shape| && Positive(f.shape) then Mods(x, f.shape) else []
  }
  function Outer(f: Fragment, repeats: seq<int>, lowerFirst: bool, x: seq<int>): int {
    if |x| == |f.shape| == |repeats| && Positive(f.shape) then BlockNo(Quots(x, f.shape), repeats, lowerFirst) else 0
  }

  function RepeatOnThread(f: Fragment, repeats: seq<int>, lowerFirst: bool): Fragment
    requires |repeats| == |f.shape|
  {
    Fragment(Times(f.shape, repeats), f.rep, f.threads * Volume(repeats), f.regs,
             (x: seq<int>, r: int) => f.thread(Inner(f, x), r) + f.threads * Outer(f, repeats, lowerFirst, x),
             (x: seq<int>) => f.index(Inner(f, x)))
  }
  function RepeatOnIndex(f: Fragment, repeats: seq<int>, lowerFirst: bool): Fragment
    requires |repeats| == |f.shape|
  {
    Fragment(Times(f.shape, repeats), f.rep, f.threads, f.regs * Volume(repeats),
             (x: seq<int>, r: int) => f.thread(Inner(f, x), r),
             (x: seq<int>) => f.index(Inner(f, x)) + f.regs * Outer(f, repeats, lowerFirst, x))
  }
  /** Repeat(repeats, repeat_on_thread, lower_dim_first). */
  function Repeat(f: Fragment, repeats: seq<int>, onThread: bool, lowerFirst: bool): Fragment
    requires |repeats| == |f.shape|
  {
    if onThread then RepeatOnThread(f, repeats, lowerFirst) else RepeatOnIndex(f, repeats, lowerFirst)
  }

  /** An element of the repeated box is an element of the old one plus a block number, and conversely. */
  lemma Cut(f: Fragment, repeats: seq<int>, lf: bool, x: seq<int>)
    requires Positive(f.shape) && Positive(repeats) && |repeats| == |f.shape| && InBox(x, Times(f.shape, repeats))
    ensures InBox(Inner(f, x), f.shape) && 0 <= Outer(f, repeats, lf, x) < Volume(repeats)
    ensures |BlockAt(Outer(f, repeats, lf, x), repeats, lf)| == |f.shape|
    ensures x == Place(BlockAt(Outer(f, repeats, lf, x), repeats, lf), f.shape, Inner(f, x))
  {
    SplitBox(x, f.shape, repeats);
    BlockNoInverse(Quots(x, f.shape), repeats, lf);
  }
  lemma Paste(f: Fragment, repeats: seq<int>, lf: bool, y: seq<int>, n: int) returns (x: seq<int>)
    requires Positive(f.shape) && Positive(repeats) && |repeats| == |f.shape| && InBox(y, f.shape)
    requires 0 <= n < Volume(repeats)
    ensures InBox(x, Times(f.shape, repeats)) && Inner(f, x) == y && Outer(f, repeats, lf, x) == n
  {
    BlockAtInverse(n, repeats, lf);
    var q := BlockAt(n, repeats, lf);
    JoinBox(q, y, f.shape, repeats);
    x := Place(q, f.shape, y);
  }

  /** a + k * b with a below k determines a and b. */
  lemma Radix(k: int, a: int, b: int, c: int, d: int)
    requires k > 0 && 0 <= a < k && 0 <= c < k && a + k * b == c + k * d
    ensures a == c && b == d
  {
    DivModUnique(a + k * b, k, b, a);
    DivModUnique(c + k * d, k, d, c);
  }
  lemma RadixRange(k: int, a: int, b: int, n: int)
    requires 0 <= a < k && 0 <= b < n
    ensures 0 <= a + k * b < k * n
  {
    MulMono(0, b, k);
    MulMono(b + 1, n, k);
  }

  lemma TimesPositive(s: seq<int>, r: seq<int>)
    requires |s| == |r| && Positive(s) && Positive(r)
    ensures Positive(Times(s, r)) && Volume(r) > 0
  {
    VolumePositive(r);
    forall i | 0 <= i < |s| ensures Times(s, r)[i] > 0 { MulFar(s[i], r[i]); }
  }

  lemma ThreadRange(f: Fragment, repeats: seq<int>, lf: bool)
    requires Bijective(f) && |repeats| == |f.shape| && Positive(repeats)
    ensures InRange(RepeatOnThread(f, repeats, lf)) && ThreadTellsReplica(RepeatOnThread(f, repeats, lf))
    ensures Injective(RepeatOnThread(f, repeats, lf))
  {
    var g := RepeatOnThread(f, repeats, lf);
    forall x, r | Has(g, x, r)
      ensures 0 <= g.thread(x, r) < g.threads && 0 <= g.index(x) < g.regs
    {
      Cut(f, repeats, lf, x);
      assert Has(f, Inner(f, x), r);
      RadixRange(f.threads, f.thread(Inner(f, x), r), Outer(f, repeats, lf, x), Volume(repeats));
    }
    forall x, r, y, q | Has(g, x, r) && Has(g, y, q) && g.thread(x, r) == g.thread(y, q)
      ensures r == q && (g.index(x) == g.index(y) ==> x == y)
    {
      Cut(f, repeats, lf, x);
      Cut(f, repeats, lf, y);
      assert Has(f, Inner(f, x), r) && Has(f, Inner(f, y), q);
      Radix(f.threads, f.thread(Inner(f, x), r), Outer(f, repeats, lf, x), f.thread(Inner(f, y), q),
            Outer(f, repeats, lf, y));
    }
  }

  lemma ThreadReaches(f: Fragment, repeats: seq<int>, lf: bool, a: int, k: int, rg: int)
    requires Bijective(f) && |repeats| == |f.shape| && Positive(repeats)
    requires 0 <= a < f.threads && 0 <= k < Volume(repeats) && 0 <= rg < f.regs
    ensures Reaches(RepeatOnThread(f, repeats, lf), a + f.threads * k, rg)
  {
    assert Reaches(f, a, rg);
    var y, r :| Hit(f, a, rg, y, r);
    var x := Paste(f, repeats, lf, y, k);
    assert Hit(RepeatOnThread(f, repeats, lf), a + f.threads * k, rg, x, r);
  }
  lemma ThreadOnto(f: Fragment, repeats: seq<int>, lf: bool)
    requires Bijective(f) && |repeats| == |f.shape| && Positive(repeats)
    ensures Onto(RepeatOnThread(f, repeats, lf))
  {
    var g := RepeatOnThread(f, repeats, lf);
    forall th, rg | 0 <= th < g.threads && 0 <= rg < g.regs
      ensures Reaches(g, th, rg)
    {
      DivModLaw(th, f.threads);
      DivBelow(th, f.threads, Volume(repeats));
      ThreadReaches(f, repeats, lf, th % f.threads, th / f.threads, rg);
    }
  }

  lemma IndexRange(f: Fragment, repeats: seq<int>, lf: bool)
    requires Bijective(f) && |repeats| == |f.shape| && Positive(repeats)
    ensures InRange(RepeatOnIndex(f, repeats, lf)) && ThreadTellsReplica(RepeatOnIndex(f, repeats, lf))
    ensures Injective(RepeatOnIndex(f, repeats, lf))
  {
    var g := RepeatOnIndex(f, repeats, lf);
    forall x, r | Has(g, x, r)
      ensures 0 <= g.thread(x, r) < g.threads && 0 <= g.index(x) < g.regs
    {
      Cut(f, repeats, lf, x);
      assert Has(f, Inner(f, x), r);
      RadixRange(f.regs, f.index(Inner(f, x)), Outer(f, repeats, lf, x), Volume(repeats));
    }
    forall x, r, y, q | Has(g, x, r) && Has(g, y, q) && g.thread(x, r) == g.thread(y, q)
      ensures r == q && (g.index(x) == g.index(y) ==> x == y)
    {
      Cut(f, repeats, lf, x);
      Cut(f, repeats, lf, y);
      assert Has(f, Inner(f, x), r) && Has(f, Inner(f, y), q);
      if g.index(x) == g.index(y) {
        Radix(f.regs, f.index(Inner(f, x)), Outer(f, repeats, lf, x), f.index(Inner(f, y)), Outer(f, repeats, lf, y));
      }
    }
  }

  lemma IndexOnto(f: Fragment, repeats: seq<int>, lf: bool)
    requires Bijective(f) && |repeats| == |f.shape| && Positive(repeats)
    ensures Onto(RepeatOnIndex(f, repeats, lf))
  {
    var g := RepeatOnIndex(f, repeats, lf);
    forall th, rg | 0 <= th < g.threads && 0 <= rg < g.regs
      ensures Reaches(g, th, rg)
    {
      DivModLaw(rg, f.regs);
      DivBelow(rg, f.regs, Volume(repeats));
      assert Reaches(f, th, rg % f.regs);
      var y, r :| Hit(f, th, rg % f.regs, y, r);
      var x := Paste(f, repeats, lf, y, rg / f.regs);
      assert Hit(g, th, rg, x, r);
    }
  }

  /** Repeating a bijective fragment, on the thread or on the index and in either dimension order, gives one again. */
  lemma RepeatBijective(f: Fragment, repeats: seq<int>, onThread: bool, lf: bool)
    requires Bijective(f) && |repeats| == |f.shape| && Positive(repeats)
    ensures Bijective(Repeat(f, repeats, onThread, lf))
  {
    TimesPositive(f.shape, repeats);
    if onThread {
      ThreadRange(f, repeats, lf);
      ThreadOnto(f, repeats, lf);
      MulFar(Volume(repeats), f.threads);
    } else {
      IndexRange(f, repeats, lf);
      IndexOnto(f, repeats, lf);
      MulFar(Volume(repeats), f.regs);
    }
  }

  // ----- Replicate

  function Mod(a: int, b: int): int { if b > 0 then a % b else 0 }
  function Div(a: int, b: int): int { if b > 0 then a / b else 0 }

  function Replicate(f: Fragment, repeats: int): Fragment {
    Fragment(f.shape, f.rep * repeats, f.threads * repeats, f.regs,
             (x: seq<int>, r: int) => f.thread(x, Mod(r, f.rep)) + f.threads * Div(r, f.rep),
             f.index)
  }

  lemma CutReplica(r: int, rep: int, repeats: int)
    requires rep > 0 && 0 <= r < rep * repeats
    ensures 0 <= Mod(r, rep) < rep && 0 <= Div(r, rep) < repeats && r == Div(r, rep) * rep + Mod(r, rep)
  {
    DivModLaw(r, rep);
    DivBelow(r, rep, repeats);
  }

  lemma ReplicateRange(f: Fragment, repeats: int)
    requires Bijective(f) && repeats >= 1
    ensures InRange(Replicate(f, repeats)) && ThreadTellsReplica(Replicate(f, repeats))
    ensures Injective(Replicate(f, repeats))
  {
    var g := Replicate(f, repeats);
    forall x, r | Has(g, x, r)
      ensures 0 <= g.thread(x, r) < g.threads && 0 <= g.index(x) < g.regs
    {
      CutReplica(r, f.rep, repeats);
      assert Has(f, x, Mod(r, f.rep));
      RadixRange(f.threads, f.thread(x, Mod(r, f.rep)), Div(r, f.rep), repeats);
    }
    forall x, r, y, q | Has(g, x, r) && Has(g, y, q) && g.thread(x, r) == g.thread(y, q)
      ensures r == q && (g.index(x) == g.index(y) ==> x == y)
    {
      CutReplica(r, f.rep, repeats);
      CutReplica(q, f.rep, repeats);
      assert Has(f, x, Mod(r, f.rep)) && Has(f, y, Mod(q, f.rep));
      Radix(f.threads, f.thread(x, Mod(r, f.rep)), Div(r, f.rep), f.thread(y, Mod(q, f.rep)), Div(q, f.rep));
    }
  }

  lemma ReplicaAt(rep: int, r: int, k: int, repeats: int)
    requires 0 <= r < rep && 0 <= k < repeats
    ensures 0 <= r + rep * k < rep * repeats && Mod(r + rep * k, rep) == r && Div(r + rep * k, rep) == k
  {
    RadixRange(rep, r, k, repeats);
    DivModUnique(r + rep * k, rep, k, r);
  }
  lemma ReplicateReaches(f: Fragment, repeats: int, a: int, k: int, rg: int)
    requires Bijective(f) && 0 <= a < f.threads && 0 <= k < repeats && 0 <= rg < f.regs
    ensures Reaches(Replicate(f, repeats), a + f.threads * k, rg)
  {
    assert Reaches(f, a, rg);
    var x, r :| Hit(f, a, rg, x, r);
    ReplicaAt(f.rep, r, k, repeats);
    assert Hit(Replicate(f, repeats), a + f.threads * k, rg, x, r + f.rep * k);
  }
  lemma ReplicateOnto(f: Fragment, repeats: int)
    requires Bijective(f) && repeats >= 1
    ensures Onto(Replicate(f, repeats))
  {
    var g := Replicate(f, repeats);
    forall th, rg | 0 <= th < g.threads && 0 <= rg < g.regs
      ensures Reaches(g, th, rg)
    {
      CutReplica(th, f.threads, repeats);
      ReplicateReaches(f, repeats, Mod(th, f.threads), Div(th, f.threads), rg);
    }
  }

  lemma ReplicateBijective(f: Fragment, repeats: int)
    requires Bijective(f) && repeats >= 1
    ensures Bijective(Replicate(f, repeats))
  {
    ReplicateRange(f, repeats);
    ReplicateOnto(f, repeats);
    MulFar(repeats, f.rep);
    MulFar(repeats, f.threads);
  }

  // ----- DeReplicate

  function Gcd(a: int, b: int): int
    requires a >= 0 && b >= 0
    decreases b
  {
    if b == 0 then a else Gcd(b, a % b)
  }
  ghost predicate Divides(d: int, a: int) { exists k :: a == k * d }

  lemma DividesSum(d: int, a: int, b: int, k: int)
    requires Divides(d, a) && Divides(d, b)
    ensures Divides(d, a + k * b)
  {
    var p :| a == p * d;
    var q :| b == q * d;
    assert a + k * b == (p + k * q) * d;
  }
  /** The factor divides both extents, and every common divisor divides it. */
  lemma {:induction false} GcdLaw(a: int, b: int)
    requires a >= 0 && b >= 0 && a + b > 0
    ensures Gcd(a, b) > 0 && Divides(Gcd(a, b), a) && Divides(Gcd(a, b), b)
    ensures forall d :: Divides(d, a) && Divides(d, b) ==> Divides(d, Gcd(a, b))
    decreases b
  {
    if b == 0 {
      assert a == 1 * a && 0 == 0 * a;
    } else {
      GcdLaw(b, a % b);
      DivModLaw(a, b);
      DividesSum(Gcd(b, a % b), a % b, b, a / b);
      forall d | Divides(d, a) && Divides(d, b)
        ensures Divides(d, Gcd(a, b))
      {
        DividesSum(d, a, b, -(a / b));
        assert a + -(a / b) * b == a % b;
      }
    }
  }

  /** Spreads the replicas over the registers: register index % k picks which of k replicas keeps the element. */
  function Thin(f: Fragment, k: int): Fragment {
    Fragment(f.shape, Div(f.rep, k), f.threads, Div(f.regs, k),
             (x: seq<int>, r: int) => f.thread(x, r * k + Mod(f.index(x), k)),
             (x: seq<int>) => Div(f.index(x), k))
  }
  function DeReplicate(f: Fragment): Fragment
    requires f.rep > 0 && f.regs > 0
  {
    var factor := Gcd(f.rep, f.regs);
    if factor == 1 then f else Thin(f, factor)
  }

  lemma Multiple(a: int, k: int)
    requires k > 0 && a > 0 && Divides(k, a)
    ensures Div(a, k) > 0 && a == k * Div(a, k)
  {
    var q :| a == q * k;
    DivModUnique(a, k, q, 0);
    if q <= 0 { MulMono(q, 0, k); }
  }

  lemma ThinRange(f: Fragment, k: int)
    requires Bijective(f) && k > 0 && Divides(k, f.rep) && Divides(k, f.regs)
    ensures InRange(Thin(f, k)) && ThreadTellsReplica(Thin(f, k)) && Injective(Thin(f, k))
    ensures forall x, r :: Has(Thin(f, k), x, r) ==> Has(f, x, r * k + Mod(f.index(x), k))
  {
    var g := Thin(f, k);
    Multiple(f.rep, k);
    Multiple(f.regs, k);
    forall x, r | Has(g, x, r)
      ensures 0 <= g.thread(x, r) < g.threads && 0 <= g.index(x) < g.regs && Has(f, x, r * k + Mod(f.index(x), k))
    {
      assert Has(f, x, 0);
      CutReplica(f.index(x), k, g.regs);
      RadixRange(k, Mod(f.index(x), k), r, g.rep);
    }
    forall x, r, y, q | Has(g, x, r) && Has(g, y, q) && g.thread(x, r) == g.thread(y, q)
      ensures r == q && (g.index(x) == g.index(y) ==> x == y)
    {
      assert Has(f, x, 0) && Has(f, y, 0);
      CutReplica(f.index(x), k, g.regs);
      CutReplica(f.index(y), k, g.regs);
      assert Has(f, x, r * k + Mod(f.index(x), k)) && Has(f, y, q * k + Mod(f.index(y), k));
      Radix(k, Mod(f.index(x), k), r, Mod(f.index(y), k), q);
    }
  }

  lemma ThinOnto(f: Fragment, k: int)
    requires Bijective(f) && k > 0 && Divides(k, f.rep) && Divides(k, f.regs)
    ensures Onto(Thin(f, k))
  {
    var g := Thin(f, k);
    Multiple(f.rep, k);
    Multiple(f.regs, k);
    forall th, rg | 0 <= th < g.threads && 0 <= rg < g.regs
      ensures Reaches(g, th, rg)
    {
      MulFar(g.regs, k);
      assert Reaches(f, th, 0);
      var y, q :| Hit(f, th, 0, y, q);
      CutReplica(q, k, g.rep);
      RadixRange(k, Mod(q, k), rg, g.regs);
      var old_rg := Mod(q, k) + k * rg;
      assert Reaches(f, th, old_rg);
      var x, p :| Hit(f, th, old_rg, x, p);
      assert Has(f, x, p) && Has(f, y, q);
      DivModUnique(old_rg, k, rg, Mod(q, k));
      assert Hit(g, th, rg, x, Div(q, k));
    }
  }

  /** Every thread that holds x after is one that held it before. */
  ghost predicate ThreadsWithin(g: Fragment, f: Fragment) {
    forall x, r :: Has(g, x, r) ==> exists q :: Has(f, x, q) && f.thread(x, q) == g.thread(x, r)
  }

  /** DeReplicate keeps the correspondence, divides replicas and registers by their greatest common divisor and moves
      no element to a thread that did not already hold it. */
  lemma DeReplicateBijective(f: Fragment)
    requires Bijective(f)
    ensures Bijective(DeReplicate(f)) && ThreadsWithin(DeReplicate(f), f)
    ensures DeReplicate(f).shape == f.shape && DeReplicate(f).threads == f.threads
    ensures DeReplicate(f).rep * Gcd(f.rep, f.regs) == f.rep && DeReplicate(f).regs * Gcd(f.rep, f.regs) == f.regs
  {
    var k := Gcd(f.rep, f.regs);
    GcdLaw(f.rep, f.regs);
    if k != 1 {
      ThinRange(f, k);
      ThinOnto(f, k);
      Multiple(f.rep, k);
      Multiple(f.regs, k);
    }
  }
}
