/** Boxes of index vectors and their mixed-radix flattening. */
module Boxes {
  import opened Arith

  predicate Positive(s: seq<int>) { forall i :: 0 <= i < |s| ==> s[i] > 0 }
  predicate InBox(x: seq<int>, s: seq<int>) { |x| == |s| && forall i :: 0 <= i < |s| ==> 0 <= x[i] < s[i] }

  function Volume(s: seq<int>): int { if s == [] then 1 else s[0] * Volume(s[1..]) }

  /** Position of x in a box whose first coordinate varies fastest. */
  function Flat(x: seq<int>, s: seq<int>): int
    requires |x| == |s|
  {
    if s == [] then 0 else x[0] + s[0] * Flat(x[1..], s[1..])
  }
  function Unflat(n: int, s: seq<int>): seq<int>
    requires Positive(s)
    decreases |s|
  {
    if s == [] then [] else [n % s[0]] + Unflat(n / s[0], s[1..])
  }

  lemma {:induction false} VolumePositive(s: seq<int>)
    requires Positive(s)
    ensures Volume(s) > 0
  {
    if s != [] {
      VolumePositive(s[1..]);
      MulFar(Volume(s[1..]), s[0]);
    }
  }

  lemma FlatStep(x: int, d: int, f: int, v: int)
    requires 0 <= x < d && 0 <= f < v
    ensures 0 <= x + d * f < d * v && (x + d * f) % d == x && (x + d * f) / d == f
  {
    MulMono(0, f, d);
    MulMono(f + 1, v, d);
    DivModUnique(x + d * f, d, f, x);
  }
  /** Flattening is a bijection from the box onto 0 .. volume - 1. */
  lemma {:induction false} FlatInverse(x: seq<int>, s: seq<int>)
    requires Positive(s) && InBox(x, s)
    ensures 0 <= Flat(x, s) < Volume(s) && Unflat(Flat(x, s), s) == x
  {
    if s == [] {
      assert x == [];
    } else {
      FlatInverse(x[1..], s[1..]);
      FlatStep(x[0], s[0], Flat(x[1..], s[1..]), Volume(s[1..]));
      assert [x[0]] + x[1..] == x;
    }
  }

  lemma {:induction false} UnflatInverse(n: int, s: seq<int>)
    requires Positive(s) && 0 <= n < Volume(s)
    ensures InBox(Unflat(n, s), s) && Flat(Unflat(n, s), s) == n
    decreases |s|
  {
    if s != [] {
      var d := s[0];
      DivModLaw(n, d);
      DivBelow(n, d, Volume(s[1..]));
      UnflatInverse(n / d, s[1..]);
      var u := Unflat(n, s);
      assert u[1..] == Unflat(n / d, s[1..]);
    }
  }

  /** Adding one more, slowest, coordinate. */
  lemma {:induction false} FlatSnoc(x: seq<int>, s: seq<int>, a: int, b: int)
    requires |x| == |s|
    ensures Flat(x + [a], s + [b]) == Flat(x, s) + Volume(s) * a
    ensures Volume(s + [b]) == Volume(s) * b
  {
    if s == [] {
      assert x + [a] == [a] && s + [b] == [b];
      assert [a][1..] == [] && [b][1..] == [];
    } else {
      FlatSnoc(x[1..], s[1..], a, b);
      assert (x + [a])[1..] == x[1..] + [a] && (s + [b])[1..] == s[1..] + [b];
      Distribute(s[0], Flat(x[1..], s[1..]), Volume(s[1..]), a);
      Associate(s[0], Volume(s[1..]), b);
    }
  }
  lemma Distribute(d: int, f: int, v: int, a: int)
    ensures d * (f + v * a) == d * f + d * v * a
  {
  }
  lemma Associate(a: int, b: int, c: int)
    ensures a * (b * c) == a * b * c
  {
  }

  // ----- reversed order

  function Rev(x: seq<int>): seq<int> { if x == [] then [] else Rev(x[1..]) + [x[0]] }

  lemma {:induction false} RevAt(x: seq<int>)
    ensures |Rev(x)| == |x| && forall i :: 0 <= i < |x| ==> Rev(x)[i] == x[|x| - 1 - i]
  {
    if x != [] { RevAt(x[1..]); }
  }
  lemma {:induction false} VolumeRev(s: seq<int>)
    ensures Volume(Rev(s)) == Volume(s)
  {
    if s != [] {
      RevAt(s[1..]);
      FlatSnoc(Rev(s[1..]), Rev(s[1..]), 0, s[0]);
      VolumeRev(s[1..]);
    }
  }
  lemma RevBox(x: seq<int>, s: seq<int>)
    ensures Positive(s) ==> Positive(Rev(s))
    ensures InBox(x, s) ==> InBox(Rev(x), Rev(s))
    ensures Rev(Rev(x)) == x && |Rev(x)| == |x|
  {
    RevAt(x);
    RevAt(s);
    RevAt(Rev(x));
  }

  // ----- coordinate-wise division

  function Mods(x: seq<int>, s: seq<int>): seq<int>
    requires |x| == |s| && Positive(s)
  {
    seq(|x|, i requires 0 <= i < |x| => x[i] % s[i])
  }
  function Quots(x: seq<int>, s: seq<int>): seq<int>
    requires |x| == |s| && Positive(s)
  {
    seq(|x|, i requires 0 <= i < |x| => x[i] / s[i])
  }
  function Times(x: seq<int>, s: seq<int>): seq<int>
    requires |x| == |s|
  {
    seq(|x|, i requires 0 <= i < |x| => x[i] * s[i])
  }
  /** The element at offset y of the block at q. */
  function Place(q: seq<int>, s: seq<int>, y: seq<int>): seq<int>
    requires |q| == |s| == |y|
  {
    seq(|q|, i requires 0 <= i < |q| => q[i] * s[i] + y[i])
  }

  /** A box of size s * r is r blocks of size s: coordinates split uniquely into block and offset. */
  lemma SplitBox(x: seq<int>, s: seq<int>, r: seq<int>)
    requires |s| == |r| && Positive(s) && InBox(x, Times(s, r))
    ensures InBox(Mods(x, s), s) && InBox(Quots(x, s), r) && Place(Quots(x, s), s, Mods(x, s)) == x
  {
    forall i | 0 <= i < |s|
      ensures 0 <= x[i] % s[i] < s[i] && 0 <= x[i] / s[i] < r[i] && x[i] / s[i] * s[i] + x[i] % s[i] == x[i]
    {
      assert Times(s, r)[i] == s[i] * r[i];
      DivModLaw(x[i], s[i]);
      DivBelow(x[i], s[i], r[i]);
    }
  }
  lemma JoinBox(q: seq<int>, y: seq<int>, s: seq<int>, r: seq<int>)
    requires |s| == |r| && Positive(s) && InBox(y, s) && InBox(q, r)
    ensures InBox(Place(q, s, y), Times(s, r)) && Mods(Place(q, s, y), s) == y && Quots(Place(q, s, y), s) == q
  {
    forall i | 0 <= i < |s|
      ensures 0 <= q[i] * s[i] + y[i] < s[i] * r[i] && (q[i] * s[i] + y[i]) % s[i] == y[i]
      ensures (q[i] * s[i] + y[i]) / s[i] == q[i]
    {
      DivModUnique(q[i] * s[i] + y[i], s[i], q[i], y[i]);
      MulMono(0, q[i], s[i]);
      MulMono(q[i] + 1, r[i], s[i]);
    }
  }
}
