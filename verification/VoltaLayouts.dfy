/** The Volta operand layouts permute the addresses of the tile. */
module VoltaLayouts {
  import opened Arith
  import opened Results
  import opened GemmLayouts

  // ----- crosswise

  /** Which vector of its column row i goes to, in vector column w modulo 8. */
  function Permuted(i: int, w: int): int {
    var bit2 := (i % 32 / 16 + i % 16 / 8 + w / 4) % 2;
    var bit1 := Xor2x2(i % 8 / 4, w % 4 / 2);
    i / 16 * 16 + i % 4 * 4 + bit2 * 2 + bit1
  }
  function Unpermuted(p: int, w: int): int {
    var a := (p / 2 % 2 + p / 16 % 2 + w / 4) % 2;
    var b := (p % 2 + w % 4 / 2) % 2;
    p / 16 * 16 + p / 4 % 4 + 4 * b + 8 * a
  }
  function Crosswise(stride: int, continuous: int): Result<Layout> {
    if stride % 32 == 0 && continuous % 32 == 0 then
      Ok(CrosswiseWith(Permuted, stride, continuous))
    else CheckFailed
  }
  function CrosswiseWith(P: (int, int) -> int, stride: int, continuous: int): Layout {
    Layout(stride, continuous, (i: int, j: int) => [j % 4 + P(i, j / 4 % 8) * 4 + j / 4 * stride * 4])
  }

  /** h, a, b, r: the parts of a row number 16 h + 8 a + 4 b + r. */
  lemma Parts(h: int, a: int, b: int, r: int)
    requires 0 <= a < 2 && 0 <= b < 2 && 0 <= r < 4
    ensures var i := 16 * h + 8 * a + 4 * b + r;
      i / 16 == h && i % 4 == r && i % 8 / 4 == b && i % 16 / 8 == a && i % 32 / 16 == h % 2
  {
    var i := 16 * h + 8 * a + 4 * b + r;
    DivModUnique(i, 16, h, 8 * a + 4 * b + r);
    DivModUnique(i, 8, 2 * h + a, 4 * b + r);
    DivModUnique(i, 4, 4 * h + 2 * a + b, r);
    DivModUnique(i, 32, h / 2, 16 * (h % 2) + 8 * a + 4 * b + r);
  }
  lemma PartsBack(h: int, r: int, d: int, e: int)
    requires 0 <= r < 4 && 0 <= d < 2 && 0 <= e < 2
    ensures var p := 16 * h + 4 * r + 2 * d + e; p / 16 == h && p / 4 % 4 == r && p / 2 % 2 == d && p % 2 == e
  {
    var p := 16 * h + 4 * r + 2 * d + e;
    DivModUnique(p, 16, h, 4 * r + 2 * d + e);
    DivModUnique(p, 4, 4 * h + r, 2 * d + e);
    DivModUnique(4 * h + r, 4, h, r);
    DivModUnique(p, 2, 8 * h + 2 * r + d, e);
    DivModUnique(8 * h + 2 * r + d, 2, 4 * h + r, d);
  }
  lemma PermutedParts(h: int, a: int, b: int, r: int, w: int)
    requires 0 <= a < 2 && 0 <= b < 2 && 0 <= r < 4 && 0 <= w < 8
    ensures Permuted(16 * h + 8 * a + 4 * b + r, w) ==
      16 * h + 4 * r + 2 * ((h % 2 + a + w / 4) % 2) + (b + w % 4 / 2) % 2
  {
    Parts(h, a, b, r);
  }
  lemma UnpermutedParts(h: int, r: int, d: int, e: int, w: int)
    requires 0 <= r < 4 && 0 <= d < 2 && 0 <= e < 2 && 0 <= w < 8
    ensures Unpermuted(16 * h + 4 * r + 2 * d + e, w) ==
      16 * h + 8 * ((d + h % 2 + w / 4) % 2) + 4 * ((e + w % 4 / 2) % 2) + r
  {
    PartsBack(h, r, d, e);
  }
  lemma Flip(a: int, x: int)
    requires 0 <= a < 2
    ensures ((a + x) % 2 + x) % 2 == a && 0 <= (a + x) % 2 < 2
  {
  }
  lemma RowParts(i: int) returns (h: int, a: int, b: int, r: int)
    ensures 0 <= a < 2 && 0 <= b < 2 && 0 <= r < 4 && i == 16 * h + 8 * a + 4 * b + r && i / 16 == h
  {
    h, a, b, r := i / 16, i % 16 / 8, i % 16 % 8 / 4, i % 16 % 8 % 4;
  }
  lemma VectorParts(p: int) returns (h: int, r: int, d: int, e: int)
    ensures 0 <= r < 4 && 0 <= d < 2 && 0 <= e < 2 && p == 16 * h + 4 * r + 2 * d + e && p / 16 == h
  {
    h, r, d, e := p / 16, p % 16 / 4, p % 16 % 4 / 2, p % 16 % 4 % 2;
  }
  lemma Sixteen(h: int, low: int)
    requires 0 <= low < 16
    ensures (16 * h + low) / 16 == h
  {
  }
  lemma RoundTrip(P: (int, int) -> int, Q: (int, int) -> int, h: int, a: int, b: int, r: int, w: int, d: int, e: int)
    requires 0 <= a < 2 && 0 <= b < 2 && 0 <= r < 4 && d == (h % 2 + a + w / 4) % 2 && e == (b + w % 4 / 2) % 2
    requires P(16 * h + 8 * a + 4 * b + r, w) == 16 * h + 4 * r + 2 * d + e
    requires Q(16 * h + 4 * r + 2 * d + e, w) == 16 * h + 8 * ((d + h % 2 + w / 4) % 2) + 4 * ((e + w % 4 / 2) % 2) + r
    ensures var i := 16 * h + 8 * a + 4 * b + r; Q(P(i, w), w) == i && P(i, w) / 16 == h
  {
    Flip(a, h % 2 + w / 4);
    Flip(b, w % 4 / 2);
    Sixteen(h, 4 * r + 2 * d + e);
  }
  lemma TripRound(P: (int, int) -> int, Q: (int, int) -> int, h: int, r: int, d: int, e: int, w: int, a: int, b: int)
    requires 0 <= r < 4 && 0 <= d < 2 && 0 <= e < 2 && a == (d + h % 2 + w / 4) % 2 && b == (e + w % 4 / 2) % 2
    requires Q(16 * h + 4 * r + 2 * d + e, w) == 16 * h + 8 * a + 4 * b + r
    requires P(16 * h + 8 * a + 4 * b + r, w) == 16 * h + 4 * r + 2 * ((h % 2 + a + w / 4) % 2) + (b + w % 4 / 2) % 2
    ensures var p := 16 * h + 4 * r + 2 * d + e; P(Q(p, w), w) == p && Q(p, w) / 16 == h
  {
    Flip(d, h % 2 + w / 4);
    Flip(e, w % 4 / 2);
    Sixteen(h, 8 * a + 4 * b + r);
  }
  /** In each vector column the rows are permuted, within their group of 16. */
  lemma PermutedInverse(i: int, w: int)
    requires 0 <= w < 8
    ensures Unpermuted(Permuted(i, w), w) == i && Permuted(i, w) / 16 == i / 16
  {
    var h, a, b, r := RowParts(i);
    PermutedParts(h, a, b, r, w);
    var d, e := (h % 2 + a + w / 4) % 2, (b + w % 4 / 2) % 2;
    UnpermutedParts(h, r, d, e, w);
    RoundTrip(Permuted, Unpermuted, h, a, b, r, w, d, e);
  }
  lemma UnpermutedInverse(p: int, w: int)
    requires 0 <= w < 8
    ensures Permuted(Unpermuted(p, w), w) == p && Unpermuted(p, w) / 16 == p / 16
  {
    var h, r, d, e := VectorParts(p);
    UnpermutedParts(h, r, d, e, w);
    var a, b := (d + h % 2 + w / 4) % 2, (e + w % 4 / 2) % 2;
    PermutedParts(h, a, b, r, w);
    TripRound(Permuted, Unpermuted, h, r, d, e, w, a, b);
  }
  /** P and Q undo each other on 0 .. n - 1, for each w below 8. */
  ghost predicate Inverses(P: (int, int) -> int, Q: (int, int) -> int, n: int) {
    && (forall i, w :: 0 <= i < n && 0 <= w < 8 ==> 0 <= P(i, w) < n && Q(P(i, w), w) == i)
    && (forall p, w :: 0 <= p < n && 0 <= w < 8 ==> 0 <= Q(p, w) < n && P(Q(p, w), w) == p)
  }
  lemma SameSixteen(i: int, p: int, n: int)
    requires n % 16 == 0 && i / 16 == p / 16 && 0 <= i < n
    ensures 0 <= p < n
  {
  }
  ghost predicate UndoneInSixteens(P: (int, int) -> int, Q: (int, int) -> int) {
    forall i, w :: 0 <= w < 8 ==> Q(P(i, w), w) == i && P(i, w) / 16 == i / 16
  }
  lemma InversesBelow(P: (int, int) -> int, Q: (int, int) -> int, n: int)
    requires UndoneInSixteens(P, Q) && UndoneInSixteens(Q, P) && n % 16 == 0
    ensures Inverses(P, Q, n)
  {
    forall i, w | 0 <= i < n && 0 <= w < 8 ensures 0 <= P(i, w) < n && 0 <= Q(i, w) < n {
      SameSixteen(i, P(i, w), n);
      SameSixteen(i, Q(i, w), n);
    }
  }
  lemma PermutedIsInverse(stride: int)
    requires stride % 32 == 0
    ensures Inverses(Permuted, Unpermuted, stride)
  {
    forall i, w | 0 <= w < 8
      ensures Unpermuted(Permuted(i, w), w) == i && Permuted(i, w) / 16 == i / 16
    {
      PermutedInverse(i, w);
    }
    assert UndoneInSixteens(Permuted, Unpermuted);
    forall i, w | 0 <= w < 8
      ensures Permuted(Unpermuted(i, w), w) == i && Unpermuted(i, w) / 16 == i / 16
    {
      UnpermutedInverse(i, w);
    }
    assert UndoneInSixteens(Unpermuted, Permuted);
    InversesBelow(Permuted, Unpermuted, stride);
  }

  lemma CrosswiseAddress(p: int, q: int, a: int, stride: int, quads: int)
    requires 0 <= a < 4 && 0 <= p < stride && 0 <= q < quads
    ensures var n := a + p * 4 + q * stride * 4;
            n % 4 == a && n / 4 % stride == p && n / 4 / stride == q && 0 <= n < stride * (quads * 4)
  {
    var m := p + q * stride;
    DivModUnique(m, stride, q, p);
    assert a + p * 4 + q * stride * 4 == a + 4 * m;
    DivModUnique(a + 4 * m, 4, m, a);
    MulMono(0, q, stride);
    MulMono(q + 1, quads, stride);
    assert quads * stride * 4 == stride * (quads * 4);
  }
  lemma CrosswiseInjective(P: (int, int) -> int, Q: (int, int) -> int, stride: int, continuous: int)
    requires Inverses(P, Q, stride) && stride > 0 && continuous % 4 == 0
    ensures var g := CrosswiseWith(P, stride, continuous);
            && Injective(g)
            && forall i, j :: InTile(g, i, j) ==>
                 |g.forward(i, j)| == 1 && 0 <= g.forward(i, j)[0] < stride * continuous
  {
    var g := CrosswiseWith(P, stride, continuous);
    forall i, j | InTile(g, i, j) ensures |g.forward(i, j)| == 1 && 0 <= g.forward(i, j)[0] < stride * continuous {
      CrosswiseAddress(P(i, j / 4 % 8), j / 4, j % 4, stride, continuous / 4);
    }
    forall i, j, k, l | InTile(g, i, j) && InTile(g, k, l) && g.forward(i, j) == g.forward(k, l)
      ensures i == k && j == l
    {
      assert g.forward(i, j)[0] == g.forward(k, l)[0];
      CrosswiseAddress(P(i, j / 4 % 8), j / 4, j % 4, stride, continuous / 4);
      CrosswiseAddress(P(k, l / 4 % 8), l / 4, l % 4, stride, continuous / 4);
      assert j == l;
      assert Q(P(i, j / 4 % 8), j / 4 % 8) == i && Q(P(k, l / 4 % 8), l / 4 % 8) == k;
    }
  }
  lemma CrosswiseOnto(P: (int, int) -> int, Q: (int, int) -> int, stride: int, continuous: int, n: int)
    requires Inverses(P, Q, stride) && stride > 0 && continuous % 4 == 0 && 0 <= n < stride * continuous
    ensures Fills(CrosswiseWith(P, stride, continuous), n)
  {
    var g := CrosswiseWith(P, stride, continuous);
    var a, m := n % 4, n / 4;
    var p, q := m % stride, m / stride;
    DivModLaw(m, stride);
    assert continuous / 4 * stride * 4 == stride * continuous;
    DivBelow(m, stride, continuous / 4);
    var j := q * 4 + a;
    assert j / 4 == q && j % 4 == a && 0 <= j < continuous;
    var i := Q(p, q % 8);
    assert n == a + p * 4 + q * stride * 4;
    assert At(g, n, i, j);
  }

  // ----- congruous: A and B differ in how they split the vector column within a tile

  function StepA(c: int): int { c / 2 }
  function LeadA(c: int): int { c % 2 }
  function BackA(step: int, lead: int): int { step * 2 + lead }
  function StepB(c: int): int { c % 4 }
  function LeadB(c: int): int { c / 4 }
  function BackB(step: int, lead: int): int { step + lead * 4 }

  function ElementStrided(S: int -> int, i: int, c: int): int { S(c) + i / 4 * 4 }
  function ElementContiguous(X: (int, int) -> int, S: int -> int, L: int -> int, i: int, j: int): int {
    j % 8 + (L(j / 8 % 8) * 4 + X(i % 4, S(j / 8 % 8)) + j / 8 / 8 * 8) * 8
  }
  function CongruousWith(X: (int, int) -> int, S: int -> int, L: int -> int, stride: int, continuous: int): Layout {
    Layout(stride, continuous, (i: int, j: int) =>
      [ElementStrided(S, i, j / 8 % 8) * continuous + ElementContiguous(X, S, L, i, j)])
  }
  function ACongruous(stride: int, continuous: int): Result<Layout> {
    if stride % 4 == 0 && continuous % 64 == 0 then
      Ok(CongruousWith(Xor4x4, StepA, LeadA, stride, continuous))
    else
      CheckFailed
  }
  function BCongruous(stride: int, continuous: int): Result<Layout> {
    if stride % 4 == 0 && continuous % 64 == 0 then
      Ok(CongruousWith(Xor4x4, StepB, LeadB, stride, continuous))
    else
      CheckFailed
  }
  ghost predicate SplitsEight(S: int -> int, L: int -> int, B: (int, int) -> int) {
    && (forall c :: 0 <= c < 8 ==> 0 <= S(c) < 4 && 0 <= L(c) < 2 && B(S(c), L(c)) == c)
    && (forall s, l :: 0 <= s < 4 && 0 <= l < 2 ==> 0 <= B(s, l) < 8 && S(B(s, l)) == s && L(B(s, l)) == l)
  }
  lemma ASplits()
    ensures SplitsEight(StepA, LeadA, BackA)
  {
    forall s, l | 0 <= s < 4 && 0 <= l < 2
      ensures StepA(BackA(s, l)) == s && LeadA(BackA(s, l)) == l
    {
      DivModUnique(s * 2 + l, 2, s, l);
    }
  }
  lemma BSplits()
    ensures SplitsEight(StepB, LeadB, BackB)
  {
    forall s, l | 0 <= s < 4 && 0 <= l < 2
      ensures StepB(BackB(s, l)) == s && LeadB(BackB(s, l)) == l
    {
      DivModUnique(s + l * 4, 4, l, s);
    }
  }

  /** Strided part s + 4 t, contiguous part a + 8 (4 l + x + 8 u): read back. */
  lemma CongruousParts(s: int, t: int, a: int, l: int, x: int, u: int, stride: int, continuous: int)
    requires 0 <= s < 4 && 0 <= a < 8 && 0 <= l < 2 && 0 <= x < 4
    ensures var e := a + (l * 4 + x + u * 8) * 8;
            e % 8 == a && e / 8 % 8 / 4 == l && e / 8 % 4 == x && e / 8 / 8 == u
    ensures stride % 4 == 0 && 0 <= t < stride / 4 ==> 0 <= s + t * 4 < stride
    ensures continuous % 64 == 0 && 0 <= u < continuous / 64 ==> 0 <= a + (l * 4 + x + u * 8) * 8 < continuous
    ensures (s + t * 4) % 4 == s && (s + t * 4) / 4 == t
  {
    var m := l * 4 + x + u * 8;
    DivModUnique(a + m * 8, 8, m, a);
    DivModUnique(m, 8, u, l * 4 + x);
    DivModUnique(m, 4, 2 * u + l, x);
  }
  lemma RowMajor(e: int, f: int, k: int, g: int, continuous: int)
    requires 0 <= f < continuous && 0 <= g < continuous && e * continuous + f == k * continuous + g
    ensures e == k && f == g
  {
    DivModUnique(e * continuous + f, continuous, e, f);
    DivModUnique(k * continuous + g, continuous, k, g);
  }
  lemma CongruousRange(X: (int, int) -> int, S: int -> int, L: int -> int, B: (int, int) -> int, stride: int,
                       continuous: int, i: int, j: int)
    requires IsXor(X, 4) && SplitsEight(S, L, B) && stride % 4 == 0 && continuous % 64 == 0 && 0 <= i < stride
    requires 0 <= j < continuous
    ensures 0 <= ElementStrided(S, i, j / 8 % 8) < stride && 0 <= ElementContiguous(X, S, L, i, j) < continuous
    ensures ElementStrided(S, i, j / 8 % 8) % 4 == S(j / 8 % 8) && ElementStrided(S, i, j / 8 % 8) / 4 == i / 4
    ensures var e := ElementContiguous(X, S, L, i, j);
            e % 8 == j % 8 && e / 8 % 8 / 4 == L(j / 8 % 8) && e / 8 % 4 == X(i % 4, S(j / 8 % 8)) &&
              e / 8 / 8 == j / 8 / 8
  {
    var c := j / 8 % 8;
    CongruousParts(S(c), i / 4, j % 8, L(c), X(i % 4, S(c)), j / 8 / 8, stride, continuous);
  }
  lemma CongruousInjective(X: (int, int) -> int, S: int -> int, L: int -> int, B: (int, int) -> int, stride: int,
                           continuous: int)
    requires IsXor(X, 4) && SplitsEight(S, L, B) && stride % 4 == 0 && continuous % 64 == 0
    ensures var g := CongruousWith(X, S, L, stride, continuous);
            && Injective(g)
            && forall i, j :: InTile(g, i, j) ==>
                 |g.forward(i, j)| == 1 && 0 <= g.forward(i, j)[0] < stride * continuous
  {
    var g := CongruousWith(X, S, L, stride, continuous);
    forall i, j | InTile(g, i, j) ensures |g.forward(i, j)| == 1 && 0 <= g.forward(i, j)[0] < stride * continuous {
      CongruousRange(X, S, L, B, stride, continuous, i, j);
      TableAt(ElementStrided(S, i, j / 8 % 8), ElementContiguous(X, S, L, i, j), stride, continuous);
    }
    forall i, j, k, l | InTile(g, i, j) && InTile(g, k, l) && g.forward(i, j) == g.forward(k, l)
      ensures i == k && j == l
    {
      assert g.forward(i, j)[0] == g.forward(k, l)[0];
      CongruousTells(X, S, L, B, stride, continuous, i, j, k, l);
    }
  }
  lemma CongruousTells(X: (int, int) -> int, S: int -> int, L: int -> int, B: (int, int) -> int, stride: int,
                       continuous: int, i: int, j: int, k: int, l: int)
    requires IsXor(X, 4) && SplitsEight(S, L, B) && stride % 4 == 0 && continuous % 64 == 0
    requires 0 <= i < stride && 0 <= j < continuous && 0 <= k < stride && 0 <= l < continuous
    requires ElementStrided(S, i, j / 8 % 8) * continuous + ElementContiguous(X, S, L, i, j)
          == ElementStrided(S, k, l / 8 % 8) * continuous + ElementContiguous(X, S, L, k, l)
    ensures i == k && j == l
  {
    CongruousRange(X, S, L, B, stride, continuous, i, j);
    CongruousRange(X, S, L, B, stride, continuous, k, l);
    RowMajor(ElementStrided(S, i, j / 8 % 8), ElementContiguous(X, S, L, i, j), ElementStrided(S, k, l / 8 % 8),
             ElementContiguous(X, S, L, k, l), continuous);
    var c, d := j / 8 % 8, l / 8 % 8;
    assert B(S(c), L(c)) == c && B(S(d), L(d)) == d;
    assert X(X(i % 4, S(c)), S(c)) == i % 4 && X(X(k % 4, S(d)), S(d)) == k % 4;
  }
  lemma CongruousHit(X: (int, int) -> int, S: int -> int, L: int -> int, stride: int, continuous: int, es: int,
                     e: int, i: int, j: int)
    requires 0 <= i < stride && 0 <= j < continuous
    requires ElementStrided(S, i, j / 8 % 8) == es && ElementContiguous(X, S, L, i, j) == e
    ensures Fills(CongruousWith(X, S, L, stride, continuous), es * continuous + e)
  {
    assert At(CongruousWith(X, S, L, stride, continuous), es * continuous + e, i, j);
  }
  lemma CongruousOnto(X: (int, int) -> int, S: int -> int, L: int -> int, B: (int, int) -> int, stride: int,
                      continuous: int, n: int)
    requires IsXor(X, 4) && SplitsEight(S, L, B) && stride % 4 == 0 && continuous % 64 == 0 && continuous > 0
    requires 0 <= n < stride * continuous
    ensures Fills(CongruousWith(X, S, L, stride, continuous), n)
  {
    var es, e := n / continuous, n % continuous;
    DivModLaw(n, continuous);
    DivBelow(n, continuous, stride);
    var s, t := es % 4, es / 4;
    var a, l, x, u := e % 8, e / 8 % 8 / 4, e / 8 % 4, e / 8 / 8;
    CongruousBack(X, S, L, B, s, t, a, l, x, u, stride, continuous, es, e);
    CongruousHit(X, S, L, stride, continuous, es, e, t * 4 + X(x, s), (u * 8 + B(s, l)) * 8 + a);
  }
  lemma CongruousBack(X: (int, int) -> int, S: int -> int, L: int -> int, B: (int, int) -> int, s: int, t: int,
                      a: int, l: int, x: int, u: int, stride: int, continuous: int, es: int, e: int)
    requires IsXor(X, 4) && SplitsEight(S, L, B) && stride % 4 == 0 && continuous % 64 == 0
    requires 0 <= es < stride && s == es % 4 && t == es / 4
    requires 0 <= e < continuous && a == e % 8 && l == e / 8 % 8 / 4 && x == e / 8 % 4 && u == e / 8 / 8
    ensures var i, j := t * 4 + X(x, s), (u * 8 + B(s, l)) * 8 + a;
            0 <= i < stride && 0 <= j < continuous && ElementStrided(S, i, j / 8 % 8) == es &&
              ElementContiguous(X, S, L, i, j) == e
  {
    var c := B(s, l);
    var y := X(x, s);
    BackDigits(t, y, u, c, a, stride, continuous);
    assert X(y, s) == x && S(c) == s && L(c) == l;
    EightDigits(e);
  }
  lemma BackDigits(t: int, y: int, u: int, c: int, a: int, stride: int, continuous: int)
    requires 0 <= y < 4 && 0 <= c < 8 && 0 <= a < 8
    ensures var i, j := t * 4 + y, (u * 8 + c) * 8 + a;
            && i / 4 == t && i % 4 == y && j % 8 == a && j / 8 % 8 == c && j / 8 / 8 == u
            && (stride % 4 == 0 && 0 <= t * 4 < stride ==> 0 <= i < stride)
            && (continuous % 64 == 0 && 0 <= u * 64 < continuous ==> 0 <= j < continuous)
  {
    DivModUnique(t * 4 + y, 4, t, y);
    DivModUnique((u * 8 + c) * 8 + a, 8, u * 8 + c, a);
    DivModUnique(u * 8 + c, 8, u, c);
    StaysBelow(t, 4, y, stride);
    StaysBelow(u, 64, c * 8 + a, continuous);
  }
  lemma StaysBelow(q: int, d: int, r: int, n: int)
    requires 0 <= r < d
    ensures n % d == 0 && 0 <= q * d < n ==> 0 <= q * d + r < n
  {
    if n % d == 0 && 0 <= q * d < n {
      DivModLaw(n, d);
      if q < n / d { MulMono(q + 1, n / d, d); } else { MulMono(n / d, q, d); }
    }
  }
  lemma EightDigits(e: int)
    ensures e == e % 8 + (e / 8 % 8 / 4 * 4 + e / 8 % 4 + e / 8 / 8 * 8) * 8
  {
    var m := e / 8;
    assert m % 8 % 4 == m % 4;
  }

  // ----- the dispatch

  function VoltaABLayout(stride: int, continuous: int, isA: bool, kfactor: int): Result<Layout> {
    if kfactor == 2 then Crosswise(stride, continuous)
    else if isA && continuous % 64 == 0 then ACongruous(stride, continuous)
    else if !isA && continuous % 64 == 0 then BCongruous(stride, continuous)
    else Ok(Padded(stride, continuous, 16))
  }

  lemma CrosswisePermutes(stride: int, continuous: int)
    requires stride > 0 && continuous > 0 && Crosswise(stride, continuous).Ok?
    ensures Permutes(Crosswise(stride, continuous).value, stride * continuous)
  {
    PermutedIsInverse(stride);
    MultipleOf4(continuous);
    CrosswiseAll(Permuted, Unpermuted, stride, continuous);
  }
  lemma MultipleOf4(n: int)
    requires n % 32 == 0
    ensures n % 4 == 0
  {
    DivModUnique(n, 4, 8 * (n / 32), 0);
  }
  lemma CrosswiseAll(P: (int, int) -> int, Q: (int, int) -> int, stride: int, continuous: int)
    requires Inverses(P, Q, stride) && stride > 0 && continuous % 4 == 0
    ensures Permutes(CrosswiseWith(P, stride, continuous), stride * continuous)
  {
    CrosswiseInjective(P, Q, stride, continuous);
    forall n | 0 <= n < stride * continuous ensures Fills(CrosswiseWith(P, stride, continuous), n) {
      CrosswiseOnto(P, Q, stride, continuous, n);
    }
  }
  lemma CongruousAll(X: (int, int) -> int, S: int -> int, L: int -> int, B: (int, int) -> int, stride: int,
                     continuous: int)
    requires IsXor(X, 4) && SplitsEight(S, L, B) && stride % 4 == 0 && continuous % 64 == 0 && continuous > 0
    ensures Permutes(CongruousWith(X, S, L, stride, continuous), stride * continuous)
  {
    CongruousInjective(X, S, L, B, stride, continuous);
    forall n | 0 <= n < stride * continuous ensures Fills(CongruousWith(X, S, L, stride, continuous), n) {
      CongruousOnto(X, S, L, B, stride, continuous, n);
    }
  }
  lemma CongruousPermutes(stride: int, continuous: int)
    requires stride > 0 && continuous > 0 && stride % 4 == 0 && continuous % 64 == 0
    ensures ACongruous(stride, continuous).Ok? && Permutes(ACongruous(stride, continuous).value, stride * continuous)
    ensures BCongruous(stride, continuous).Ok? && Permutes(BCongruous(stride, continuous).value, stride * continuous)
  {
    Xor4Law();
    ASplits();
    BSplits();
    CongruousAll(Xor4x4, StepA, LeadA, BackA, stride, continuous);
    CongruousAll(Xor4x4, StepB, LeadB, BackB, stride, continuous);
  }

  /** Whatever branch is taken, no two elements share an address, and unless it is the padded one the addresses are
      exactly those of the tile. */
  lemma VoltaABLayoutPermutes(stride: int, continuous: int, isA: bool, kfactor: int)
    requires stride > 0 && continuous > 0
    ensures var r := VoltaABLayout(stride, continuous, isA, kfactor);
            && (r.Ok? ==> r.value.rows == stride && r.value.cols == continuous && Injective(r.value))
            && (r.Ok? && (kfactor == 2 || continuous % 64 == 0) ==> Permutes(r.value, stride * continuous))
            && (r.CheckFailed? <==>
                  if kfactor == 2 then stride % 32 != 0 || continuous % 32 != 0
                  else continuous % 64 == 0 && stride % 4 != 0)
  {
    PaddedInjective(stride, continuous, 16);
    if kfactor == 2 {
      if Crosswise(stride, continuous).Ok? { CrosswisePermutes(stride, continuous); }
    } else if continuous % 64 == 0 && stride % 4 == 0 {
      CongruousPermutes(stride, continuous);
    }
  }
}
