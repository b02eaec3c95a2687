/** Bitwise swizzle patterns on offsets. */
module Swizzle {
  import opened Arith
  import opened Results

  // ----- bit operations on naturals, bit by bit

  function Xor(a: nat, b: nat): nat
    decreases a + b
  {
    if a == 0 && b == 0 then 0 else (a % 2 + b % 2) % 2 + 2 * Xor(a / 2, b / 2)
  }
  function And(a: nat, b: nat): nat {
    if a == 0 || b == 0 then 0 else (if a % 2 == 1 && b % 2 == 1 then 1 else 0) + 2 * And(a / 2, b / 2)
  }
  function Shr(a: nat, k: nat): nat { if k == 0 then a else Shr(a / 2, k - 1) }
  function Shl(a: nat, k: nat): nat { if k == 0 then a else 2 * Shl(a, k - 1) }
  function Pow2(n: nat): (r: nat)
    ensures r >= 1
  {
    if n == 0 then 1 else 2 * Pow2(n - 1)
  }

  lemma XorBits(a: nat, b: nat)
    ensures Xor(a, b) % 2 == (a % 2 + b % 2) % 2 && Xor(a, b) / 2 == Xor(a / 2, b / 2)
  {
  }
  lemma {:induction false} XorZero(a: nat)
    ensures Xor(a, 0) == a
  {
    if a > 0 { XorZero(a / 2); }
  }
  lemma BitTwice(x: nat, y: nat, z: nat)
    requires x % 2 == (y % 2 + z % 2) % 2
    ensures (x % 2 + z % 2) % 2 == y % 2
  {
  }
  lemma {:induction false} XorTwice(a: nat, b: nat)
    ensures Xor(Xor(a, b), b) == a
    decreases a + b
  {
    if a > 0 || b > 0 {
      var x := Xor(a, b);
      XorBits(a, b);
      XorTwice(a / 2, b / 2);
      BitTwice(x, a, b);
      XorBits(x, b);
    }
  }
  lemma {:induction false} ShrXor(a: nat, b: nat, k: nat)
    ensures Shr(Xor(a, b), k) == Xor(Shr(a, k), Shr(b, k))
    decreases k
  {
    if k > 0 {
      XorBits(a, b);
      ShrXor(a / 2, b / 2, k - 1);
    }
  }
  lemma {:induction false} ShrSmall(a: nat, k: nat)
    requires a < Pow2(k)
    ensures Shr(a, k) == 0
    decreases k
  {
    if k > 0 { ShrSmall(a / 2, k - 1); }
  }
  lemma {:induction false} AndSmall(a: nat, b: nat, k: nat)
    requires b < Pow2(k)
    ensures And(a, b) < Pow2(k)
    decreases k
  {
    if k > 0 && a > 0 && b > 0 { AndSmall(a / 2, b / 2, k - 1); }
  }
  lemma AndEven(h: nat, m: nat)
    ensures And(h, 2 * m) == 2 * And(h / 2, m)
  {
    assert 2 * m % 2 == 0 && 2 * m / 2 == m;
    if h == 1 { assert And(0, m) == 0; }
  }
  /** Masking bits and moving them down is moving down and masking. */
  lemma {:induction false} ShrMask(h: nat, m: nat, k: nat)
    ensures Shr(And(h, Shl(m, k)), k) == And(Shr(h, k), m)
    decreases k
  {
    if k > 0 {
      AndEven(h, Shl(m, k - 1));
      ShrMask(h / 2, m, k - 1);
    }
  }
  lemma {:induction false} Pow2Mono(a: nat, b: nat)
    requires a <= b
    ensures Pow2(a) <= Pow2(b)
    decreases b
  {
    if a < b { Pow2Mono(a, b - 1); }
  }
  lemma {:induction false} ShrIsDiv(a: nat, k: nat)
    ensures Shr(a, k) == a / Pow2(k)
    decreases k
  {
    if k > 0 {
      ShrIsDiv(a / 2, k - 1);
      DivDiv(a, Pow2(k - 1));
    }
  }
  lemma DivDiv(a: nat, d: nat)
    requires d >= 1
    ensures a / 2 / d == a / (2 * d)
  {
    DivModLaw(a, 2);
    DivModLaw(a / 2, d);
    DivModUnique(a, 2 * d, a / 2 / d, a % 2 + 2 * (a / 2 % d));
  }

  lemma {:induction false} AndOnes(a: nat, k: nat)
    requires a < Pow2(k)
    ensures And(a, Pow2(k) - 1) == a
    decreases k
  {
    if k > 0 {
      var p := Pow2(k - 1);
      AndOnes(a / 2, k - 1);
      assert (2 * p - 1) / 2 == p - 1 && (2 * p - 1) % 2 == 1;
    }
  }

  lemma ModTwice(a: nat, p: nat)
    requires p >= 1
    ensures a % (2 * p) == a % 2 + 2 * (a / 2 % p)
  {
    var q := a / 2;
    DivModLaw(q, p);
    assert a == q / p * (2 * p) + (a % 2 + 2 * (q % p));
    DivModUnique(a, 2 * p, q / p, a % 2 + 2 * (q % p));
  }
  lemma AndPeel(a: nat, p: nat)
    requires p >= 1
    ensures And(a, 2 * p - 1) == a % 2 + 2 * And(a / 2, p - 1)
  {
    assert (2 * p - 1) / 2 == p - 1 && (2 * p - 1) % 2 == 1;
  }
  /** The low k bits are the remainder. */
  lemma {:induction false} AndMod(a: nat, k: nat)
    ensures And(a, Pow2(k) - 1) == a % Pow2(k)
    decreases k
  {
    if k > 0 {
      var p := Pow2(k - 1);
      AndMod(a / 2, k - 1);
      AndModTwice(a, p);
    }
  }
  lemma AndModTwice(a: nat, p: nat)
    requires p >= 1 && And(a / 2, p - 1) == a / 2 % p
    ensures And(a, 2 * p - 1) == a % (2 * p)
  {
    AndPeel(a, p);
    ModTwice(a, p);
  }

  // ----- SwizzlePattern

  datatype Pattern = Pattern(bits: nat, base: nat, shift: nat)
  function MakePattern(bits: int, base: int, shift: int): Result<Pattern> {
    if bits >= 0 && base >= 0 && shift >= 0 && shift >= bits then Ok(Pattern(bits, base, shift)) else CheckFailed
  }
  /** What swizzle does to the part of the offset above the base bits. */
  function Mix(p: Pattern, high: nat): nat {
    Xor(high, Shr(And(high, Shl(Pow2(p.bits) - 1, p.shift)), p.shift))
  }
  function SwizzleOf(p: Pattern, e: nat): nat {
    var base := Pow2(p.base);
    DivBelow(e, base, 0);
    MulMono(0, Mix(p, e / base), base);
    e % base + Mix(p, e / base) * base
  }

  lemma MixParts(p: Pattern, high: nat)
    requires p.bits <= p.shift
    ensures Mix(p, high) == Xor(high, And(Shr(high, p.shift), Pow2(p.bits) - 1))
    ensures Shr(Mix(p, high), p.shift) == Shr(high, p.shift)
  {
    var m := And(Shr(high, p.shift), Pow2(p.bits) - 1);
    ShrMask(high, Pow2(p.bits) - 1, p.shift);
    AndSmall(Shr(high, p.shift), Pow2(p.bits) - 1, p.bits);
    Pow2Mono(p.bits, p.shift);
    ShrSmall(m, p.shift);
    ShrXor(high, m, p.shift);
    XorZero(Shr(high, p.shift));
  }
  lemma MixTwice(p: Pattern, high: nat)
    requires p.bits <= p.shift
    ensures Mix(p, Mix(p, high)) == high
  {
    MixParts(p, high);
    MixParts(p, Mix(p, high));
    XorTwice(high, And(Shr(high, p.shift), Pow2(p.bits) - 1));
  }
  lemma SwizzleParts(p: Pattern, e: nat)
    ensures SwizzleOf(p, e) % Pow2(p.base) == e % Pow2(p.base)
    ensures SwizzleOf(p, e) / Pow2(p.base) == Mix(p, e / Pow2(p.base))
  {
    DivModLaw(e, Pow2(p.base));
    DivModUnique(SwizzleOf(p, e), Pow2(p.base), Mix(p, e / Pow2(p.base)), e % Pow2(p.base));
  }
  lemma SwizzleBack(p: Pattern, e: nat, f: nat)
    requires p.bits <= p.shift && f == SwizzleOf(p, e)
    ensures SwizzleOf(p, f) == e
  {
    SwizzleParts(p, e);
    MixTwice(p, e / Pow2(p.base));
    DivModLaw(e, Pow2(p.base));
  }
  lemma SameBlock(p: Pattern, high: nat)
    requires p.bits <= p.shift
    ensures Mix(p, high) / Pow2(p.shift) == high / Pow2(p.shift)
  {
    MixParts(p, high);
    ShrIsDiv(high, p.shift);
    ShrIsDiv(Mix(p, high), p.shift);
  }
  /** Every pattern the constructor accepts is its own inverse on all offsets, and keeps each offset in its block of
      2^(base + shift). */
  lemma SwizzleInvolution(p: Pattern, e: nat)
    requires p.bits <= p.shift
    ensures SwizzleOf(p, SwizzleOf(p, e)) == e
    ensures SwizzleOf(p, e) / Pow2(p.base) / Pow2(p.shift) == e / Pow2(p.base) / Pow2(p.shift)
  {
    SwizzleBack(p, e, SwizzleOf(p, e));
    SwizzleParts(p, e);
    DivBelow(e, Pow2(p.base), 0);
    SameBlock(p, e / Pow2(p.base));
  }
  // ----- shift >= bits is needed

  lemma AndBit(a: nat, b: nat)
    ensures And(a, b) % 2 == (if a % 2 == 1 && b % 2 == 1 then 1 else 0)
  {
  }
  lemma {:induction false} ShrPower(k: nat, n: nat)
    requires k <= n
    ensures Shr(Pow2(n), k) == Pow2(n - k)
    decreases k
  {
    if k > 0 {
      assert Pow2(n) / 2 == Pow2(n - 1);
      ShrPower(k - 1, n - 1);
    }
  }
  lemma {:induction false} PowerBelow(a: nat, b: nat)
    requires a < b
    ensures Pow2(a) < Pow2(b)
    decreases b
  {
    if a < b - 1 { PowerBelow(a, b - 1); }
  }
  lemma OnesOdd(bits: nat)
    requires bits >= 1
    ensures (Pow2(bits) - 1) % 2 == 1
  {
    DivModUnique(Pow2(bits) - 1, 2, Pow2(bits - 1) - 1, 1);
  }
  lemma MixMasked(p: Pattern, high: nat)
    ensures Mix(p, high) == Xor(high, And(Shr(high, p.shift), Pow2(p.bits) - 1))
  {
    var ones: nat := Pow2(p.bits) - 1;
    ShrMask(high, ones, p.shift);
    assert Mix(p, high) == Xor(high, Shr(And(high, Shl(ones, p.shift)), p.shift));
  }
  /** Without a shift the lowest bit is cleared: 1 and 0 both go to 0. */
  lemma NoShiftFails(p: Pattern)
    requires p.shift == 0 < p.bits
    ensures Mix(p, Mix(p, 1)) != 1
  {
    var ones := Pow2(p.bits) - 1;
    OnesOdd(p.bits);
    MixMasked(p, 1);
    assert And(1, ones) == 1 by { assert And(0, ones / 2) == 0; }
    assert Xor(1, 1) == 0 by { assert Xor(0, 0) == 0; }
    MixMasked(p, 0);
    assert Mix(p, 0) == 0;
  }
  /** With a shift below bits, bit 2 shift is mixed into bit shift, which the second time is mixed into bit 0. */
  lemma LongMaskFails(p: Pattern)
    requires 1 <= p.shift < p.bits
    ensures Mix(p, Mix(p, Pow2(2 * p.shift))) != Pow2(2 * p.shift)
  {
    var s, ones, h := p.shift, Pow2(p.bits) - 1, Pow2(2 * p.shift);
    ShrPower(s, 2 * s);
    PowerBelow(s, p.bits);
    AndOnes(Pow2(s), p.bits);
    MixMasked(p, h);
    var f := Mix(p, h);
    assert f == Xor(h, Pow2(s));
    ShrXor(h, Pow2(s), s);
    ShrPower(s, s);
    EvenPower(s);
    EvenPower(2 * s);
    XorBits(Pow2(s), 1);
    assert Shr(f, s) % 2 == 1;
    OnesOdd(p.bits);
    AndBit(Shr(f, s), ones);
    MixMasked(p, f);
    XorBits(h, Pow2(s));
    XorBits(f, And(Shr(f, s), ones));
  }
  lemma TwiceIsEven(m: int)
    ensures 2 * m % 2 == 0
  {
  }
  lemma EvenPower(n: nat)
    requires n >= 1
    ensures Pow2(n) % 2 == 0
  {
    TwiceIsEven(Pow2(n - 1));
  }
  lemma SwizzleHigh(p: Pattern, high: nat)
    ensures high * Pow2(p.base) >= 0 && SwizzleOf(p, high * Pow2(p.base)) == Mix(p, high) * Pow2(p.base)
  {
    MulMono(0, high, Pow2(p.base));
    DivModUnique(high * Pow2(p.base), Pow2(p.base), high, 0);
  }
  lemma MulSame(a: nat, b: nat, d: nat)
    requires d >= 1 && a * d == b * d
    ensures a == b
  {
    MulFar(a - b, d);
    assert (a - b) * d == 0;
  }
  /** Where mixing twice does not bring back high, swizzling twice does not bring back its offset. */
  lemma FailsAt(p: Pattern, high: nat)
    requires Mix(p, Mix(p, high)) != high
    ensures high * Pow2(p.base) >= 0 && SwizzleOf(p, SwizzleOf(p, high * Pow2(p.base))) != high * Pow2(p.base)
  {
    SwizzleHigh(p, high);
    SwizzleHigh(p, Mix(p, high));
    if SwizzleOf(p, SwizzleOf(p, high * Pow2(p.base))) == high * Pow2(p.base) {
      MulSame(Mix(p, Mix(p, high)), high, Pow2(p.base));
    }
  }
  ghost predicate Involution(p: Pattern) { forall e: nat :: SwizzleOf(p, SwizzleOf(p, e)) == e }
  /** The constructor accepts exactly the patterns that are their own inverse: for every other one, offset
      2^(base + 2 shift), or 2^base when shift is 0, does not come back. */
  lemma InvolutionIffAccepted(p: Pattern)
    ensures Involution(p) <==> p.bits <= p.shift
    ensures MakePattern(p.bits, p.base, p.shift).Ok? <==> p.bits <= p.shift
  {
    if p.bits <= p.shift {
      forall e: nat ensures SwizzleOf(p, SwizzleOf(p, e)) == e { SwizzleInvolution(p, e); }
    } else if p.shift == 0 {
      NoShiftFails(p);
      FailsAt(p, 1);
    } else {
      LongMaskFails(p);
      FailsAt(p, Pow2(2 * p.shift));
    }
  }
}
