/** Digits of an iterator: finding the unused ones, and the numbers a set of digits can spell. */
module IterSplits {
  import opened Arith
  import opened Results

  /** A split of an iterator: of value v it reads (v / lower) % extent. */
  datatype Split = Split(lower: int, extent: int)
  predicate Proper(s: Split) { s.lower >= 1 && s.extent >= 1 }
  predicate AllProper(splits: seq<Split>) { forall k :: 0 <= k < |splits| ==> Proper(splits[k]) }
  function Read(s: Split, v: int): int
    requires Proper(s)
  {
    v / s.lower % s.extent
  }
  /** One past the digit: the lower factor of the next one. */
  function Above(s: Split): int { s.lower * s.extent }

  /** d divides a. */
  predicate Dv(d: int, a: int) { d >= 1 && a % d == 0 }

  lemma DvTimes(d: int, a: int)
    ensures d >= 1 ==> Dv(d, d * a) && Dv(d, a * d)
  {
    if d >= 1 { DivModUnique(d * a, d, a, 0); }
  }
  lemma DvFactor(d: int, a: int) returns (q: int)
    requires Dv(d, a)
    ensures a == d * q && q == a / d && (a >= 1 ==> q >= 1)
  {
    q := a / d;
    DivModLaw(a, d);
    if a >= 1 && q < 1 { MulMono(q, 0, d); }
  }
  lemma DvTrans(a: int, b: int, c: int)
    requires Dv(a, b) && Dv(b, c)
    ensures Dv(a, c)
  {
    var p := DvFactor(a, b);
    var q := DvFactor(b, c);
    assert c == (p * q) * a;
    DvTimes(a, p * q);
  }
  lemma DvLess(d: int, a: int)
    requires Dv(d, a) && a >= 1
    ensures d <= a
  {
    var q := DvFactor(d, a);
    MulFar(q, d);
  }
  lemma AboveLaw(s: Split)
    requires Proper(s)
    ensures Above(s) >= s.lower && Dv(s.lower, Above(s)) && (s.extent >= 2 ==> Above(s) > s.lower)
  {
    MulFar(s.extent, s.lower);
    DvTimes(s.lower, s.extent);
    if s.extent >= 2 { MulFar(s.extent - 1, s.lower); }
  }

  // ----- chains

  function Top(c: seq<Split>): int { if c == [] then 1 else Top(c[..|c| - 1]) * c[|c| - 1].extent }
  /** Every digit starts where the one before it ends: a mixed-radix system. */
  predicate Chain(c: seq<Split>) { forall k :: 0 <= k < |c| ==> c[k].lower == Top(c[..k]) }

  lemma ChainSnoc(c: seq<Split>, s: Split)
    requires Chain(c) && s.lower == Top(c)
    ensures Chain(c + [s]) && Top(c + [s]) == Above(s)
  {
    assert (c + [s])[..|c|] == c;
    forall k | 0 <= k < |c + [s]| ensures (c + [s])[k].lower == Top((c + [s])[..k]) {
      if k < |c| { assert (c + [s])[..k] == c[..k]; }
    }
  }
  /** The top is a multiple of where each digit ends. */
  lemma {:induction false} ChainDivides(c: seq<Split>, k: int)
    requires Chain(c) && AllProper(c) && 0 <= k < |c|
    ensures Dv(Above(c[k]), Top(c)) && Top(c) >= 1
    decreases |c|
  {
    var b := c[..|c| - 1];
    assert forall i :: 0 <= i < |b| ==> b[..i] == c[..i];
    AboveLaw(c[|c| - 1]);
    if k == |c| - 1 {
      DvTimes(Top(c), 1);
    } else {
      ChainDivides(b, k);
      DvTimes(Top(b), c[|c| - 1].extent);
      DvTrans(Above(c[k]), Top(b), Top(c));
    }
  }

  lemma ChainPrefix(c: seq<Split>, n: int)
    requires Chain(c) && 0 <= n <= |c|
    ensures Chain(c[..n])
  {
    var b := c[..n];
    forall k | 0 <= k < n ensures b[k].lower == Top(b[..k]) { assert b[..k] == c[..k]; }
  }
  /** The digits of a chain tell the value below its top. */
  lemma {:induction false} DigitsTell(c: seq<Split>, v: int, w: int)
    requires Chain(c) && AllProper(c) && 0 <= v < Top(c) && 0 <= w < Top(c)
    requires SameDigits(c, v, w)
    ensures v == w
    decreases |c|
  {
    if c != [] {
      var n := |c| - 1;
      var b, s := c[..n], c[n];
      ChainPrefix(c, n);
      assert AllProper(b) && Proper(s) && s.lower == Top(b) && Top(c) == Above(s);
      LastDigit(s, v, w);
      LowerDigits(b, v, w);
      DigitsTell(b, v % s.lower, w % s.lower);
    }
  }
  predicate SameDigits(c: seq<Split>, v: int, w: int)
    requires AllProper(c)
  {
    forall k :: 0 <= k < |c| ==> Read(c[k], v) == Read(c[k], w)
  }
  lemma LastDigit(s: Split, v: int, w: int)
    requires Proper(s) && 0 <= v < Above(s) && 0 <= w < Above(s) && Read(s, v) == Read(s, w)
    ensures 0 <= v % s.lower < s.lower && 0 <= w % s.lower < s.lower
    ensures v % s.lower == w % s.lower ==> v == w
  {
    ReadTop(s, v);
    ReadTop(s, w);
    DivModLaw(v, s.lower);
    DivModLaw(w, s.lower);
  }
  lemma ReadTop(s: Split, v: int)
    requires Proper(s) && 0 <= v < Above(s)
    ensures Read(s, v) == v / s.lower
  {
    assert s.extent * s.lower == Above(s);
    DivBelow(v, s.lower, s.extent);
    DivModUnique(v / s.lower, s.extent, 0, v / s.lower);
  }
  lemma LowerDigits(b: seq<Split>, v: int, w: int)
    requires Chain(b) && AllProper(b) && Top(b) >= 1 && SameDigits(b, v, w)
    ensures SameDigits(b, v % Top(b), w % Top(b))
  {
    forall k | 0 <= k < |b| ensures Read(b[k], v % Top(b)) == Read(b[k], w % Top(b)) {
      ChainDivides(b, k);
      ReadMod(b[k], v, Top(b));
      ReadMod(b[k], w, Top(b));
    }
  }
  /** Reading a lower digit ignores everything above. */
  lemma ReadMod(s: Split, v: int, at: int)
    requires Proper(s) && Dv(Above(s), at) && at >= 1
    ensures Read(s, v % at) == Read(s, v)
  {
    DivModLaw(v, at);
    ReadIgnores(s, v % at, v / at, at);
  }
  lemma ReadIgnores(s: Split, low: int, high: int, at: int)
    requires Proper(s) && Dv(Above(s), at)
    ensures Read(s, low + high * at) == Read(s, low)
  {
    var q := DvFactor(Above(s), at);
    var more := s.extent * q * high;
    Regroup(s.lower, s.extent, q, high, low);
    DivModLaw(low, s.lower);
    DivModUnique(low + high * at, s.lower, low / s.lower + more, low % s.lower);
    DivModLaw(low / s.lower, s.extent);
    ModShift(low / s.lower, s.extent, q * high);
  }
  lemma Regroup(l: int, e: int, q: int, h: int, low: int)
    ensures h * (l * e * q) == (e * q * h) * l && e * q * h == (q * h) * e
  {
    assert l * e * q * h == (e * q * h) * l;
  }
  lemma ModShift(a: int, e: int, k: int)
    requires e >= 1
    ensures (a + k * e) % e == a % e
  {
    DivModLaw(a, e);
    DivModUnique(a + k * e, e, a / e + k, a % e);
  }

  // ----- digits that do not overlap

  predicate ApartPair(s: Split, t: Split) { Dv(Above(s), t.lower) || Dv(Above(t), s.lower) }
  predicate Apart(splits: seq<Split>) { forall j, k :: 0 <= j < k < |splits| ==> ApartPair(splits[j], splits[k]) }
  /** Of the digits that start at the same factor, those listed earlier have one value only. */
  predicate InOrder(splits: seq<Split>) {
    forall j, k :: 0 <= j < k < |splits| && splits[j].lower == splits[k].lower ==> splits[j].extent == 1
  }
  predicate Divided(splits: seq<Split>, extent: int) { forall k :: 0 <= k < |splits| ==> Dv(Above(splits[k]), extent) }

  /** No digit ends above the extent. */
  predicate Fits(splits: seq<Split>, extent: int) { forall k :: 0 <= k < |splits| ==> Above(splits[k]) <= extent }

  /** The used and unused splits together, each once. */
  ghost predicate Arranged(chain: seq<Split>, splits: seq<Split>, unused: seq<Split>) {
    && |chain| == |splits| + |unused|
    && (forall s :: s in chain <==> s in splits || s in unused)
  }
  ghost predicate CompletedBy(splits: seq<Split>, unused: seq<Split>, extent: int, chain: seq<Split>) {
    && Chain(chain) && Arranged(chain, splits, unused) && Top(chain) <= extent
    && (Top(chain) == extent <==> Divided(splits, extent))
  }
  /** Together they form a mixed-radix system; it spans the iterator exactly when every used digit ends at a divisor of
      the extent. */
  ghost predicate Completes(splits: seq<Split>, unused: seq<Split>, extent: int) {
    exists chain :: CompletedBy(splits, unused, extent, chain)
  }

  // ----- get_unused_iters

  /** State of the outer loop: `chain` lists what has been placed so far. */
  ghost predicate Placed(splits: seq<Split>, used: seq<bool>, results: seq<Split>, chain: seq<Split>, i: int) {
    && |used| == |splits| && |chain| == i + |results|
    && (forall k :: 0 <= k < |splits| && used[k] ==> splits[k] in chain)
    && (forall s :: s in results ==> s in chain)
    && (forall s :: s in chain ==> s in results || s in splits)
  }
  predicate UsedApart(splits: seq<Split>, used: seq<bool>) {
    |used| == |splits| && forall j, k :: 0 <= j < k < |splits| && used[j] && used[k] ==> ApartPair(splits[j], splits[k])
  }
  predicate UsedBelow(splits: seq<Split>, used: seq<bool>, expected: int) {
    |used| == |splits| && forall k :: 0 <= k < |splits| && used[k] ==> Dv(Above(splits[k]), expected)
  }
  predicate UsedInOrder(splits: seq<Split>, used: seq<bool>) {
    && |used| == |splits|
    && (forall j, k :: 0 <= j < k < |splits| && used[j] && used[k] && splits[j].lower == splits[k].lower ==>
        splits[j].extent == 1)
    && (forall j, k :: 0 <= j < k < |splits| && used[k] && splits[j].lower == splits[k].lower ==> used[j])
  }
  /** When no two digits overlap, all that is left starts at a multiple of the expected factor. */
  predicate Ahead(splits: seq<Split>, used: seq<bool>, expected: int) {
    |used| == |splits| && forall k :: 0 <= k < |splits| && !used[k] ==> Dv(expected, splits[k].lower)
  }
  ghost predicate Waiting(splits: seq<Split>, used: seq<bool>, expected: int) {
    |used| == |splits| && exists k :: 0 <= k < |splits| && !used[k] && splits[k].lower == expected
  }
  function Count(used: seq<bool>): nat {
    if used == [] then 0 else Count(used[..|used| - 1]) + (if used[|used| - 1] then 1 else 0)
  }
  lemma {:induction false} CountMore(used: seq<bool>, j: int)
    requires 0 <= j < |used| && !used[j]
    ensures Count(used[j := true]) == Count(used) + 1
    decreases |used|
  {
    var n := |used| - 1;
    if j == n { assert used[j := true][..n] == used[..n]; } else {
      CountMore(used[..n], j);
      assert used[j := true][..n] == used[..n][j := true];
    }
  }
  lemma {:induction false} CountBound(used: seq<bool>)
    ensures Count(used) <= |used|
    ensures Count(used) == |used| ==> forall k :: 0 <= k < |used| ==> used[k]
    ensures Count(used) < |used| ==> exists k :: 0 <= k < |used| && !used[k]
    decreases |used|
  {
    if used != [] {
      var b := used[..|used| - 1];
      CountBound(b);
      if Count(b) < |b| {
        var k :| 0 <= k < |b| && !b[k];
        assert !used[k];
      }
    }
  }
  lemma {:induction false} CountNone(n: nat)
    ensures Count(seq(n, _ => false)) == 0
  {
    if n > 0 {
      CountNone(n - 1);
      assert seq(n, _ => false)[..n - 1] == seq(n - 1, _ => false);
    }
  }

  /** Matching digit j keeps everything. */
  lemma MatchStep(splits: seq<Split>, used: seq<bool>, results: seq<Split>, chain: seq<Split>, i: int, j: int)
    requires AllProper(splits) && Placed(splits, used, results, chain, i) && Chain(chain) && 0 <= j < |splits|
    requires !used[j]
    requires splits[j].lower == Top(chain) && UsedApart(splits, used) && UsedBelow(splits, used, Top(chain))
    ensures Placed(splits, used[j := true], results, chain + [splits[j]], i + 1)
    ensures Chain(chain + [splits[j]]) && Top(chain + [splits[j]]) == Above(splits[j]) >= 1
    ensures UsedApart(splits, used[j := true]) && UsedBelow(splits, used[j := true], Above(splits[j]))
  {
    ChainSnoc(chain, splits[j]);
    AboveLaw(splits[j]);
    var after := used[j := true];
    forall k | 0 <= k < |splits| && after[k] ensures Dv(Above(splits[k]), Above(splits[j])) {
      if k == j { DvTimes(Above(splits[j]), 1); } else { DvTrans(Above(splits[k]), Top(chain), Above(splits[j])); }
    }
  }
  /** No unused digit before j starts at the factor that j does. */
  predicate FirstAt(splits: seq<Split>, used: seq<bool>, j: int) {
    && |used| == |splits| && 0 <= j < |splits| && !used[j]
    && forall k :: 0 <= k < j && !used[k] ==> splits[k].lower != splits[j].lower
  }
  lemma MatchAhead(splits: seq<Split>, used: seq<bool>, j: int)
    requires AllProper(splits) && InOrder(splits) && Apart(splits) && FirstAt(splits, used, j)
    requires Ahead(splits, used, splits[j].lower)
    ensures Ahead(splits, used[j := true], Above(splits[j]))
  {
    forall k | 0 <= k < |splits| && !used[j := true][k]
      ensures Dv(Above(splits[j]), splits[k].lower)
    {
      if j < k { assert ApartPair(splits[j], splits[k]); } else { assert ApartPair(splits[k], splits[j]); }
      if Dv(Above(splits[k]), splits[j].lower) {
        NotBefore(splits[k], splits[j]);
        DvTimes(splits[j].lower, 1);
      }
    }
  }
  /** A digit that starts at a multiple of where t starts and yet ends at a divisor of it adds nothing. */
  lemma NotBefore(s: Split, t: Split)
    requires Proper(s) && Proper(t) && Dv(t.lower, s.lower) && Dv(Above(s), t.lower)
    ensures s.extent == 1 && s.lower == t.lower
  {
    AboveLaw(s);
    DvLess(t.lower, s.lower);
    DvLess(Above(s), t.lower);
  }
  lemma MatchInOrder(splits: seq<Split>, used: seq<bool>, j: int)
    requires AllProper(splits) && FirstAt(splits, used, j) && UsedInOrder(splits, used)
    requires UsedBelow(splits, used, splits[j].lower)
    ensures UsedInOrder(splits, used[j := true])
  {
    forall k | 0 <= k < j && used[k] && splits[k].lower == splits[j].lower ensures splits[k].extent == 1 {
      DvTimes(splits[j].lower, 1);
      NotBefore(splits[k], splits[j]);
    }
  }
  /** What is expected is 1, or waits to be matched, or is where a used digit ends. */
  ghost predicate Grounded(splits: seq<Split>, used: seq<bool>, expected: int) {
    && |used| == |splits|
    && (expected == 1 || Waiting(splits, used, expected)
        || exists k :: 0 <= k < |splits| && used[k] && expected == Above(splits[k]))
  }
  /** The lowest digit left divides the others. */
  predicate Lowest(splits: seq<Split>, used: seq<bool>, lowest: int, j: int) {
    |used| == |splits| && 0 <= lowest < |splits| && j <= |splits| &&
    forall k :: 0 <= k < j && !used[k] ==> Dv(splits[lowest].lower, splits[k].lower)
  }
  lemma LowestStep(splits: seq<Split>, used: seq<bool>, lowest: int, j: int)
    requires AllProper(splits) && Apart(splits) && Lowest(splits, used, lowest, j) && 0 <= j < |splits| && lowest < j
    ensures Dv(splits[j].lower, splits[lowest].lower) ==> Lowest(splits, used, j, j + 1)
    ensures !Dv(splits[j].lower, splits[lowest].lower) ==> Lowest(splits, used, lowest, j + 1)
  {
    var s, t := splits[lowest], splits[j];
    assert ApartPair(s, t);
    AboveLaw(s);
    AboveLaw(t);
    DvTimes(t.lower, 1);
    if Dv(Above(s), t.lower) { DvTrans(s.lower, Above(s), t.lower); } else { DvTrans(t.lower, Above(t), s.lower); }
    if Dv(t.lower, s.lower) {
      forall k | 0 <= k < j + 1 && !used[k] ensures Dv(t.lower, splits[k].lower) {
        if k < j { DvTrans(t.lower, s.lower, splits[k].lower); }
      }
    }
  }

  lemma GapStep(splits: seq<Split>, used: seq<bool>, results: seq<Split>, chain: seq<Split>, i: int, to: int)
    returns (gap: Split)
    requires Placed(splits, used, results, chain, i) && Chain(chain) && Top(chain) >= 1 && Dv(Top(chain), to) && to >= 1
    requires UsedBelow(splits, used, Top(chain))
    ensures gap == Split(Top(chain), to / Top(chain))
    ensures Placed(splits, used, results + [gap], chain + [gap], i)
    ensures Chain(chain + [gap]) && Top(chain + [gap]) == to && UsedBelow(splits, used, to) && Proper(gap)
  {
    gap := Split(Top(chain), to / Top(chain));
    ChainSnoc(chain, gap);
    var q := DvFactor(Top(chain), to);
    forall k | 0 <= k < |splits| && used[k]
      ensures Dv(Above(splits[k]), to)
    {
      DvTrans(Above(splits[k]), Top(chain), to);
    }
  }

  /** What the outer loop keeps. */
  ghost predicate Inv(splits: seq<Split>, used: seq<bool>, results: seq<Split>, chain: seq<Split>, i: int,
                      expected: int) {
    && Count(used) == i && Placed(splits, used, results, chain, i)
    && Chain(chain) && Top(chain) == expected >= 1 && AllProper(results)
    && UsedApart(splits, used) && UsedInOrder(splits, used) && UsedBelow(splits, used, expected)
    && Grounded(splits, used, expected)
    && (InOrder(splits) && Apart(splits) ==> Ahead(splits, used, expected))
  }
  lemma InvGap(splits: seq<Split>, used: seq<bool>, results: seq<Split>, chain: seq<Split>, i: int, expected: int,
               lowest: int)
    requires AllProper(splits) && Inv(splits, used, results, chain, i, expected) && 0 <= lowest < |splits|
    requires !used[lowest]
    requires Dv(expected, splits[lowest].lower) && (Apart(splits) ==> Lowest(splits, used, lowest, |splits|))
    ensures var to := splits[lowest].lower;
            var gap := Split(expected, to / expected);
            Inv(splits, used, results + [gap], chain + [gap], i, to) && Waiting(splits, used, to)
  {
    var gap := GapStep(splits, used, results, chain, i, splits[lowest].lower);
    assert Waiting(splits, used, splits[lowest].lower);
  }
  lemma InvMatch(splits: seq<Split>, used: seq<bool>, results: seq<Split>, chain: seq<Split>, i: int, expected: int,
                 j: int)
    requires AllProper(splits) && Inv(splits, used, results, chain, i, expected) && FirstAt(splits, used, j)
    requires splits[j].lower == expected
    ensures Inv(splits, used[j := true], results, chain + [splits[j]], i + 1, Above(splits[j]))
  {
    MatchStep(splits, used, results, chain, i, j);
    CountMore(used, j);
    MatchInOrder(splits, used, j);
    if InOrder(splits) && Apart(splits) { MatchAhead(splits, used, j); }
    assert used[j := true][j] && Above(splits[j]) == Above(splits[j]);
  }
  lemma InvStart(splits: seq<Split>)
    requires AllProper(splits)
    ensures Inv(splits, seq(|splits|, _ => false), [], [], 0, 1)
  {
    CountNone(|splits|);
    assert forall k :: 0 <= k < |splits| ==> Dv(1, splits[k].lower);
  }

  /** The inner loop: the first unused digit at the expected factor, or else the lowest unused one. */
  method Scan(splits: seq<Split>, used: seq<bool>, expected: int) returns (j: int, lowest: int)
    requires AllProper(splits) && |used| == |splits| && exists k :: 0 <= k < |used| && !used[k]
    ensures 0 <= j <= |splits|
    ensures j < |splits| ==> FirstAt(splits, used, j) && splits[j].lower == expected
    ensures j == |splits| ==> !Waiting(splits, used, expected) && 0 <= lowest < |splits| && !used[lowest]
    ensures j == |splits| && Apart(splits) ==> Lowest(splits, used, lowest, |splits|)
  {
    var n := |splits|;
    j := 0;
    lowest := n;
    while j < n
      invariant 0 <= j <= n && 0 <= lowest <= n
      invariant forall k :: 0 <= k < j && !used[k] ==> splits[k].lower != expected
      invariant lowest == n ==> forall k :: 0 <= k < j ==> used[k]
      invariant lowest < n ==> lowest < j && !used[lowest]
      invariant Apart(splits) && lowest < n ==> Lowest(splits, used, lowest, j)
    {
      if !used[j] {
        if splits[j].lower == expected { break; }
        if lowest < n && Apart(splits) { LowestStep(splits, used, lowest, j); }
        if lowest == n { DvTimes(splits[j].lower, 1); }
        if lowest == n || splits[lowest].lower % splits[j].lower == 0 { lowest := j; }
      }
      j := j + 1;
    }
  }

  /** The unused digits of an iterator of the given extent.  The loop ends because a gap is always followed by a match;
      it succeeds exactly when no two digits overlap and, of the digits that start at the same factor, all but the last
      listed have one value only. */
  method GetUnusedIters(extent: int, splits: seq<Split>) returns (r: Result<seq<Split>>)
    requires extent >= 1 && AllProper(splits)
    ensures r.Ok? <==> Apart(splits) && InOrder(splits)
    ensures r.Ok? ==> Completes(splits, r.value, extent)
    ensures r.Ok? ==> (AllProper(r.value) <==> Fits(splits, extent))
    ensures r.Ok? && Divided(splits, extent) ==> AllProper(r.value)
  {
    var n := |splits|;
    var expected := 1;
    var used := seq(n, _ => false);
    var results: seq<Split> := [];
    ghost var chain: seq<Split> := [];
    var i := 0;
    InvStart(splits);
    while i < n
      invariant 0 <= i <= n && Inv(splits, used, results, chain, i, expected)
      decreases n - i, if Waiting(splits, used, expected) then 0 else 1
    {
      CountBound(used);
      var j, lowest := Scan(splits, used, expected);
      if j == n {
        if splits[lowest].lower % expected != 0 {
          return CheckFailed;
        }
        InvGap(splits, used, results, chain, i, expected, lowest);
        var gap := Split(expected, splits[lowest].lower / expected);
        results := results + [gap];
        chain := chain + [gap];
        expected := splits[lowest].lower;
      } else {
        InvMatch(splits, used, results, chain, i, expected, j);
        chain := chain + [splits[j]];
        used := used[j := true];
        i := i + 1;
        expected := splits[j].lower * splits[j].extent;
      }
    }
    CountBound(used);
    Finish(splits, used, results, chain, extent);
    TailProper(splits, used, results, expected, extent);
    if Divided(splits, extent) { DividedFits(splits, extent); }
    r := Ok(results);
    if expected != extent {
      r := Ok(results + [Split(expected, extent / expected)]);
    }
  }
  /** The tail reaches the extent exactly when the top divides it. */
  lemma TailLaw(top: int, extent: int)
    requires top >= 1 && extent >= 1
    ensures top * (extent / top) <= extent && (top * (extent / top) == extent <==> Dv(top, extent))
    ensures Dv(top, extent) ==> extent / top >= 1
  {
    DivModLaw(extent, top);
    if Dv(top, extent) { var q := DvFactor(top, extent); }
  }
  lemma TopDivides(splits: seq<Split>, used: seq<bool>, top: int, extent: int)
    requires UsedBelow(splits, used, top) && Grounded(splits, used, top) && forall k :: 0 <= k < |splits| ==> used[k]
    ensures Dv(top, extent) <==> Divided(splits, extent)
  {
    if Dv(top, extent) {
      forall k | 0 <= k < |splits| ensures Dv(Above(splits[k]), extent) { DvTrans(Above(splits[k]), top, extent); }
    }
  }
  /** The top is within the extent exactly when every digit is; only then has the tail a value at all. */
  lemma TopFits(splits: seq<Split>, used: seq<bool>, top: int, extent: int)
    requires UsedBelow(splits, used, top) && Grounded(splits, used, top) && forall k :: 0 <= k < |splits| ==> used[k]
    requires top >= 1 && extent >= 1
    ensures top <= extent <==> Fits(splits, extent)
    ensures top <= extent <==> extent / top >= 1
  {
    DivBelow(extent, top, 1);
    forall k | 0 <= k < |splits| ensures Above(splits[k]) <= top { DvLess(Above(splits[k]), top); }
  }
  lemma FinishTail(splits: seq<Split>, used: seq<bool>, results: seq<Split>, chain: seq<Split>, extent: int,
                   tail: Split)
    requires Placed(splits, used, results, chain, |splits|) && forall k :: 0 <= k < |splits| ==> used[k]
    ensures Arranged(chain + [tail], splits, results + [tail])
  {
  }
  function WithTail(results: seq<Split>, top: int, extent: int): seq<Split>
    requires top >= 1
  {
    if top == extent then results else results + [Split(top, extent / top)]
  }
  lemma TailProper(splits: seq<Split>, used: seq<bool>, results: seq<Split>, top: int, extent: int)
    requires top >= 1 && extent >= 1
    requires AllProper(results) && UsedBelow(splits, used, top) && Grounded(splits, used, top)
    requires forall k :: 0 <= k < |splits| ==> used[k]
    ensures AllProper(WithTail(results, top, extent)) <==> Fits(splits, extent)
  {
    var all := WithTail(results, top, extent);
    TopFits(splits, used, top, extent);
    if top != extent { assert all[|results|] == Split(top, extent / top); }
  }
  lemma FinishWhole(splits: seq<Split>, used: seq<bool>, results: seq<Split>, chain: seq<Split>)
    requires Placed(splits, used, results, chain, |splits|) && Chain(chain) && forall k :: 0 <= k < |splits| ==> used[k]
    requires Divided(splits, Top(chain))
    ensures Completes(splits, results, Top(chain))
  {
    assert CompletedBy(splits, results, Top(chain), chain);
  }
  lemma FinishCut(splits: seq<Split>, used: seq<bool>, results: seq<Split>, chain: seq<Split>, extent: int, tail: Split)
    requires Placed(splits, used, results, chain, |splits|) && Chain(chain) && forall k :: 0 <= k < |splits| ==> used[k]
    requires tail.lower == Top(chain) && Above(tail) <= extent && (Above(tail) == extent <==> Divided(splits, extent))
    ensures Completes(splits, results + [tail], extent)
  {
    ChainSnoc(chain, tail);
    FinishTail(splits, used, results, chain, extent, tail);
    assert CompletedBy(splits, results + [tail], extent, chain + [tail]);
  }
  lemma Finish(splits: seq<Split>, used: seq<bool>, results: seq<Split>, chain: seq<Split>, extent: int)
    requires extent >= 1 && Placed(splits, used, results, chain, |splits|) && Chain(chain)
    requires Top(chain) >= 1
    requires UsedBelow(splits, used, Top(chain)) && Grounded(splits, used, Top(chain))
    requires forall k :: 0 <= k < |splits| ==> used[k]
    ensures Completes(splits, WithTail(results, Top(chain), extent), extent)
  {
    var top := Top(chain);
    TailLaw(top, extent);
    TopDivides(splits, used, top, extent);
    if top == extent {
      FinishWhole(splits, used, results, chain);
    } else {
      FinishCut(splits, used, results, chain, extent, Split(top, extent / top));
    }
  }
  /** Digits that end at divisors of the extent fit it. */
  lemma DividedFits(splits: seq<Split>, extent: int)
    requires extent >= 1 && Divided(splits, extent)
    ensures Fits(splits, extent)
  {
    forall k | 0 <= k < |splits| ensures Above(splits[k]) <= extent { DvLess(Above(splits[k]), extent); }
  }
}
