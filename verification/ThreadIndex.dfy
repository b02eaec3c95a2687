/** Registers inferred from a thread expression, and the replica variable condensed to the digits the thread uses. */
module ThreadIndex {
  import opened Arith
  import opened Results
  import opened IterSplits

  /** A scaled digit of input variable `v`. */
  datatype Digit = Digit(v: nat, split: Split, scale: int)
  predicate AllDigits(ds: seq<Digit>, vars: nat) {
    forall k :: 0 <= k < |ds| ==> ds[k].v < vars && Proper(ds[k].split)
  }
  predicate InRange(x: seq<int>, extents: seq<int>) {
    |x| == |extents| && forall v :: 0 <= v < |x| ==> 0 <= x[v] < extents[v]
  }
  function DigitOf(d: Digit, x: seq<int>): int
    requires d.v < |x| && Proper(d.split)
  {
    Read(d.split, x[d.v])
  }
  /** The value of an iterator sum. */
  function Value(ds: seq<Digit>, x: seq<int>): int
    requires AllDigits(ds, |x|)
  {
    if ds == [] then 0 else
      var n := |ds| - 1;
      assert AllDigits(ds[..n], |x|) by { assert forall k :: 0 <= k < n ==> ds[..n][k] == ds[k]; }
      Value(ds[..n], x) + ds[n].scale * DigitOf(ds[n], x)
  }

  // ----- positional sums

  function Most(ds: seq<Digit>): int {
    if ds == [] then 0 else Most(ds[..|ds| - 1]) + ds[|ds| - 1].scale * (ds[|ds| - 1].split.extent - 1)
  }
  /** Every scale exceeds what the digits before it can add up to. */
  predicate Positional(ds: seq<Digit>) { forall k :: 0 <= k < |ds| ==> ds[k].scale > Most(ds[..k]) }
  predicate SameReads(ds: seq<Digit>, x: seq<int>, y: seq<int>)
    requires AllDigits(ds, |x|) && |x| == |y|
  {
    forall k :: 0 <= k < |ds| ==> DigitOf(ds[k], x) == DigitOf(ds[k], y)
  }

  lemma ReadRange(s: Split, a: int)
    requires Proper(s)
    ensures 0 <= Read(s, a) < s.extent
  {
    DivModLaw(a / s.lower, s.extent);
  }
  lemma Prefix(ds: seq<Digit>, vars: nat)
    requires AllDigits(ds, vars) && Positional(ds) && ds != []
    ensures AllDigits(ds[..|ds| - 1], vars) && Positional(ds[..|ds| - 1])
  {
    var b := ds[..|ds| - 1];
    assert forall k :: 0 <= k < |b| ==> b[k] == ds[k];
    forall k | 0 <= k < |b| ensures b[k].scale > Most(b[..k]) { assert b[..k] == ds[..k] && b[k] == ds[k]; }
  }
  lemma OneMore(a: int, most: int, scale: int, d: int, e: int)
    requires 0 <= a <= most < scale && 0 <= d < e
    ensures 0 <= a + scale * d <= most + scale * (e - 1)
  {
    MulMono(0, d, scale);
    MulMono(d, e - 1, scale);
  }
  lemma {:induction false} ValueRange(ds: seq<Digit>, x: seq<int>)
    requires AllDigits(ds, |x|) && Positional(ds)
    ensures 0 <= Value(ds, x) <= Most(ds)
    decreases |ds|
  {
    if ds != [] {
      var n := |ds| - 1;
      Prefix(ds, |x|);
      ValueRange(ds[..n], x);
      ReadRange(ds[n].split, x[ds[n].v]);
      OneMore(Value(ds[..n], x), Most(ds[..n]), ds[n].scale, DigitOf(ds[n], x), ds[n].split.extent);
    }
  }
  lemma Leading(scale: int, a: int, d: int, b: int, e: int)
    requires 0 <= a < scale && 0 <= b < scale && a + scale * d == b + scale * e
    ensures a == b && d == e
  {
    DivModUnique(a + scale * d, scale, d, a);
    DivModUnique(b + scale * e, scale, e, b);
  }
  /** The value of a positional sum tells each of its digits. */
  lemma {:induction false} ValueTells(ds: seq<Digit>, x: seq<int>, y: seq<int>)
    requires AllDigits(ds, |x|) && |x| == |y| && Positional(ds) && Value(ds, x) == Value(ds, y)
    ensures SameReads(ds, x, y)
    decreases |ds|
  {
    if ds != [] {
      var n := |ds| - 1;
      var b := ds[..n];
      Prefix(ds, |x|);
      ValueRange(b, x);
      ValueRange(b, y);
      Leading(ds[n].scale, Value(b, x), DigitOf(ds[n], x), Value(b, y), DigitOf(ds[n], y));
      ValueTells(b, x, y);
      forall k | 0 <= k < |ds| ensures DigitOf(ds[k], x) == DigitOf(ds[k], y) {
        if k < n { assert b[k] == ds[k]; }
      }
    }
  }

  // ----- DivideUnusedIterators

  /** The digits of variable v, in order. */
  function SplitsOf(ds: seq<Digit>, v: nat): seq<Split> {
    if ds == [] then [] else SplitsOf(ds[..|ds| - 1], v) + (if ds[|ds| - 1].v == v then [ds[|ds| - 1].split] else [])
  }
  lemma {:induction false} SplitsOfAre(ds: seq<Digit>, v: nat, vars: nat)
    requires AllDigits(ds, vars)
    ensures AllProper(SplitsOf(ds, v))
    ensures forall s :: s in SplitsOf(ds, v) <==> exists k :: 0 <= k < |ds| && ds[k].v == v && ds[k].split == s
    decreases |ds|
  {
    if ds != [] {
      var n := |ds| - 1;
      var b := ds[..n];
      assert forall k :: 0 <= k < n ==> b[k] == ds[k];
      SplitsOfAre(b, v, vars);
      assert SplitsOf(ds, v) == SplitsOf(b, v) + (if ds[n].v == v then [ds[n].split] else []);
      forall s ensures s in SplitsOf(ds, v) <==> exists k :: 0 <= k < |ds| && ds[k].v == v && ds[k].split == s {
        if s in SplitsOf(b, v) {
          var k :| 0 <= k < n && b[k].v == v && b[k].split == s;
          assert ds[k].v == v && ds[k].split == s;
        }
        if k :| 0 <= k < |ds| && ds[k].v == v && ds[k].split == s {
          if k < n { assert b[k].v == v && b[k].split == s; }
        }
      }
    }
  }

  predicate ProperDigits(ds: seq<Digit>) { forall k :: 0 <= k < |ds| ==> Proper(ds[k].split) }

  /** `rest` lists the split s of variable v. */
  ghost predicate Lists(rest: seq<Digit>, v: nat, s: Split) {
    exists k :: 0 <= k < |rest| && rest[k].v == v && rest[k].split == s
  }
  ghost predicate CompletedIn(ds: seq<Digit>, rest: seq<Digit>, v: nat, extent: int, unused: seq<Split>,
                              chain: seq<Split>)
  {
    && CompletedBy(SplitsOf(ds, v), unused, extent, chain)
    && (AllProper(unused) <==> Fits(SplitsOf(ds, v), extent))
    && forall s :: s in unused <==> Lists(rest, v, s)
  }
  /** The digits of v in `rest` complete those in the thread to a mixed-radix system. */
  ghost predicate Completed(ds: seq<Digit>, rest: seq<Digit>, v: nat, extent: int) {
    exists unused, chain :: CompletedIn(ds, rest, v, extent, unused, chain)
  }
  /** Completion of v depends on the digits of v only. */
  lemma SameLists(ds: seq<Digit>, rest: seq<Digit>, other: seq<Digit>, v: nat, extent: int)
    requires Completed(ds, rest, v, extent) && forall s :: Lists(rest, v, s) <==> Lists(other, v, s)
    ensures Completed(ds, other, v, extent)
  {
    var unused, chain :| CompletedIn(ds, rest, v, extent, unused, chain);
    assert CompletedIn(ds, other, v, extent, unused, chain);
  }

  /** The unused digits of one variable, as the loop body of DivideUnusedIterators adds them: small axis last. */
  function Tagged(v: nat, splits: seq<Split>): seq<Digit> {
    seq(|splits|, k requires 0 <= k < |splits| => Digit(v, splits[|splits| - 1 - k], 1))
  }
  lemma TaggedLists(v: nat, splits: seq<Split>, s: Split)
    ensures s in splits <==> Lists(Tagged(v, splits), v, s)
  {
    var t := Tagged(v, splits);
    if s in splits {
      var i :| 0 <= i < |splits| && splits[i] == s;
      assert t[|splits| - 1 - i].v == v && t[|splits| - 1 - i].split == s;
    }
  }
  lemma TaggedCompletes(ds: seq<Digit>, v: nat, extent: int, unused: seq<Split>)
    requires Completes(SplitsOf(ds, v), unused, extent) && (AllProper(unused) <==> Fits(SplitsOf(ds, v), extent))
    ensures Completed(ds, Tagged(v, unused), v, extent)
  {
    var chain :| CompletedBy(SplitsOf(ds, v), unused, extent, chain);
    forall s ensures s in unused <==> Lists(Tagged(v, unused), v, s) { TaggedLists(v, unused, s); }
    assert CompletedIn(ds, Tagged(v, unused), v, extent, unused, chain);
  }
  /** A variable the thread does not use at all is its own only digit, or none when it has one value. */
  lemma WholeCompletes(ds: seq<Digit>, v: nat, extent: int)
    requires SplitsOf(ds, v) == [] && extent >= 1
    ensures extent == 1 ==> Completed(ds, Tagged(v, []), v, extent)
    ensures Completed(ds, Tagged(v, [Split(1, extent)]), v, extent)
  {
    WholeCompletesIt(extent);
    TaggedCompletes(ds, v, extent, [Split(1, extent)]);
    if extent == 1 {
      NothingCompletes();
      TaggedCompletes(ds, v, extent, []);
    }
  }
  lemma WholeCompletesIt(extent: int)
    requires extent >= 1
    ensures Completes([], [Split(1, extent)], extent)
    ensures AllProper([Split(1, extent)]) && Fits([], extent)
  {
    var whole := Split(1, extent);
    ChainSnoc([], whole);
    assert [] + [whole] == [whole];
    assert CompletedBy([], [whole], extent, [whole]);
  }
  lemma NothingCompletes()
    ensures Completes([], [], 1) && AllProper([]) && Fits([], 1)
  {
    assert CompletedBy([], [], 1, []);
  }
  lemma ListsMore(rest: seq<Digit>, part: seq<Digit>, v: nat, s: Split)
    ensures Lists(rest + part, v, s) <==> Lists(rest, v, s) || Lists(part, v, s)
  {
    var all := rest + part;
    if k :| 0 <= k < |rest| && rest[k].v == v && rest[k].split == s { assert all[k].v == v && all[k].split == s; }
    if k :| 0 <= k < |part| && part[k].v == v && part[k].split == s {
      assert all[|rest| + k].v == v && all[|rest| + k].split == s;
    }
  }
  ghost predicate CompletedUpto(ds: seq<Digit>, rest: seq<Digit>, extents: seq<int>, n: int) {
    && (forall k :: 0 <= k < |rest| ==> rest[k].v < n)
    && forall v :: 0 <= v < n && v < |extents| ==> Completed(ds, rest, v, extents[v])
  }
  lemma CompletedMore(ds: seq<Digit>, rest: seq<Digit>, part: seq<Digit>, extents: seq<int>, n: int)
    requires CompletedUpto(ds, rest, extents, n) && 0 <= n < |extents| && Completed(ds, part, n, extents[n])
    requires forall k :: 0 <= k < |part| ==> part[k].v == n
    ensures CompletedUpto(ds, rest + part, extents, n + 1)
  {
    forall v | 0 <= v < n + 1 ensures Completed(ds, rest + part, v, extents[v]) {
      forall s
        ensures Lists(rest + part, v, s) <==> Lists(if v < n then rest else part, v, s)
      {
        ListsMore(rest, part, v, s);
      }
      SameLists(ds, if v < n then rest else part, rest + part, v, extents[v]);
    }
  }
  /** Each variable's digits in the thread do not overlap, and repeat a factor in order only. */
  predicate AllApart(ds: seq<Digit>, n: int) {
    forall v :: 0 <= v < n ==> Apart(SplitsOf(ds, v)) && InOrder(SplitsOf(ds, v))
  }

  /** The digits the thread expression leaves unused, variable by variable: together with those it uses they form a
      mixed-radix system for every variable.  It fails exactly when some variable's digits overlap. */
  method DivideUnusedIterators(extents: seq<int>, ds: seq<Digit>) returns (r: Result<seq<Digit>>)
    requires AllDigits(ds, |extents|) && forall v :: 0 <= v < |extents| ==> extents[v] >= 1
    ensures r.Ok? <==> AllApart(ds, |extents|)
    ensures r.Ok? ==> CompletedUpto(ds, r.value, extents, |extents|)
  {
    var results: seq<Digit> := [];
    var v := 0;
    while v < |extents|
      invariant 0 <= v <= |extents| && AllApart(ds, v) && CompletedUpto(ds, results, extents, v)
    {
      var part := UnusedOf(extents, ds, v);
      if part.CheckFailed? { return CheckFailed; }
      CompletedMore(ds, results, part.value, extents, v);
      results := results + part.value;
      v := v + 1;
    }
    r := Ok(results);
  }
  /** The loop body: the unused digits of one variable. */
  method UnusedOf(extents: seq<int>, ds: seq<Digit>, v: nat) returns (r: Result<seq<Digit>>)
    requires AllDigits(ds, |extents|) && v < |extents| && extents[v] >= 1
    ensures r.Ok? <==> Apart(SplitsOf(ds, v)) && InOrder(SplitsOf(ds, v))
    ensures r.Ok? ==> Completed(ds, r.value, v, extents[v]) && forall k :: 0 <= k < |r.value| ==> r.value[k].v == v
  {
    var mine := SplitsOf(ds, v);
    SplitsOfAre(ds, v, |extents|);
    if mine != [] {
      var unused := GetUnusedIters(extents[v], mine);
      if unused.CheckFailed? { return CheckFailed; }
      TaggedCompletes(ds, v, extents[v], unused.value);
      r := Ok(Tagged(v, unused.value));
    } else {
      WholeCompletes(ds, v, extents[v]);
      r := Ok(if extents[v] != 1 then Tagged(v, [Split(1, extents[v])]) else Tagged(v, []));
    }
  }

  // ----- MakeFlattenedExpression and infer_fragment_index

  function Product(ds: seq<Digit>): int { if ds == [] then 1 else Product(ds[..|ds| - 1]) * ds[|ds| - 1].split.extent }
  /** Row-major strides, last split fastest: scale is the product of what is already listed. */
  predicate Compact(ds: seq<Digit>) { forall k :: 0 <= k < |ds| ==> ds[k].scale == Product(ds[..k]) }

  lemma CompactSnoc(ds: seq<Digit>, d: Digit)
    requires Compact(ds) && d.scale == Product(ds)
    ensures Compact(ds + [d]) && Product(ds + [d]) == d.scale * d.split.extent
  {
    var more := ds + [d];
    assert more[..|ds|] == ds;
    forall k | 0 <= k < |more| ensures more[k].scale == Product(more[..k]) {
      if k < |ds| { assert more[..k] == ds[..k]; }
    }
  }
  lemma PositionalSnoc(ds: seq<Digit>, d: Digit)
    requires Positional(ds) && d.scale > Most(ds)
    ensures Positional(ds + [d]) && Most(ds + [d]) == Most(ds) + d.scale * (d.split.extent - 1)
  {
    var more := ds + [d];
    assert more[..|ds|] == ds;
    forall k | 0 <= k < |more| ensures more[k].scale > Most(more[..k]) {
      if k < |ds| { assert more[..k] == ds[..k]; }
    }
  }
  lemma CompactPrefix(ds: seq<Digit>, n: int)
    requires Compact(ds) && ProperDigits(ds) && 0 <= n <= |ds|
    ensures Compact(ds[..n]) && ProperDigits(ds[..n])
  {
    var b := ds[..n];
    forall k | 0 <= k < n
      ensures b[k].scale == Product(b[..k]) && Proper(b[k].split)
    {
      assert b[..k] == ds[..k] && b[k] == ds[k];
    }
  }
  lemma OneLess(p: int, e: int)
    ensures p * e == p * (e - 1) + p
  {
  }
  lemma {:induction false} CompactPositional(ds: seq<Digit>)
    requires Compact(ds) && ProperDigits(ds)
    ensures Positional(ds) && Most(ds) == Product(ds) - 1
    decreases |ds|
  {
    if ds != [] {
      var n := |ds| - 1;
      var b := ds[..n];
      CompactPrefix(ds, n);
      CompactPositional(b);
      PositionalSnoc(b, ds[n]);
      assert b + [ds[n]] == ds;
      OneLess(Product(b), ds[n].split.extent);
    }
  }

  method MakeFlattenedExpression(splits: seq<Digit>) returns (lists: seq<Digit>)
    ensures |lists| == |splits| && Compact(lists)
    ensures forall k :: 0 <= k < |lists| ==>
      lists[k].v == splits[|splits| - 1 - k].v && lists[k].split == splits[|splits| - 1 - k].split
  {
    lists := [];
    var scale := 1;
    var i := |splits| - 1;
    while i >= 0
      invariant -1 <= i < |splits| && |lists| == |splits| - 1 - i && scale == Product(lists) && Compact(lists)
      invariant forall k :: 0 <= k < |lists| ==>
        lists[k].v == splits[|splits| - 1 - k].v && lists[k].split == splits[|splits| - 1 - k].split
    {
      var next := Digit(splits[i].v, splits[i].split, scale);
      CompactSnoc(lists, next);
      lists := lists + [next];
      scale := scale * splits[i].split.extent;
      i := i - 1;
    }
  }

  /** x and y, both in range, share thread and register. */
  predicate Share(ds: seq<Digit>, index: seq<Digit>, extents: seq<int>, x: seq<int>, y: seq<int>)
    requires AllDigits(ds, |extents|) && AllDigits(index, |extents|)
  {
    && InRange(x, extents) && InRange(y, extents)
    && Value(ds, x) == Value(ds, y) && Value(index, x) == Value(index, y)
  }
  /** Thread and register together tell every input but the replica. */
  ghost predicate Tells(ds: seq<Digit>, index: seq<Digit>, extents: seq<int>, rep: nat)
    requires AllDigits(ds, |extents|) && AllDigits(index, |extents|)
  {
    forall x, y, v :: Share(ds, index, extents, x, y) && 0 <= v < |extents| && v != rep ==> x[v] == y[v]
  }
  /** Every digit of v, used or not, is read by the thread or by the index. */
  lemma ChainRead(ds: seq<Digit>, index: seq<Digit>, v: nat, extent: int, unused: seq<Split>, chain: seq<Split>,
                  s: Split)
    requires ProperDigits(ds) && ProperDigits(index) && CompletedIn(ds, index, v, extent, unused, chain)
    ensures s in chain <==> Lists(ds, v, s) || Lists(index, v, s)
  {
    SplitsOfAre(ds, v, MaxVar(ds));
  }
  function MaxVar(ds: seq<Digit>): (n: nat)
    ensures forall k :: 0 <= k < |ds| ==> ds[k].v < n
  {
    if ds == [] then 0 else
      var n := MaxVar(ds[..|ds| - 1]);
      assert forall k :: 0 <= k < |ds| - 1 ==> ds[k] == ds[..|ds| - 1][k];
      if ds[|ds| - 1].v < n then n else ds[|ds| - 1].v + 1
  }
  lemma ReadsAgree(ds: seq<Digit>, x: seq<int>, y: seq<int>, v: nat, s: Split)
    requires AllDigits(ds, |x|) && |x| == |y| && v < |x| && SameReads(ds, x, y) && Lists(ds, v, s)
    ensures Proper(s) && Read(s, x[v]) == Read(s, y[v])
  {
    var k :| 0 <= k < |ds| && ds[k].v == v && ds[k].split == s;
    assert DigitOf(ds[k], x) == DigitOf(ds[k], y);
  }
  lemma ChainProper(ds: seq<Digit>, index: seq<Digit>, v: nat, extent: int, unused: seq<Split>, chain: seq<Split>)
    requires ProperDigits(ds) && ProperDigits(index) && CompletedIn(ds, index, v, extent, unused, chain)
    ensures AllProper(chain)
  {
    forall k | 0 <= k < |chain| ensures Proper(chain[k]) {
      assert chain[k] in chain;
      ChainRead(ds, index, v, extent, unused, chain, chain[k]);
    }
  }
  /** Where the used digits of v end at divisors of its extent, equal thread and index digits mean equal values. */
  lemma TellsVar(ds: seq<Digit>, index: seq<Digit>, extents: seq<int>, v: nat, x: seq<int>, y: seq<int>)
    requires AllDigits(ds, |extents|) && AllDigits(index, |extents|) && v < |extents| && InRange(x, extents)
    requires InRange(y, extents)
    requires Completed(ds, index, v, extents[v]) && Divided(SplitsOf(ds, v), extents[v])
    requires SameReads(ds, x, y) && SameReads(index, x, y)
    ensures x[v] == y[v]
  {
    var unused, chain :| CompletedIn(ds, index, v, extents[v], unused, chain);
    ChainProper(ds, index, v, extents[v], unused, chain);
    forall k | 0 <= k < |chain| ensures Read(chain[k], x[v]) == Read(chain[k], y[v]) {
      assert chain[k] in chain;
      ChainRead(ds, index, v, extents[v], unused, chain, chain[k]);
      if Lists(ds, v, chain[k]) { ReadsAgree(ds, x, y, v, chain[k]); } else { ReadsAgree(index, x, y, v, chain[k]); }
    }
    DigitsTell(chain, x[v], y[v]);
  }
  lemma ReadsTell(ds: seq<Digit>, index: seq<Digit>, extents: seq<int>, rep: nat)
    requires AllDigits(ds, |extents|) && AllDigits(index, |extents|) && Positional(ds) && Positional(index)
    requires forall v :: 0 <= v < |extents| && v != rep ==>
      Completed(ds, index, v, extents[v]) && Divided(SplitsOf(ds, v), extents[v])
    ensures Tells(ds, index, extents, rep)
  {
    forall x, y, v | Share(ds, index, extents, x, y) && 0 <= v < |extents| && v != rep
      ensures x[v] == y[v]
    {
      ValueTells(ds, x, y);
      ValueTells(index, x, y);
      TellsVar(ds, index, extents, v, x, y);
    }
  }

  // ----- and where they do not

  lemma {:induction false} TopPositive(c: seq<Split>)
    requires AllProper(c)
    ensures Top(c) >= 1
    decreases |c|
  {
    if c != [] {
      TopPositive(c[..|c| - 1]);
      MulFar(c[|c| - 1].extent, Top(c[..|c| - 1]));
    }
  }
  lemma {:induction false} ValueFrom(ds: seq<Digit>, x: seq<int>, y: seq<int>)
    requires AllDigits(ds, |x|) && |x| == |y| && SameReads(ds, x, y)
    ensures Value(ds, x) == Value(ds, y)
    decreases |ds|
  {
    if ds != [] {
      var n := |ds| - 1;
      assert forall k :: 0 <= k < n ==> ds[..n][k] == ds[k];
      ValueFrom(ds[..n], x, y);
    }
  }
  /** Raising v from 0 to the top of its digits changes no digit. */
  lemma TopUnseen(ds: seq<Digit>, x: seq<int>, y: seq<int>, v: nat, chain: seq<Split>)
    requires AllDigits(ds, |x|) && v < |x| && y == x[v := Top(chain)] && x[v] == 0
    requires Chain(chain) && AllProper(chain) && forall s :: Lists(ds, v, s) ==> s in chain
    ensures Value(ds, x) == Value(ds, y)
  {
    forall k | 0 <= k < |ds| ensures DigitOf(ds[k], x) == DigitOf(ds[k], y) {
      if ds[k].v == v {
        assert Lists(ds, v, ds[k].split);
        var i :| 0 <= i < |chain| && chain[i] == ds[k].split;
        ChainDivides(chain, i);
        ReadIgnores(chain[i], 0, 1, Top(chain));
      }
    }
    ValueFrom(ds, x, y);
  }
  /** Where a used digit of v does not end at a divisor of the extent, 0 and the top of the digits share thread and
      index although both are values of v. */
  lemma Confuses(ds: seq<Digit>, index: seq<Digit>, extents: seq<int>, v: nat) returns (x: seq<int>, y: seq<int>)
    requires AllDigits(ds, |extents|) && AllDigits(index, |extents|) && v < |extents|
    requires forall u :: 0 <= u < |extents| ==> extents[u] >= 1
    requires Completed(ds, index, v, extents[v]) && !Divided(SplitsOf(ds, v), extents[v])
    ensures Share(ds, index, extents, x, y) && x[v] != y[v] && y == x[v := y[v]]
  {
    var unused, chain :| CompletedIn(ds, index, v, extents[v], unused, chain);
    ChainProper(ds, index, v, extents[v], unused, chain);
    TopPositive(chain);
    x := seq(|extents|, _ => 0);
    y := x[v := Top(chain)];
    forall s
      ensures s in chain <==> Lists(ds, v, s) || Lists(index, v, s)
    {
      ChainRead(ds, index, v, extents[v], unused, chain, s);
    }
    TopUnseen(ds, x, y, v, chain);
    TopUnseen(index, x, y, v, chain);
  }

  /** Every digit of a variable other than the replica ends at a divisor of the variable's extent. */
  ghost predicate Spanned(ds: seq<Digit>, extents: seq<int>, rep: nat) {
    forall v :: 0 <= v < |extents| && v != rep ==> Divided(SplitsOf(ds, v), extents[v])
  }
  /** Every digit of a variable other than the replica ends within the variable's extent. */
  ghost predicate AllFit(ds: seq<Digit>, extents: seq<int>, rep: nat) {
    forall v :: 0 <= v < |extents| && v != rep ==> Fits(SplitsOf(ds, v), extents[v])
  }
  /** Two values of one input, the others equal, share thread and register. */
  ghost predicate Confused(ds: seq<Digit>, index: seq<Digit>, extents: seq<int>, rep: nat)
    requires AllDigits(ds, |extents|) && AllDigits(index, |extents|)
  {
    exists v: nat, x, y ::
      v < |extents| && v != rep && Share(ds, index, extents, x, y) && x[v] != y[v] && y == x[v := y[v]]
  }
  /** The register expression inferred for a thread expression.  It has a digit of extent 0, a remainder modulo zero, if
      and only if a digit of some input ends above its extent.  Otherwise two values of an input share thread and
      register whenever a digit of it does not end at a divisor of its extent, and for a positional thread expression
      thread and register tell every input but the replica if and only if all do. */
  method InferFragmentIndex(extents: seq<int>, ds: seq<Digit>, rep: nat) returns (r: Result<seq<Digit>>)
    requires AllDigits(ds, |extents|) && forall v :: 0 <= v < |extents| ==> extents[v] >= 1
    ensures r.Ok? <==> AllApart(ds, |extents|)
    ensures r.Ok? ==> Compact(r.value) && forall k :: 0 <= k < |r.value| ==> r.value[k].v != rep
    ensures r.Ok? ==> (AllDigits(r.value, |extents|) <==> AllFit(ds, extents, rep))
    ensures r.Ok? && AllFit(ds, extents, rep) && !Spanned(ds, extents, rep) ==> Confused(ds, r.value, extents, rep)
    ensures r.Ok? && AllFit(ds, extents, rep) && Positional(ds) ==>
      (Tells(ds, r.value, extents, rep) <==> Spanned(ds, extents, rep))
  {
    var splits := DivideUnusedIterators(extents, ds);
    if splits.CheckFailed? { return CheckFailed; }
    var all := splits.value;
    var kept: seq<Digit> := [];
    var k := 0;
    while k < |all|
      invariant 0 <= k <= |all|
      invariant forall j :: 0 <= j < |kept| ==> kept[j] in all && kept[j].v != rep
      invariant forall j :: 0 <= j < k && all[j].v != rep ==> all[j] in kept
    {
      if all[k].v != rep { kept := kept + [all[k]]; }
      k := k + 1;
    }
    var index := MakeFlattenedExpression(kept);
    Inferred(ds, all, kept, index, extents, rep);
    r := Ok(index);
  }
  lemma KeptLists(all: seq<Digit>, kept: seq<Digit>, index: seq<Digit>, rep: nat, v: nat, s: Split)
    requires v != rep && forall j :: 0 <= j < |kept| ==> kept[j] in all
    requires forall j :: 0 <= j < |all| && all[j].v != rep ==> all[j] in kept
    requires |index| == |kept|
    requires forall k :: 0 <= k < |index| ==>
      index[k].v == kept[|kept| - 1 - k].v && index[k].split == kept[|kept| - 1 - k].split
    ensures Lists(all, v, s) <==> Lists(index, v, s)
  {
    if k :| 0 <= k < |all| && all[k].v == v && all[k].split == s {
      var i :| 0 <= i < |kept| && kept[i] == all[k];
      var j := |kept| - 1 - i;
      assert index[j].v == v && index[j].split == s;
    }
    if k :| 0 <= k < |index| && index[k].v == v && index[k].split == s {
      assert kept[|kept| - 1 - k] in all;
      var i :| 0 <= i < |all| && all[i] == kept[|kept| - 1 - k];
      assert all[i].v == v && all[i].split == s;
    }
  }
  lemma Inferred(ds: seq<Digit>, all: seq<Digit>, kept: seq<Digit>, index: seq<Digit>, extents: seq<int>, rep: nat)
    requires AllDigits(ds, |extents|) && CompletedUpto(ds, all, extents, |extents|)
    requires forall v :: 0 <= v < |extents| ==> extents[v] >= 1
    requires forall j :: 0 <= j < |kept| ==> kept[j] in all && kept[j].v != rep
    requires forall j :: 0 <= j < |all| && all[j].v != rep ==> all[j] in kept
    requires |index| == |kept| && Compact(index)
    requires forall k :: 0 <= k < |index| ==>
      index[k].v == kept[|kept| - 1 - k].v && index[k].split == kept[|kept| - 1 - k].split
    ensures AllDigits(index, |extents|) <==> AllFit(ds, extents, rep)
    ensures AllFit(ds, extents, rep) && !Spanned(ds, extents, rep) ==> Confused(ds, index, extents, rep)
    ensures AllFit(ds, extents, rep) && Positional(ds) ==>
      (Tells(ds, index, extents, rep) <==> Spanned(ds, extents, rep))
  {
    forall v | 0 <= v < |extents| && v != rep ensures Completed(ds, index, v, extents[v]) {
      forall s ensures Lists(all, v, s) <==> Lists(index, v, s) { KeptLists(all, kept, index, rep, v, s); }
      SameLists(ds, all, index, v, extents[v]);
    }
    IndexProper(ds, index, extents, rep);
    if AllFit(ds, extents, rep) {
      CompactPositional(index);
      if Spanned(ds, extents, rep) {
        if Positional(ds) { ReadsTell(ds, index, extents, rep); }
      } else {
        var v: nat :| v < |extents| && v != rep && !Divided(SplitsOf(ds, v), extents[v]);
        var x, y := Confuses(ds, index, extents, v);
      }
    }
  }
  lemma UnusedProper(ds: seq<Digit>, index: seq<Digit>, v: nat, extent: int)
    requires Completed(ds, index, v, extent)
    ensures Fits(SplitsOf(ds, v), extent) <==> forall s :: Lists(index, v, s) ==> Proper(s)
  {
    var unused, chain :| CompletedIn(ds, index, v, extent, unused, chain);
    forall k | 0 <= k < |unused| ensures Lists(index, v, unused[k]) { assert unused[k] in unused; }
  }
  lemma IndexProper(ds: seq<Digit>, index: seq<Digit>, extents: seq<int>, rep: nat)
    requires forall k :: 0 <= k < |index| ==> index[k].v < |extents| && index[k].v != rep
    requires forall v :: 0 <= v < |extents| && v != rep ==> Completed(ds, index, v, extents[v])
    ensures AllDigits(index, |extents|) <==> AllFit(ds, extents, rep)
  {
    if AllFit(ds, extents, rep) {
      forall k | 0 <= k < |index|
        ensures Proper(index[k].split)
      {
        UnusedProper(ds, index, index[k].v, extents[index[k].v]);
        assert Lists(index, index[k].v, index[k].split);
      }
    }
    if AllDigits(index, |extents|) {
      forall v | 0 <= v < |extents| && v != rep
        ensures Fits(SplitsOf(ds, v), extents[v])
      {
        UnusedProper(ds, index, v, extents[v]);
      }
    }
  }
}
