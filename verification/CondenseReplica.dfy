/** Condensing the replica variable to the digits the thread expression reads keeps the threads of every element. */
module CondenseReplica {
  import opened Arith
  import opened IterSplits
  import opened ThreadIndex

  /** Product of the extents of rep's digits among the first k. */
  function Before(ds: seq<Digit>, rep: nat, k: int): int
    requires 0 <= k <= |ds|
  {
    if k == 0 then 1
    else if ds[k - 1].v == rep then Before(ds, rep, k - 1) * ds[k - 1].split.extent
    else Before(ds, rep, k - 1)
  }
  function Recoded(ds: seq<Digit>, rep: nat, k: int): Digit
    requires 0 <= k < |ds|
  {
    if ds[k].v == rep then Digit(rep, Split(Before(ds, rep, k), ds[k].split.extent), ds[k].scale) else ds[k]
  }
  /** The sum after the replacement: rep's digits packed next to each other. */
  function Condensed(ds: seq<Digit>, rep: nat): seq<Digit> {
    seq(|ds|, k requires 0 <= k < |ds| => Recoded(ds, rep, k))
  }

  method CompressIterator(ds: seq<Digit>, rep: nat) returns (replaced: seq<Digit>, extent: int)
    ensures replaced == Condensed(ds, rep) && extent == Before(ds, rep, |ds|)
  {
    extent := 1;
    var i := 0;
    while i < |ds|
      invariant 0 <= i <= |ds| && extent == Before(ds, rep, i)
    {
      if ds[i].v == rep { extent := extent * ds[i].split.extent; }
      i := i + 1;
    }
    var scale := 1;
    var replaceMap: map<int, Digit> := map[];
    i := 0;
    while i < |ds|
      invariant 0 <= i <= |ds| && scale == Before(ds, rep, i)
      invariant forall k :: k in replaceMap <==> 0 <= k < i && ds[k].v == rep
      invariant forall k :: k in replaceMap ==> replaceMap[k] == Recoded(ds, rep, k)
    {
      if ds[i].v == rep {
        replaceMap := replaceMap[i := Digit(rep, Split(scale, ds[i].split.extent), ds[i].scale)];
        scale := scale * ds[i].split.extent;
      }
      i := i + 1;
    }
    replaced := [];
    i := 0;
    while i < |ds|
      invariant 0 <= i <= |ds| && replaced == Condensed(ds, rep)[..i]
    {
      replaced := replaced + [if i in replaceMap then replaceMap[i] else ds[i]];
      i := i + 1;
    }
  }

  // ----- the digits a variable can spell

  predicate OfRep(ds: seq<Digit>, rep: nat, k: int) { 0 <= k < |ds| && ds[k].v == rep && ds[k].split.extent >= 2 }
  /** Used digits of rep do not overlap. */
  ghost predicate RepApart(ds: seq<Digit>, rep: nat) {
    forall j, k :: OfRep(ds, rep, j) && OfRep(ds, rep, k) && j < k ==> ApartPair(ds[j].split, ds[k].split)
  }
  ghost predicate RepFits(ds: seq<Digit>, rep: nat, extent: int) {
    extent >= 1 && forall k :: OfRep(ds, rep, k) ==> Above(ds[k].split) <= extent
  }
  predicate Wanted(ds: seq<Digit>, want: seq<int>) {
    |want| == |ds| && forall k :: 0 <= k < |ds| ==> 0 <= want[k] < ds[k].split.extent
  }

  lemma {:induction false} Highest(ds: seq<Digit>, active: set<int>, some: int) returns (m: int)
    requires some in active && forall k :: k in active ==> 0 <= k < |ds|
    ensures m in active && forall k :: k in active ==> ds[k].split.lower <= ds[m].split.lower
    decreases |active|
  {
    m := some;
    var rest := active - {some};
    if other :| other in rest {
      var h := Highest(ds, rest, other);
      if ds[h].split.lower >= ds[m].split.lower { m := h; }
    }
    forall k | k in active ensures ds[k].split.lower <= ds[m].split.lower {
      if k != some { assert k in rest; }
    }
  }
  lemma UnderHighest(s: Split, m: Split)
    requires Proper(s) && Proper(m) && s.lower <= m.lower && m.extent >= 2 && (ApartPair(s, m) || ApartPair(m, s))
    ensures Dv(Above(s), m.lower) && Above(s) <= m.lower
  {
    AboveLaw(m);
    if Dv(Above(m), s.lower) { DvLess(Above(m), s.lower); }
    DvLess(Above(s), m.lower);
  }
  lemma TopDigit(m: Split, low: int, d: int)
    requires Proper(m) && 0 <= low < m.lower && 0 <= d < m.extent
    ensures Read(m, low + d * m.lower) == d && 0 <= low + d * m.lower < Above(m)
  {
    DivModUnique(low + d * m.lower, m.lower, d, low);
    DivModUnique(d, m.extent, 0, d);
    MulMono(0, d, m.lower);
    MulMono(d + 1, m.extent, m.lower);
  }
  predicate Spelled(ds: seq<Digit>, want: seq<int>, active: set<int>, r: int)
    requires ProperDigits(ds)
  {
    |want| == |ds| && forall k :: k in active && 0 <= k < |ds| ==> Read(ds[k].split, r) == want[k]
  }
  predicate Under(ds: seq<Digit>, active: set<int>, r: int) {
    0 <= r && (r == 0 || exists k :: k in active && 0 <= k < |ds| && r < Above(ds[k].split))
  }
  /** Digits that do not overlap can spell every combination. */
  lemma {:induction false} Spell(ds: seq<Digit>, rep: nat, want: seq<int>, active: set<int>) returns (r: int)
    requires ProperDigits(ds) && RepApart(ds, rep) && Wanted(ds, want) && forall k :: k in active ==> OfRep(ds, rep, k)
    ensures Spelled(ds, want, active, r) && Under(ds, active, r)
    decreases |active|
  {
    r := 0;
    if some :| some in active {
      var m := Highest(ds, active, some);
      var rest := active - {m};
      var low := Spell(ds, rep, want, rest);
      forall k | k in rest
        ensures Dv(Above(ds[k].split), ds[m].split.lower) && Above(ds[k].split) <= ds[m].split.lower
      {
        if k < m { assert ApartPair(ds[k].split, ds[m].split); } else { assert ApartPair(ds[m].split, ds[k].split); }
        UnderHighest(ds[k].split, ds[m].split);
      }
      assert 0 <= low < ds[m].split.lower;
      TopDigit(ds[m].split, low, want[m]);
      r := low + want[m] * ds[m].split.lower;
      forall k | k in active ensures Read(ds[k].split, r) == want[k] {
        if k != m { ReadIgnores(ds[k].split, low, want[m], ds[m].split.lower); }
      }
    }
  }
  lemma SpellAll(ds: seq<Digit>, rep: nat, want: seq<int>, extent: int) returns (r: int)
    requires ProperDigits(ds) && RepApart(ds, rep) && Wanted(ds, want) && RepFits(ds, rep, extent)
    ensures 0 <= r < extent && forall k :: 0 <= k < |ds| && ds[k].v == rep ==> Read(ds[k].split, r) == want[k]
  {
    var active := set k | 0 <= k < |ds| && OfRep(ds, rep, k);
    r := Spell(ds, rep, want, active);
    forall k | 0 <= k < |ds| && ds[k].v == rep ensures Read(ds[k].split, r) == want[k] {
      ReadRange(ds[k].split, r);
      if ds[k].split.extent >= 2 { assert k in active; }
    }
  }

  // ----- packed digits

  lemma {:induction false} BeforePositive(ds: seq<Digit>, rep: nat, k: int)
    requires ProperDigits(ds) && 0 <= k <= |ds|
    ensures Before(ds, rep, k) >= 1
    decreases k
  {
    if k > 0 {
      BeforePositive(ds, rep, k - 1);
      MulFar(ds[k - 1].split.extent, Before(ds, rep, k - 1));
    }
  }
  lemma {:induction false} BeforeDivides(ds: seq<Digit>, rep: nat, k: int, j: int)
    requires ProperDigits(ds) && 0 <= k < j <= |ds| && ds[k].v == rep
    ensures Dv(Before(ds, rep, k) * ds[k].split.extent, Before(ds, rep, j))
    decreases j
  {
    BeforePositive(ds, rep, k + 1);
    if j == k + 1 {
      DvTimes(Before(ds, rep, j), 1);
    } else {
      BeforeDivides(ds, rep, k, j - 1);
      if ds[j - 1].v == rep {
        BeforePositive(ds, rep, j - 1);
        DvTimes(Before(ds, rep, j - 1), ds[j - 1].split.extent);
        DvTrans(Before(ds, rep, k) * ds[k].split.extent, Before(ds, rep, j - 1), Before(ds, rep, j));
      }
    }
  }
  lemma CondensedProper(ds: seq<Digit>, rep: nat)
    requires ProperDigits(ds)
    ensures ProperDigits(Condensed(ds, rep)) && RepApart(Condensed(ds, rep), rep)
    ensures RepFits(Condensed(ds, rep), rep, Before(ds, rep, |ds|))
  {
    var out := Condensed(ds, rep);
    forall k | 0 <= k < |ds| ensures Proper(out[k].split) { BeforePositive(ds, rep, k); }
    BeforePositive(ds, rep, |ds|);
    forall k | OfRep(out, rep, k) ensures Above(out[k].split) <= Before(ds, rep, |ds|) {
      BeforeDivides(ds, rep, k, |ds|);
      DvLess(Above(out[k].split), Before(ds, rep, |ds|));
    }
    forall j, k | OfRep(out, rep, j) && OfRep(out, rep, k) && j < k ensures ApartPair(out[j].split, out[k].split) {
      BeforeDivides(ds, rep, j, k);
    }
  }

  // ----- the threads of an element

  predicate Digits2(ds: seq<Digit>, es: seq<Digit>, x: seq<int>, y: seq<int>) {
    AllDigits(ds, |x|) && AllDigits(es, |y|) && |ds| == |es| &&
    forall k :: 0 <= k < |ds| ==> ds[k].scale == es[k].scale && DigitOf(ds[k], x) == DigitOf(es[k], y)
  }
  lemma {:induction false} ValueSame(ds: seq<Digit>, es: seq<Digit>, x: seq<int>, y: seq<int>)
    requires Digits2(ds, es, x, y)
    ensures Value(ds, x) == Value(es, y)
    decreases |ds|
  {
    if ds != [] {
      var n := |ds| - 1;
      assert forall k :: 0 <= k < n ==> ds[..n][k] == ds[k] && es[..n][k] == es[k];
      ValueSame(ds[..n], es[..n], x, y);
    }
  }
  /** The thread of replica r of element x. */
  function ThreadOf(ds: seq<Digit>, rep: nat, x: seq<int>, r: int): int
    requires AllDigits(ds, |x|) && rep < |x|
  {
    Value(ds, x[rep := r])
  }
  /** Some replica of element x is on thread th. */
  ghost predicate OnThread(ds: seq<Digit>, rep: nat, extent: int, x: seq<int>, th: int)
    requires AllDigits(ds, |x|) && rep < |x|
  {
    exists r :: 0 <= r < extent && ThreadOf(ds, rep, x, r) == th
  }
  function Reads(ds: seq<Digit>, rep: nat, r: int): seq<int>
    requires ProperDigits(ds)
  {
    seq(|ds|, k requires 0 <= k < |ds| => Read(ds[k].split, r))
  }
  lemma ReadsWanted(ds: seq<Digit>, rep: nat, r: int)
    requires ProperDigits(ds)
    ensures Wanted(ds, Reads(ds, rep, r))
  {
    forall k | 0 <= k < |ds| ensures 0 <= Reads(ds, rep, r)[k] < ds[k].split.extent { ReadRange(ds[k].split, r); }
  }

  /** Every replica of the old variable has a counterpart in the new one. */
  lemma Covered(ds: seq<Digit>, rep: nat, extent: int, x: seq<int>, r: int)
    requires AllDigits(ds, |x|) && rep < |x| && 0 <= r < extent
    ensures AllDigits(Condensed(ds, rep), |x|)
    ensures OnThread(Condensed(ds, rep), rep, Before(ds, rep, |ds|), x, ThreadOf(ds, rep, x, r))
  {
    var out := Condensed(ds, rep);
    CondensedProper(ds, rep);
    ReadsWanted(ds, rep, r);
    var q := SpellAll(out, rep, Reads(ds, rep, r), Before(ds, rep, |ds|));
    assert Digits2(ds, out, x[rep := r], x[rep := q]) by {
      forall k | 0 <= k < |ds|
        ensures ds[k].scale == out[k].scale && DigitOf(ds[k], x[rep := r]) == DigitOf(out[k], x[rep := q])
      {
        if ds[k].v == rep { assert out[k].v == rep; }
      }
    }
    ValueSame(ds, out, x[rep := r], x[rep := q]);
    assert ThreadOf(out, rep, x, q) == ThreadOf(ds, rep, x, r);
  }
  // ----- when no thread is added

  /** Replica r shows the wanted values in all of rep's digits. */
  predicate Shows(ds: seq<Digit>, rep: nat, want: seq<int>, r: int)
    requires ProperDigits(ds)
  {
    |want| == |ds| && forall k :: 0 <= k < |ds| && ds[k].v == rep ==> Read(ds[k].split, r) == want[k]
  }
  ghost predicate Shown(ds: seq<Digit>, rep: nat, extent: int, want: seq<int>)
    requires ProperDigits(ds)
  {
    exists r :: 0 <= r < extent && Shows(ds, rep, want, r)
  }
  /** Below its extent the replica variable shows every combination of its digits. */
  ghost predicate SpellsAll(ds: seq<Digit>, rep: nat, extent: int)
    requires ProperDigits(ds)
  {
    forall want :: Wanted(ds, want) ==> Shown(ds, rep, extent, want)
  }
  /** Digits that do not overlap and fit do. */
  lemma ApartSpellsAll(ds: seq<Digit>, rep: nat, extent: int)
    requires ProperDigits(ds) && RepApart(ds, rep) && RepFits(ds, rep, extent)
    ensures SpellsAll(ds, rep, extent)
  {
    forall want | Wanted(ds, want) ensures Shown(ds, rep, extent, want) {
      var r := SpellAll(ds, rep, want, extent);
      assert Shows(ds, rep, want, r);
    }
  }
  /** Every new replica has an old counterpart, when every combination is shown. */
  lemma Reached(ds: seq<Digit>, rep: nat, extent: int, x: seq<int>, q: int)
    requires AllDigits(ds, |x|) && rep < |x| && 0 <= q < Before(ds, rep, |ds|) && SpellsAll(ds, rep, extent)
    ensures AllDigits(Condensed(ds, rep), |x|)
    ensures OnThread(ds, rep, extent, x, ThreadOf(Condensed(ds, rep), rep, x, q))
  {
    var out := Condensed(ds, rep);
    CondensedProper(ds, rep);
    ReadsWanted(out, rep, q);
    assert Wanted(ds, Reads(out, rep, q));
    var r :| 0 <= r < extent && Shows(ds, rep, Reads(out, rep, q), r);
    assert Digits2(ds, out, x[rep := r], x[rep := q]) by {
      forall k | 0 <= k < |ds|
        ensures ds[k].scale == out[k].scale && DigitOf(ds[k], x[rep := r]) == DigitOf(out[k], x[rep := q])
      {
        if ds[k].v == rep { assert out[k].v == rep; }
      }
    }
    ValueSame(ds, out, x[rep := r], x[rep := q]);
    assert ThreadOf(out, rep, x, q) == ThreadOf(ds, rep, x, r);
  }

  /** Two sums with the same scales and extents. */
  predicate SameShape(ds: seq<Digit>, es: seq<Digit>) {
    |ds| == |es| && forall k :: 0 <= k < |ds| ==> ds[k].scale == es[k].scale && ds[k].split.extent == es[k].split.extent
  }
  lemma {:induction false} SameMost(ds: seq<Digit>, es: seq<Digit>)
    requires SameShape(ds, es)
    ensures Most(ds) == Most(es)
    decreases |ds|
  {
    if ds != [] {
      var n := |ds| - 1;
      assert forall k :: 0 <= k < n ==> ds[..n][k] == ds[k] && es[..n][k] == es[k];
      SameMost(ds[..n], es[..n]);
    }
  }
  lemma SamePositional(ds: seq<Digit>, es: seq<Digit>)
    requires SameShape(ds, es) && Positional(ds)
    ensures Positional(es)
  {
    forall k | 0 <= k < |es| ensures es[k].scale > Most(es[..k]) {
      assert forall i :: 0 <= i < k ==> ds[..k][i] == ds[i] && es[..k][i] == es[i];
      SameMost(ds[..k], es[..k]);
    }
  }
  lemma LastDigits(ds: seq<Digit>, es: seq<Digit>, x: seq<int>, y: seq<int>)
    requires AllDigits(ds, |x|) && AllDigits(es, |y|) && SameShape(ds, es) && Positional(ds) && ds != []
    requires Value(ds, x) == Value(es, y)
    ensures var n := |ds| - 1;
            && AllDigits(ds[..n], |x|) && AllDigits(es[..n], |y|) && Positional(ds[..n])
            && Value(ds[..n], x) == Value(es[..n], y) && DigitOf(ds[n], x) == DigitOf(es[n], y)
  {
    var n := |ds| - 1;
    SamePositional(ds, es);
    Prefix(ds, |x|);
    Prefix(es, |y|);
    ValueRange(ds[..n], x);
    ValueRange(es[..n], y);
    SamePrefix(ds, es, n);
    SameMost(ds[..n], es[..n]);
    Leading(ds[n].scale, Value(ds[..n], x), DigitOf(ds[n], x), Value(es[..n], y), DigitOf(es[n], y));
  }
  lemma SamePrefix(ds: seq<Digit>, es: seq<Digit>, n: int)
    requires SameShape(ds, es) && 0 <= n <= |ds|
    ensures SameShape(ds[..n], es[..n])
  {
    assert forall k :: 0 <= k < n ==> ds[..n][k] == ds[k] && es[..n][k] == es[k];
  }
  /** Equal values of two positional sums of the same shape come from equal digits. */
  lemma {:induction false} ValuesTell(ds: seq<Digit>, es: seq<Digit>, x: seq<int>, y: seq<int>)
    requires AllDigits(ds, |x|) && AllDigits(es, |y|) && SameShape(ds, es) && Positional(ds)
    requires Value(ds, x) == Value(es, y)
    ensures forall k :: 0 <= k < |ds| ==> DigitOf(ds[k], x) == DigitOf(es[k], y)
    decreases |ds|
  {
    if ds != [] {
      var n := |ds| - 1;
      LastDigits(ds, es, x, y);
      SamePrefix(ds, es, n);
      ValuesTell(ds[..n], es[..n], x, y);
      forall k | 0 <= k < |ds| ensures DigitOf(ds[k], x) == DigitOf(es[k], y) {
        if k < n { assert ds[..n][k] == ds[k] && es[..n][k] == es[k]; }
      }
    }
  }
  /** When no thread was added for some element, every combination is shown. */
  lemma NoneAdded(ds: seq<Digit>, rep: nat, extent: int, x: seq<int>, want: seq<int>)
    requires AllDigits(ds, |x|) && rep < |x| && Positional(ds) && Wanted(ds, want) && AllDigits(Condensed(ds, rep), |x|)
    requires forall th :: OnThread(Condensed(ds, rep), rep, Before(ds, rep, |ds|), x, th) ==>
      OnThread(ds, rep, extent, x, th)
    ensures Shown(ds, rep, extent, want)
  {
    var out := Condensed(ds, rep);
    CondensedProper(ds, rep);
    var q := SpellAll(out, rep, want, Before(ds, rep, |ds|));
    var th := ThreadOf(out, rep, x, q);
    assert OnThread(out, rep, Before(ds, rep, |ds|), x, th);
    var r :| 0 <= r < extent && ThreadOf(ds, rep, x, r) == th;
    ValuesTell(ds, out, x[rep := r], x[rep := q]);
    forall k | 0 <= k < |ds| && ds[k].v == rep ensures Read(ds[k].split, r) == want[k] {
      assert out[k].v == rep && DigitOf(ds[k], x[rep := r]) == DigitOf(out[k], x[rep := q]);
    }
    assert Shows(ds, rep, want, r);
  }

  /** Element x is on the same threads before and after. */
  ghost predicate SameThreads(ds: seq<Digit>, rep: nat, extent: int, x: seq<int>)
    requires AllDigits(ds, |x|) && rep < |x| && AllDigits(Condensed(ds, rep), |x|)
  {
    forall th :: OnThread(ds, rep, extent, x, th) <==> OnThread(Condensed(ds, rep), rep, Before(ds, rep, |ds|), x, th)
  }
  /** CondenseReplicateVar never takes an element off a thread.  It puts none on a new one when the replica's digits
      show
      every combination, as they do when they do not overlap and fit the extent; and for a positional thread expression
      only then. */
  lemma CondenseKeepsThreads(ds: seq<Digit>, rep: nat, extent: int, x: seq<int>)
    requires AllDigits(ds, |x|) && rep < |x|
    ensures AllDigits(Condensed(ds, rep), |x|)
    ensures forall th :: OnThread(ds, rep, extent, x, th) ==>
      OnThread(Condensed(ds, rep), rep, Before(ds, rep, |ds|), x, th)
    ensures SpellsAll(ds, rep, extent) ==> SameThreads(ds, rep, extent, x)
    ensures Positional(ds) ==> (SameThreads(ds, rep, extent, x) <==> SpellsAll(ds, rep, extent))
    ensures RepApart(ds, rep) && RepFits(ds, rep, extent) ==> SpellsAll(ds, rep, extent)
  {
    CondensedProper(ds, rep);
    forall th | OnThread(ds, rep, extent, x, th)
      ensures OnThread(Condensed(ds, rep), rep, Before(ds, rep, |ds|), x, th)
    {
      var r :| 0 <= r < extent && ThreadOf(ds, rep, x, r) == th;
      Covered(ds, rep, extent, x, r);
    }
    if SpellsAll(ds, rep, extent) {
      forall th | OnThread(Condensed(ds, rep), rep, Before(ds, rep, |ds|), x, th)
        ensures OnThread(ds, rep, extent, x, th)
      {
        var q :| 0 <= q < Before(ds, rep, |ds|) && ThreadOf(Condensed(ds, rep), rep, x, q) == th;
        Reached(ds, rep, extent, x, q);
      }
    }
    if Positional(ds) && SameThreads(ds, rep, extent, x) {
      forall want | Wanted(ds, want) ensures Shown(ds, rep, extent, want) { NoneAdded(ds, rep, extent, x, want); }
    }
    if RepApart(ds, rep) && RepFits(ds, rep, extent) { ApartSpellsAll(ds, rep, extent); }
  }

  /** With overlapping digits new threads appear: r % 4 + 4 * (r % 2) over r < 4 takes the values 0, 5, 2 and 7, but
      with the digits packed apart also 4. */
  lemma OverlapAddsThread()
    ensures var ds := [Digit(0, Split(1, 4), 1), Digit(0, Split(1, 2), 4)];
            && !RepApart(ds, 0)
            && !OnThread(ds, 0, 4, [0], 4) && AllDigits(Condensed(ds, 0), 1) && Before(ds, 0, 2) == 8
            && OnThread(Condensed(ds, 0), 0, 8, [0], 4)
  {
    var ds := [Digit(0, Split(1, 4), 1), Digit(0, Split(1, 2), 4)];
    assert OfRep(ds, 0, 0) && OfRep(ds, 0, 1) && !ApartPair(ds[0].split, ds[1].split);
    forall r | 0 <= r < 4 ensures ThreadOf(ds, 0, [0], r) != 4 { TwoDigits(ds, r); }
    CondensedProper(ds, 0);
    var out := Condensed(ds, 0);
    assert Before(ds, 0, 1) == 4;
    assert out[0] == Digit(0, Split(1, 4), 1) && out[1] == Digit(0, Split(4, 2), 4);
    TwoDigits(out, 4);
    assert ThreadOf(out, 0, [0], 4) == 4;
  }
  lemma TwoDigits(ds: seq<Digit>, r: int)
    requires |ds| == 2 && AllDigits(ds, 1)
    ensures Value(ds, [0][0 := r]) == ds[0].scale * Read(ds[0].split, r) + ds[1].scale * Read(ds[1].split, r)
  {
    var x := [0][0 := r];
    assert ds[..1] == [ds[0]] && ds[..1][..0] == [];
    assert Value([], x) == 0 && Value([ds[0]], x) == ds[0].scale * Read(ds[0].split, r);
  }
}
