/** Pruning the prefixes of a block's texts, and what the runs then check. */
module PrefixPruning {
  import opened CheckLines

  /** For every text of a block, the prefix sets of the runs that produced it. */
  type Runs = seq<seq<set<Prefix>>>

  ghost predicate Produced(sets: Runs) {
    forall i :: 0 <= i < |sets| ==> |sets[i]| > 0
  }

  /** The prefixes of runs that produced another text. */
  function Others(sets: Runs, i: nat): set<Prefix> {
    set j, k, p | 0 <= j < |sets| && j != i && 0 <= k < |sets[j]| && p in sets[j][k] :: p
  }

  function Pruned(sets: Runs, i: nat): (r: seq<set<Prefix>>)
    requires i < |sets|
    ensures |r| == |sets[i]|
  {
    seq(|sets[i]|, k requires 0 <= k < |sets[i]| => sets[i][k] - Others(sets, i))
  }

  function Intersection(ss: seq<set<Prefix>>): (r: set<Prefix>)
    requires |ss| > 0
    ensures forall p :: p in r <==> forall k :: 0 <= k < |ss| ==> p in ss[k]
    decreases |ss|
  {
    if |ss| == 1 then ss[0] else ss[|ss| - 1] * Intersection(ss[..|ss| - 1])
  }

  /** The first prefix of each set that has one. */
  function Firsts(ss: seq<set<Prefix>>): set<Prefix> {
    set k | 0 <= k < |ss| && ss[k] != {} :: Least(ss[k])
  }

  /** The prefixes that are kept for a text. */
  function Kept(sets: Runs, i: nat): set<Prefix>
    requires i < |sets| && Produced(sets)
  {
    var pruned := Pruned(sets, i);
    var common := Intersection(pruned);
    if common != {} then Firsts([common]) else Firsts(pruned)
  }

  function KeptLists(sets: Runs): (r: seq<seq<Prefix>>)
    requires Produced(sets)
    ensures |r| == |sets|
  {
    seq(|sets|, i requires 0 <= i < |sets| => Sorted(Kept(sets, i)))
  }

  lemma FirstsIn(ss: seq<set<Prefix>>, p: Prefix)
    ensures p in Firsts(ss) <==> exists k :: 0 <= k < |ss| && ss[k] != {} && p == Least(ss[k])
    ensures p in Firsts(ss) ==> exists k :: 0 <= k < |ss| && p in ss[k]
  {
  }

  /** A prefix is kept for a text only if some run that produced the text has it, and no run that
      produced another text does. */
  lemma KeptTellsApart(sets: Runs, i: nat, p: Prefix)
    requires i < |sets| && Produced(sets) && p in Kept(sets, i)
    ensures exists k :: 0 <= k < |sets[i]| && p in sets[i][k]
    ensures forall j, k :: 0 <= j < |sets| && j != i && 0 <= k < |sets[j]| ==> p !in sets[j][k]
  {
    var pruned := Pruned(sets, i);
    var common := Intersection(pruned);
    FirstsIn([common], p);
    FirstsIn(pruned, p);
    assert exists k :: 0 <= k < |pruned| && p in pruned[k] by {
      if common != {} {
        assert p in pruned[0];
      }
    }
    var k :| 0 <= k < |pruned| && p in pruned[k];
    assert p in sets[i][k] && p !in Others(sets, i);
  }

  /** Two texts of a block never keep the same prefix. */
  lemma KeptDisjoint(sets: Runs)
    requires Produced(sets)
    ensures Disjoint(KeptLists(sets))
  {
    var lists := KeptLists(sets);
    forall i, j, p | 0 <= i < |lists| && 0 <= j < |lists| && p in lists[i] && p in lists[j]
      ensures i == j
    {
      KeptTellsApart(sets, i, p);
      KeptTellsApart(sets, j, p);
    }
  }

  /** A run that produced a text has a prefix that is kept for the text, exactly if it has one that no
      run has which produced another text. */
  lemma CoveredIff(sets: Runs, i: nat, k: nat)
    requires i < |sets| && Produced(sets) && k < |sets[i]|
    ensures Kept(sets, i) * sets[i][k] != {} <==> sets[i][k] - Others(sets, i) != {}
  {
    var pruned := Pruned(sets, i);
    var common := Intersection(pruned);
    var s := sets[i][k] - Others(sets, i);
    assert pruned[k] == s;
    if s != {} {
      if common != {} {
        var p := Least(common);
        FirstsIn([common], p);
        assert [common][0] == common && p in pruned[k];
        assert p in Kept(sets, i) * sets[i][k];
      } else {
        var p := Least(s);
        FirstsIn(pruned, p);
        assert p in Kept(sets, i) * sets[i][k];
      }
    }
    if p :| p in Kept(sets, i) * sets[i][k] {
      KeptTellsApart(sets, i, p);
      assert p in s;
    }
  }

  /** If all runs of a text share a prefix that is theirs alone, one such prefix is kept, and no more. */
  lemma SharedKeepsOne(sets: Runs, i: nat)
    requires i < |sets| && Produced(sets) && Intersection(Pruned(sets, i)) != {}
    ensures |Kept(sets, i)| == 1 && forall k :: 0 <= k < |sets[i]| ==> Kept(sets, i) <= sets[i][k]
  {
    var pruned := Pruned(sets, i);
    var common := Intersection(pruned);
    assert [common][0] == common;
    assert Firsts([common]) == {Least(common)};
    forall k | 0 <= k < |sets[i]|
      ensures Least(common) in sets[i][k]
    {
      assert Least(common) in pruned[k];
    }
  }

  /** No run that produced another text has `p`. */
  ghost predicate TellsApart(sets: Runs, i: nat, p: Prefix) {
    forall j, k :: 0 <= j < |sets| && j != i && 0 <= k < |sets[j]| ==> p !in sets[j][k]
  }

  /** All runs that produced the text have `p`, and no others do. */
  ghost predicate Shared(sets: Runs, i: nat, p: Prefix)
    requires i < |sets|
  {
    TellsApart(sets, i, p) && forall k :: 0 <= k < |sets[i]| ==> p in sets[i][k]
  }

  /** `p` is the first prefix by which one run tells the text apart. */
  ghost predicate FirstOwn(sets: Runs, i: nat, k: nat, p: Prefix)
    requires i < |sets| && k < |sets[i]|
  {
    && p in sets[i][k] && TellsApart(sets, i, p)
    && forall q :: q in sets[i][k] && TellsApart(sets, i, q) ==> p <= q
  }

  lemma OthersIff(sets: Runs, i: nat, p: Prefix)
    ensures p in Others(sets, i) <==> !TellsApart(sets, i, p)
  {
  }

  lemma SharedIff(sets: Runs, i: nat, p: Prefix)
    requires i < |sets| && Produced(sets)
    ensures p in Intersection(Pruned(sets, i)) <==> Shared(sets, i, p)
  {
    OthersIff(sets, i, p);
    var pruned := Pruned(sets, i);
    assert pruned[0] == sets[i][0] - Others(sets, i);
    forall k | 0 <= k < |sets[i]|
      ensures p in pruned[k] <==> p in sets[i][k] && TellsApart(sets, i, p)
    {
    }
  }

  lemma FirstOwnIff(sets: Runs, i: nat, k: nat, p: Prefix)
    requires i < |sets| && k < |sets[i]|
    ensures FirstOwn(sets, i, k, p) <==> Pruned(sets, i)[k] != {} && p == Least(Pruned(sets, i)[k])
  {
    var own := Pruned(sets, i)[k];
    forall q
      ensures q in own <==> q in sets[i][k] && TellsApart(sets, i, q)
    {
      OthersIff(sets, i, q);
    }
    if own != {} {
      assert IsLeast(own, Least(own));
    }
  }

  /** What is kept for a text: the first prefix that all its runs share, if there is one, and otherwise
      the first one of every run, prefixes of other texts' runs left out. */
  lemma KeptIff(sets: Runs, i: nat, p: Prefix)
    requires i < |sets| && Produced(sets)
    ensures p in Kept(sets, i) <==>
            if exists q :: Shared(sets, i, q) then Shared(sets, i, p) && forall q :: Shared(sets, i, q) ==> p <= q
            else exists k :: 0 <= k < |sets[i]| && FirstOwn(sets, i, k, p)
  {
    hide Shared, FirstOwn, Least, Intersection, Pruned;
    var pruned := Pruned(sets, i);
    var common := Intersection(pruned);
    PrunedAt(sets, i, 0);
    forall q
      ensures q in common <==> Shared(sets, i, q)
    {
      SharedIff(sets, i, q);
    }
    if common != {} {
      var q := Least(common);
      assert [common][0] == common && Firsts([common]) == {q};
    } else {
      FirstsIn(pruned, p);
      forall k | 0 <= k < |sets[i]|
        ensures FirstOwn(sets, i, k, p) <==> pruned[k] != {} && p == Least(pruned[k])
      {
        FirstOwnIff(sets, i, k, p);
      }
    }
  }

  /** A prefix of all runs is kept for no text, if there are several. */
  lemma CommonNotKept(sets: Runs, common: Prefix)
    requires Produced(sets) && |sets| > 1
    requires forall i, k :: 0 <= i < |sets| && 0 <= k < |sets[i]| ==> common in sets[i][k]
    ensures common !in AllPrefixes(KeptLists(sets))
  {
    forall i | 0 <= i < |sets|
      ensures common !in KeptLists(sets)[i]
    {
      var j := if i == 0 then 1 else 0;
      assert common in sets[j][0];
      if common in Kept(sets, i) {
        KeptTellsApart(sets, i, common);
      }
    }
  }

  // ---------------------------------------------------------------- pruning as it is computed

  method OtherPrefixes(sets: Runs, i: nat) returns (r: set<Prefix>)
    requires i < |sets|
    ensures r == Others(sets, i)
  {
    r := {};
    var j := 0;
    while j < |sets|
      invariant 0 <= j <= |sets|
      invariant r == set a, k, p | 0 <= a < j && a != i && 0 <= k < |sets[a]| && p in sets[a][k] :: p
    {
      if j != i {
        ghost var before := r;
        var k := 0;
        while k < |sets[j]|
          invariant 0 <= k <= |sets[j]|
          invariant r == before + set b, p | 0 <= b < k && p in sets[j][b] :: p
        {
          r := r + sets[j][k];
          k := k + 1;
        }
      }
      j := j + 1;
    }
  }

  method KeptPrefixes(pruned: seq<set<Prefix>>) returns (r: set<Prefix>)
    requires |pruned| > 0
    ensures r == if Intersection(pruned) != {} then Firsts([Intersection(pruned)]) else Firsts(pruned)
  {
    var rest := pruned;
    var common := Intersection(pruned);
    if common != {} {
      rest := [common];
    }
    r := {};
    var k := 0;
    while k < |rest|
      invariant 0 <= k <= |rest|
      invariant r == set b | 0 <= b < k && rest[b] != {} :: Least(rest[b])
    {
      var s := Sorted(rest[k]);
      if s != [] {
        SortedFirst(rest[k]);
        r := r + {s[0]};
      } else {
        SortedNothing(rest[k]);
      }
      k := k + 1;
    }
  }

  lemma SortedFirst(ps: set<Prefix>)
    requires Sorted(ps) != []
    ensures ps != {} && Sorted(ps)[0] == Least(ps)
  {
  }

  lemma SortedNothing(ps: set<Prefix>)
    requires Sorted(ps) == []
    ensures ps == {}
  {
    assert forall p :: p in ps ==> p in Sorted(ps);
  }

  /** The prefixes to keep for each text of a block, in order. */
  method PruneBlock(sets: Runs) returns (kept: seq<seq<Prefix>>)
    requires Produced(sets)
    ensures kept == KeptLists(sets)
  {
    var pruned: seq<seq<set<Prefix>>> := [];
    var i := 0;
    while i < |sets|
      invariant 0 <= i <= |sets| && |pruned| == i
      invariant forall j :: 0 <= j < i ==> pruned[j] == Pruned(sets, j)
    {
      var others := OtherPrefixes(sets, i);
      pruned := pruned + [seq(|sets[i]|, k requires 0 <= k < |sets[i]| => sets[i][k] - others)];
      i := i + 1;
    }
    kept := [];
    i := 0;
    while i < |sets|
      invariant 0 <= i <= |sets| && |kept| == i
      invariant forall j :: 0 <= j < i ==> kept[j] == Sorted(Kept(sets, j))
    {
      var current := KeptPrefixes(pruned[i]);
      kept := kept + [Sorted(current)];
      i := i + 1;
    }
  }

  // ---------------------------------------------------------------- what a run checks

  /** How many of the first `n` lines the texts have in common. */
  function Commons(texts: seq<seq<Line>>, n: nat): nat
    requires Rectangular(texts, n)
  {
    if n == 0 then 0 else Commons(texts, n - 1) + if IsCommon(texts, n - 1) then 1 else 0
  }

  lemma {:induction false} CommonsBound(texts: seq<seq<Line>>, n: nat)
    requires Rectangular(texts, n)
    ensures Commons(texts, n) <= n
    ensures (exists k :: 0 <= k < n && !IsCommon(texts, k)) ==> Commons(texts, n) < n
  {
    if n > 0 {
      CommonsBound(texts, n - 1);
    }
  }

  /** Without a prefix of the block, a run checks the common lines. */
  lemma {:induction false} LayOutUncovered(texts: seq<seq<Line>>, prefixes: seq<seq<Prefix>>, common: Prefix,
                                           n: nat, ps: set<Prefix>)
    requires 0 < |texts| == |prefixes| && Rectangular(texts, n) && Disjoint(prefixes)
    requires common in ps && AllPrefixes(prefixes) !! ps
    ensures |Checked(LayOut(texts, prefixes, common, n).result, ps)| == Commons(texts, n)
    decreases n
  {
    hide Disjoint, Tagged, Flushed, AddLine, Checked;
    if n == 0 {
      NothingChecked(ps);
    } else {
      var l := LayOut(texts, prefixes, common, n - 1);
      LayOutUncovered(texts, prefixes, common, n - 1, ps);
      if IsCommon(texts, n - 1) {
        LayOutKeys(texts, prefixes, common, n - 1);
        FlushedNone(l.batch, l.batch.Keys, ps);
        CheckedConcat(l.result, Flushed(l.batch, l.batch.Keys), ps);
        EntryChecked(l.result + Flushed(l.batch, l.batch.Keys), Entry(common, texts[0][n - 1]), ps);
      }
    }
  }

  lemma {:induction false} CheckedAll(es: seq<Entry>, ps: set<Prefix>)
    requires forall i :: 0 <= i < |es| ==> es[i].prefix in ps
    ensures |Checked(es, ps)| == |es|
    decreases |es|
  {
    if es != [] {
      CheckedAll(es[..|es| - 1], ps);
    }
  }

  lemma {:induction false} FlushedTwo(b: Batch, keys: set<Prefix>, ps: set<Prefix>, p: Prefix, q: Prefix)
    requires Tagged(b) && p != q && p in ps && q in ps
    ensures |Checked(Flushed(b, keys), ps)| >= (if p in keys then |Of(b, p)| else 0) + if q in keys then |Of(b,
        q)| else 0
    decreases keys
  {
    if keys != {} {
      var x := Least(keys);
      FlushedTwo(b, keys - {x}, ps, p, q);
      CheckedConcat(Of(b, x), Flushed(b, keys - {x}), ps);
      if x == p || x == q {
        CheckedAll(Of(b, x), ps);
      }
    }
  }

  lemma FlushTwo(l: Layout, ps: set<Prefix>, p: Prefix, q: Prefix)
    requires Tagged(l.batch) && p != q && p in ps && q in ps
    ensures |Checked(l.result + Flushed(l.batch, l.batch.Keys), ps)| >=
            |Checked(l.result, ps)| + |Of(l.batch, p)| + |Of(l.batch, q)|
  {
    FlushedTwo(l.batch, l.batch.Keys, ps, p, q);
    CheckedConcat(l.result, Flushed(l.batch, l.batch.Keys), ps);
  }

  /** With two prefixes of one text, a run checks the lines twice that tell the text apart. */
  lemma {:induction false} LayOutTwice(texts: seq<seq<Line>>, prefixes: seq<seq<Prefix>>, common: Prefix, n: nat,
                                       t: nat,
                                       p: Prefix, q: Prefix, ps: set<Prefix>)
    requires 0 < |texts| == |prefixes| && Rectangular(texts, n) && Disjoint(prefixes)
    requires t < |texts| && p in prefixes[t] && q in prefixes[t] && p != q && {p, q, common} <= ps
    ensures var l := LayOut(texts, prefixes, common, n);
            |Checked(l.result, ps)| + |Of(l.batch, p)| + |Of(l.batch, q)| >= 2 * n - Commons(texts, n)
    decreases n
  {
    hide Disjoint, Tagged, Flushed, AddLine, Checked, IsCommon, Append;
    if n > 0 {
      var l := LayOut(texts, prefixes, common, n - 1);
      LayOutTwice(texts, prefixes, common, n - 1, t, p, q, ps);
      if IsCommon(texts, n - 1) {
        LayOutKeys(texts, prefixes, common, n - 1);
        FlushTwo(l, ps, p, q);
        EntryChecked(l.result + Flushed(l.batch, l.batch.Keys), Entry(common, texts[0][n - 1]), ps);
      } else {
        AddLineAt(l.batch, texts, prefixes, n - 1, |texts|, t, p);
        AddLineAt(l.batch, texts, prefixes, n - 1, |texts|, t, q);
      }
    }
  }

  /** A block of several texts that has been pruned and broken down. */
  ghost predicate Minimised(texts: seq<seq<Line>>, sets: Runs, common: Prefix, n: nat) {
    && |texts| == |sets| > 1 && Produced(sets)
    && 0 < n && Rectangular(texts, n)
    && (forall i, k :: 0 <= i < |sets| && 0 <= k < |sets[i]| ==> common in sets[i][k])
    && BreakDown(texts, KeptLists(sets), common, n) != []
  }

  lemma OwnPrefixes(sets: Runs, i: nat, k: nat, p: Prefix)
    requires Produced(sets) && i < |sets| && k < |sets[i]|
    ensures p in sets[i][k] && p in AllPrefixes(KeptLists(sets)) ==> p in Kept(sets, i) * sets[i][k]
  {
    if p in sets[i][k] && p in AllPrefixes(KeptLists(sets)) {
      var j :| 0 <= j < |sets| && p in KeptLists(sets)[j];
      KeptTellsApart(sets, j, p);
    }
  }

  /** A run with one kept prefix checks its text, the whole of it and nothing else. */
  lemma RunChecksItsText(texts: seq<seq<Line>>, sets: Runs, common: Prefix, n: nat, i: nat, k: nat, p: Prefix)
    requires Minimised(texts, sets, common, n) && i < |sets| && k < |sets[i]|
    requires Kept(sets, i) * sets[i][k] == {p}
    ensures Checked(BreakDown(texts, KeptLists(sets), common, n), sets[i][k]) == texts[i][..n]
  {
    KeptDisjoint(sets);
    CommonNotKept(sets, common);
    var lists := KeptLists(sets);
    assert p in Kept(sets, i) * sets[i][k];
    forall q | q in sets[i][k] && q in AllPrefixes(lists)
      ensures q == p
    {
      OwnPrefixes(sets, i, k, q);
    }
    BreakDownChecked(texts, lists, common, n, i, p, sets[i][k]);
  }

  lemma RunMissesLines(texts: seq<seq<Line>>, sets: Runs, common: Prefix, n: nat, i: nat, k: nat)
    requires Minimised(texts, sets, common, n) && i < |sets| && k < |sets[i]|
    requires Kept(sets, i) * sets[i][k] == {}
    ensures |Checked(BreakDown(texts, KeptLists(sets), common, n), sets[i][k])| == Commons(texts, n)
  {
    hide Kept;
    var lists, ps := KeptLists(sets), sets[i][k];
    var l := LayOut(texts, lists, common, n);
    KeptDisjoint(sets);
    LayOutKeys(texts, lists, common, n);
    forall q | q in AllPrefixes(lists)
      ensures q !in ps
    {
      OwnPrefixes(sets, i, k, q);
    }
    LayOutUncovered(texts, lists, common, n, ps);
    FlushedNone(l.batch, l.batch.Keys, ps);
    CheckedConcat(l.result, Flushed(l.batch, l.batch.Keys), ps);
  }

  lemma RunRepeatsLines(texts: seq<seq<Line>>, sets: Runs, common: Prefix, n: nat, i: nat, k: nat, p: Prefix, q: Prefix)
    requires Minimised(texts, sets, common, n) && i < |sets| && k < |sets[i]|
    requires p != q && {p, q} <= Kept(sets, i) * sets[i][k]
    ensures |Checked(BreakDown(texts, KeptLists(sets), common, n), sets[i][k])| >= 2 * n - Commons(texts, n)
  {
    hide Kept, Disjoint, Tagged, Checked, LayOut;
    var lists, ps := KeptLists(sets), sets[i][k];
    var l := LayOut(texts, lists, common, n);
    KeptDisjoint(sets);
    LayOutKeys(texts, lists, common, n);
    assert p in {p, q} && q in {p, q};
    assert p in lists[i] && q in lists[i];
    LayOutTwice(texts, lists, common, n, i, p, q, ps);
    FlushTwo(l, ps, p, q);
  }

  /** If the texts differ at all, that is the only way: without a kept prefix the run misses lines,
      with two it checks lines twice. */
  lemma RunChecksItsTextIff(texts: seq<seq<Line>>, sets: Runs, common: Prefix, n: nat, i: nat, k: nat)
    requires Minimised(texts, sets, common, n) && i < |sets| && k < |sets[i]|
    requires exists j, t :: 0 <= j < n && 0 <= t < |texts| && texts[t][j] != texts[0][j]
    ensures Checked(BreakDown(texts, KeptLists(sets), common, n), sets[i][k]) == texts[i][..n] <==>
            exists p :: Kept(sets, i) * sets[i][k] == {p}
  {
    hide BreakDown, Checked, Kept, KeptLists;
    SomeLineTold(texts, n);
    CommonsBound(texts, n);
    var own := Kept(sets, i) * sets[i][k];
    if own == {} {
      RunMissesLines(texts, sets, common, n, i, k);
    } else {
      var p :| p in own;
      if own == {p} {
        RunChecksItsText(texts, sets, common, n, i, k, p);
      } else {
        var q :| q in own && q != p;
        RunRepeatsLines(texts, sets, common, n, i, k, p, q);
      }
    }
  }

  /** Of the sets' first prefixes, the `k`-th set has none but its own. */
  ghost predicate OwnFirst(ss: seq<set<Prefix>>, k: nat)
    requires k < |ss| && ss[k] != {}
  {
    forall m :: 0 <= m < |ss| && ss[m] != {} && Least(ss[m]) in ss[k] ==> Least(ss[m]) == Least(ss[k])
  }

  /** Whether a run keeps one prefix shows in the pruned sets: it must have a prefix left, and unless
      all runs of its text share one, the first prefix of any of them that it has must be its own
      first prefix. */
  lemma KeepsOneIff(sets: Runs, i: nat, k: nat)
    requires i < |sets| && Produced(sets) && k < |sets[i]|
    ensures (exists p :: Kept(sets, i) * sets[i][k] == {p}) <==>
            var pruned := Pruned(sets, i);
            pruned[k] != {} && (Intersection(pruned) != {} || OwnFirst(pruned, k))
  {
    hide Kept, Least, Pruned;
    var own := Kept(sets, i) * sets[i][k];
    CoveredIff(sets, i, k);
    PrunedAt(sets, i, k);
    if Pruned(sets, i)[k] != {} {
      if Intersection(Pruned(sets, i)) != {} {
        SharedKeepsOne(sets, i);
        SingleElement(Kept(sets, i));
        assert own == Kept(sets, i);
      } else {
        KeptFirsts(sets, i, k);
        if p :| own == {p} {
          assert forall q :: q in own ==> q == p;
        } else {
          var q := Least(Pruned(sets, i)[k]);
          assert own != {q} && q in own;
        }
      }
    }
  }

  lemma PrunedAt(sets: Runs, i: nat, k: nat)
    requires i < |sets| && k < |sets[i]|
    ensures |Pruned(sets, i)| == |sets[i]| && Pruned(sets, i)[k] == sets[i][k] - Others(sets, i)
  {
  }

  lemma SingleElement(s: set<Prefix>)
    requires |s| == 1
    ensures exists p :: s == {p}
  {
    var p :| p in s;
    assert |s - {p}| == 0;
    assert s == {p};
  }

  /** Without a shared prefix, what a run keeps are the first prefixes that it has. */
  lemma KeptFirsts(sets: Runs, i: nat, k: nat)
    requires i < |sets| && Produced(sets) && k < |sets[i]|
    requires Intersection(Pruned(sets, i)) == {} && Pruned(sets, i)[k] != {}
    ensures var pruned, own := Pruned(sets, i), Kept(sets, i) * sets[i][k];
            && Least(pruned[k]) in own
            && (forall q :: q in own ==>
                  exists m :: 0 <= m < |pruned| && pruned[m] != {} && q == Least(pruned[m]) && q in pruned[k])
            && (forall m :: 0 <= m < |pruned| && pruned[m] != {} && Least(pruned[m]) in pruned[k] ==>
                  Least(pruned[m]) in own)
  {
    hide Least;
    var pruned := Pruned(sets, i);
    forall q
      ensures q in Firsts(pruned) <==> exists m :: 0 <= m < |pruned| && pruned[m] != {} && q == Least(pruned[m])
    {
      FirstsIn(pruned, q);
    }
    forall m | 0 <= m < |pruned| && pruned[m] != {}
      ensures Least(pruned[m]) in Firsts(pruned) && Least(pruned[m]) !in Others(sets, i)
    {
      LeastIn(pruned[m]);
      FirstsIn(pruned, Least(pruned[m]));
    }
    LeastIn(pruned[k]);
  }

  lemma LeastIn(ps: set<Prefix>)
    requires ps != {}
    ensures Least(ps) in ps
  {
  }

  /** Three runs that share prefixes pairwise. */
  const PAIRWISE: Runs := [[{0, 1, 2}, {0, 2, 3}, {0, 1, 3}], [{0, 4}]]

  lemma PairwisePruned()
    ensures Pruned(PAIRWISE, 0) == [{1, 2}, {2, 3}, {1, 3}]
  {
    assert PAIRWISE[1][0] == {0, 4};
    var o := Others(PAIRWISE, 0);
    assert o == {0, 4};
    var s := PAIRWISE[0];
    assert s[0] - o == {1, 2} && s[1] - o == {2, 3} && s[2] - o == {1, 3};
  }

  lemma FirstsOfThree(a: set<Prefix>, b: set<Prefix>, c: set<Prefix>)
    requires a != {} && b != {} && c != {}
    ensures Firsts([a, b, c]) == {Least(a), Least(b), Least(c)}
  {
    hide Least;
    var ss := [a, b, c];
    assert ss[0] == a && ss[1] == b && ss[2] == c;
  }

  lemma SharedByThree(a: set<Prefix>, b: set<Prefix>, c: set<Prefix>)
    ensures Intersection([a, b, c]) == a * b * c
  {
    var ss := [a, b, c];
    assert ss[0] == a && ss[1] == b && ss[2] == c;
  }

  /** The first of the three keeps two prefixes for its text. */
  lemma PairwiseKeepsTwo()
    ensures Produced(PAIRWISE) && Kept(PAIRWISE, 0) * PAIRWISE[0][0] == {1, 2}
  {
    hide Pruned, Least, Firsts, Intersection;
    PairwisePruned();
    FirstsOfThree({1, 2}, {2, 3}, {1, 3});
    SharedByThree({1, 2}, {2, 3}, {1, 3});
    LeastIs({1, 2}, 1);
    LeastIs({2, 3}, 2);
    LeastIs({1, 3}, 1);
    assert Kept(PAIRWISE, 0) == {1, 2};
  }

  lemma LeastIs(ps: set<Prefix>, p: Prefix)
    requires IsLeast(ps, p)
    ensures Least(ps) == p
  {
    var l := Least(ps);
    assert IsLeast(ps, l) && l <= p;
    assert p <= l;
  }
}
