/** Minimising check lines: which prefixes stay on the texts of a block, and the layout of a block
    whose texts are told apart line by line. */
module CheckLines {

  type Line = string

  /** A prefix stands for its place in alphabetical order. */
  type Prefix = nat

  /** A line to be checked under a prefix. */
  datatype Entry = Entry(prefix: Prefix, line: Line)

  type Batch = map<Prefix, seq<Entry>>

  // ---------------------------------------------------------------- sorted lists of prefixes

  ghost predicate IsLeast(ps: set<Prefix>, p: Prefix) {
    p in ps && forall q :: q in ps ==> p <= q
  }

  lemma {:induction false} LeastExists(ps: set<Prefix>)
    requires ps != {}
    ensures exists p :: IsLeast(ps, p)
    decreases ps
  {
    var x :| x in ps;
    var rest := ps - {x};
    assert forall y :: y in ps ==> y == x || y in rest;
    if rest == {} {
      assert IsLeast(ps, x);
    } else {
      LeastExists(rest);
      var q :| IsLeast(rest, q);
      assert IsLeast(ps, if q < x then q else x);
    }
  }

  function Least(ps: set<Prefix>): (p: Prefix)
    requires ps != {}
    ensures IsLeast(ps, p)
  {
    LeastExists(ps);
    assert exists p :: p in ps && forall q :: q in ps ==> p <= q by {
      var q :| IsLeast(ps, q);
      assert q in ps;
    }
    var p :| p in ps && forall q :: q in ps ==> p <= q;
    p
  }

  ghost predicate Ascending(s: seq<Prefix>) {
    forall i, j :: 0 <= i < j < |s| ==> s[i] < s[j]
  }

  function Sorted(ps: set<Prefix>): (s: seq<Prefix>)
    ensures Ascending(s) && forall p :: p in s <==> p in ps
    decreases ps
  {
    if ps == {} then []
    else
      var p := Least(ps);
      [p] + Sorted(ps - {p})
  }

  // ---------------------------------------------------------------- lines told apart

  /** The prefixes whose lines are batched: each text goes with its own. */
  function AllPrefixes(prefixes: seq<seq<Prefix>>): set<Prefix> {
    set i, p | 0 <= i < |prefixes| && p in prefixes[i] :: p
  }

  predicate IsCommon(texts: seq<seq<Line>>, k: nat)
    requires forall i :: 0 <= i < |texts| ==> k < |texts[i]|
  {
    forall i, j :: 0 <= i < |texts| && 0 <= j < |texts| ==> texts[i][k] == texts[j][k]
  }

  /** Appends line `k` of the texts from `i` on to the batches of their prefixes. */
  function AddPrefixes(b: Batch, ps: seq<Prefix>, l: Line): Batch
    decreases |ps|
  {
    if ps == [] then b else AddPrefixes(Append(b, ps[0], l), ps[1..], l)
  }

  function Of(b: Batch, p: Prefix): seq<Entry> {
    if p in b then b[p] else []
  }

  function Append(b: Batch, p: Prefix, l: Line): (r: Batch)
    ensures forall q {:trigger Of(r, q)} :: Of(r, q) == if q == p then Of(b, p) + [Entry(p, l)] else Of(b, q)
    ensures r.Keys == b.Keys + {p}
  {
    b[p := Of(b, p) + [Entry(p, l)]]
  }

  /** Batches line `k` of the first `n` texts. */
  function AddLine(b: Batch, texts: seq<seq<Line>>, prefixes: seq<seq<Prefix>>, k: nat, n: nat): Batch
    requires n <= |texts| == |prefixes| && forall i :: 0 <= i < |texts| ==> k < |texts[i]|
  {
    if n == 0 then b else AddPrefixes(AddLine(b, texts, prefixes, k, n - 1), prefixes[n - 1], texts[n - 1][k])
  }

  /** The batches one prefix at a time, in order. */
  function Flushed(b: Batch, ps: set<Prefix>): seq<Entry>
    decreases ps
  {
    if ps == {} then []
    else
      var p := Least(ps);
      Of(b, p) + Flushed(b, ps - {p})
  }

  /** Output and batches after `n` lines. */
  datatype Layout = Layout(result: seq<Entry>, batch: Batch)

  ghost predicate Rectangular(texts: seq<seq<Line>>, n: nat) {
    forall i :: 0 <= i < |texts| ==> |texts[i]| >= n
  }

  function LayOut(texts: seq<seq<Line>>, prefixes: seq<seq<Prefix>>, common: Prefix, n: nat): Layout
    requires 0 < |texts| == |prefixes| && Rectangular(texts, n)
  {
    if n == 0 then Layout([], map[])
    else
      var l := LayOut(texts, prefixes, common, n - 1);
      if IsCommon(texts, n - 1) then
        Layout(l.result + Flushed(l.batch, l.batch.Keys) + [Entry(common, texts[0][n - 1])], map[])
      else
        Layout(l.result, AddLine(l.batch, texts, prefixes, n - 1, |texts|))
  }

  /** The layout of a block, or nothing if it is not to be broken down. */
  function BreakDown(texts: seq<seq<Line>>, prefixes: seq<seq<Prefix>>, common: Prefix, n: nat): seq<Entry>
    requires 0 < |texts| == |prefixes| && 0 < n && Rectangular(texts, n)
  {
    if !IsCommon(texts, 0) then []
    else if prefixes[0] == [] && exists k :: 0 <= k < n && !IsCommon(texts, k) then []
    else
      var l := LayOut(texts, prefixes, common, n);
      l.result + Flushed(l.batch, l.batch.Keys)
  }

  // ---------------------------------------------------------------- what a prefix checks

  /** The lines checked under any of `ps`, in order. */
  function Checked(es: seq<Entry>, ps: set<Prefix>): seq<Line>
    decreases |es|
  {
    if es == [] then []
    else
      var k := |es| - 1;
      Checked(es[..k], ps) + if es[k].prefix in ps then [es[k].line] else []
  }

  lemma {:induction false} CheckedConcat(a: seq<Entry>, b: seq<Entry>, ps: set<Prefix>)
    ensures Checked(a + b, ps) == Checked(a, ps) + Checked(b, ps)
    decreases |b|
  {
    if b == [] {
      assert a + b == a;
    } else {
      var k := |b| - 1;
      assert (a + b)[..|a| + k] == a + b[..k];
      CheckedConcat(a, b[..k], ps);
    }
  }

  lemma CheckedOne(e: Entry, ps: set<Prefix>)
    ensures Checked([e], ps) == if e.prefix in ps then [e.line] else []
  {
    assert [e][..0] == [];
  }

  /** Each batch holds entries of its own prefix. */
  ghost predicate Tagged(b: Batch) {
    forall p, i :: p in b && 0 <= i < |b[p]| ==> b[p][i].prefix == p
  }

  lemma {:induction false} CheckedOthers(es: seq<Entry>, ps: set<Prefix>)
    requires forall i :: 0 <= i < |es| ==> es[i].prefix !in ps
    ensures Checked(es, ps) == []
    decreases |es|
  {
    if es != [] {
      CheckedOthers(es[..|es| - 1], ps);
    }
  }

  lemma OtherBatch(b: Batch, q: Prefix, ps: set<Prefix>)
    requires Tagged(b) && q !in ps
    ensures Checked(Of(b, q), ps) == []
  {
    CheckedOthers(Of(b, q), ps);
  }

  /** Whatever else is flushed, a set of prefixes that meets the flushed ones in `p` alone checks the
      batch of `p`. */
  lemma {:induction false} FlushedChecked(b: Batch, keys: set<Prefix>, ps: set<Prefix>, p: Prefix)
    requires Tagged(b) && p in ps && forall q :: q in keys && q in ps ==> q == p
    ensures Checked(Flushed(b, keys), ps) == if p in keys then Checked(Of(b, p), ps) else []
    decreases keys
  {
    hide Checked, Tagged;
    if keys == {} {
      NothingChecked(ps);
    } else {
      var q := Least(keys);
      FlushedChecked(b, keys - {q}, ps, p);
      CheckedConcat(Of(b, q), Flushed(b, keys - {q}), ps);
      if q != p {
        OtherBatch(b, q, ps);
      }
    }
  }

  ghost predicate Distinct(s: seq<Prefix>) {
    forall i, j :: 0 <= i < j < |s| ==> s[i] != s[j]
  }

  /** No prefix belongs to two texts, or twice to one. */
  ghost predicate Disjoint(prefixes: seq<seq<Prefix>>) {
    && (forall i :: 0 <= i < |prefixes| ==> Distinct(prefixes[i]))
    && (forall i, j, p :: 0 <= i < |prefixes| && 0 <= j < |prefixes| && p in prefixes[i] && p in prefixes[j] ==> i == j)
  }

  lemma {:induction false} AddPrefixesAt(b: Batch, ps: seq<Prefix>, l: Line, p: Prefix)
    requires Distinct(ps)
    ensures Of(AddPrefixes(b, ps, l), p) == Of(b, p) + if p in ps then [Entry(p, l)] else []
    ensures p in AddPrefixes(b, ps, l) <==> p in b || p in ps
    decreases |ps|
  {
    if ps != [] {
      AddPrefixesAt(Append(b, ps[0], l), ps[1..], l, p);
    }
  }

  lemma Owner(prefixes: seq<seq<Prefix>>, t: nat, i: nat, p: Prefix)
    requires Disjoint(prefixes) && t < |prefixes| && i < |prefixes| && p in prefixes[t]
    ensures (p in prefixes[i] <==> i == t) && Distinct(prefixes[i])
  {
  }

  lemma {:induction false} AddLineAt(b: Batch, texts: seq<seq<Line>>, prefixes: seq<seq<Prefix>>, k: nat, n: nat,
                                     t: nat, p: Prefix)
    requires n <= |texts| == |prefixes| && Rectangular(texts, k + 1) && Disjoint(prefixes)
    requires t < |texts| && p in prefixes[t]
    ensures Of(AddLine(b, texts, prefixes, k, n), p) == Of(b, p) + if t < n then [Entry(p, texts[t][k])] else []
    ensures p in AddLine(b, texts, prefixes, k, n) <==> p in b || t < n
    decreases n
  {
    hide Disjoint, Distinct, AddPrefixes;
    if n > 0 {
      AddLineAt(b, texts, prefixes, k, n - 1, t, p);
      Owner(prefixes, t, n - 1, p);
      AddPrefixesAt(AddLine(b, texts, prefixes, k, n - 1), prefixes[n - 1], texts[n - 1][k], p);
    }
  }

  lemma {:induction false} AddLineElsewhere(b: Batch, texts: seq<seq<Line>>, prefixes: seq<seq<Prefix>>, k: nat,
                                            n: nat, p: Prefix)
    requires n <= |texts| == |prefixes| && Rectangular(texts, k + 1) && Disjoint(prefixes)
    ensures p in AddLine(b, texts, prefixes, k, n) ==> p in b || p in AllPrefixes(prefixes)
    decreases n
  {
    if n > 0 {
      AddLineElsewhere(b, texts, prefixes, k, n - 1, p);
      AddPrefixesAt(AddLine(b, texts, prefixes, k, n - 1), prefixes[n - 1], texts[n - 1][k], p);
    }
  }

  lemma {:induction false} AddPrefixesTagged(b: Batch, ps: seq<Prefix>, l: Line)
    requires Tagged(b)
    ensures Tagged(AddPrefixes(b, ps, l))
    decreases |ps|
  {
    if ps != [] {
      AddPrefixesTagged(Append(b, ps[0], l), ps[1..], l);
    }
  }

  lemma {:induction false} AddLineTagged(b: Batch, texts: seq<seq<Line>>, prefixes: seq<seq<Prefix>>, k: nat, n: nat)
    requires n <= |texts| == |prefixes| && Rectangular(texts, k + 1) && Tagged(b)
    ensures Tagged(AddLine(b, texts, prefixes, k, n))
    decreases n
  {
    if n > 0 {
      AddLineTagged(b, texts, prefixes, k, n - 1);
      AddPrefixesTagged(AddLine(b, texts, prefixes, k, n - 1), prefixes[n - 1], texts[n - 1][k]);
    }
  }

  /** Batches hold only prefixes of the texts, each with entries of its own. */
  lemma {:induction false} LayOutKeys(texts: seq<seq<Line>>, prefixes: seq<seq<Prefix>>, common: Prefix, n: nat)
    requires 0 < |texts| == |prefixes| && Rectangular(texts, n) && Disjoint(prefixes)
    ensures var b := LayOut(texts, prefixes, common, n).batch;
            Tagged(b) && b.Keys <= AllPrefixes(prefixes)
    decreases n
  {
    if n > 0 {
      LayOutKeys(texts, prefixes, common, n - 1);
      var b := LayOut(texts, prefixes, common, n - 1).batch;
      AddLineTagged(b, texts, prefixes, n - 1, |texts|);
      forall p
        ensures p in AddLine(b, texts, prefixes, n - 1, |texts|) ==> p in b || p in AllPrefixes(prefixes)
      {
        AddLineElsewhere(b, texts, prefixes, n - 1, |texts|, p);
      }
    }
  }

  /** A run that checks the common prefix and just one prefix of the block. */
  ghost predicate OnlyOne(prefixes: seq<seq<Prefix>>, common: Prefix, ps: set<Prefix>, p: Prefix) {
    && common in ps && p in ps && common !in AllPrefixes(prefixes)
    && forall q :: q in ps && q in AllPrefixes(prefixes) ==> q == p
  }

  lemma FlushChecked(l: Layout, prefixes: seq<seq<Prefix>>, common: Prefix, p: Prefix, ps: set<Prefix>)
    requires Tagged(l.batch) && l.batch.Keys <= AllPrefixes(prefixes) && OnlyOne(prefixes, common, ps, p)
    ensures Checked(l.result + Flushed(l.batch, l.batch.Keys), ps) == Checked(l.result, ps) + Checked(Of(l.batch,
        p), ps)
  {
    FlushedChecked(l.batch, l.batch.Keys, ps, p);
    CheckedConcat(l.result, Flushed(l.batch, l.batch.Keys), ps);
  }

  lemma EntryChecked(es: seq<Entry>, e: Entry, ps: set<Prefix>)
    requires e.prefix in ps
    ensures Checked(es + [e], ps) == Checked(es, ps) + [e.line]
  {
    CheckedConcat(es, [e], ps);
    CheckedOne(e, ps);
  }

  lemma {:induction false} LayOutChecked(texts: seq<seq<Line>>, prefixes: seq<seq<Prefix>>, common: Prefix, n: nat,
                                         t: nat, p: Prefix, ps: set<Prefix>)
    requires 0 < |texts| == |prefixes| && Rectangular(texts, n) && Disjoint(prefixes)
    requires t < |texts| && p in prefixes[t] && OnlyOne(prefixes, common, ps, p)
    ensures var l := LayOut(texts, prefixes, common, n);
            Checked(l.result, ps) + Checked(Of(l.batch, p), ps) == texts[t][..n]
    decreases n
  {
    hide Disjoint, Tagged, Flushed, AddLine, Checked;
    if n == 0 {
      NothingChecked(ps);
    } else {
      var l := LayOut(texts, prefixes, common, n - 1);
      LayOutChecked(texts, prefixes, common, n - 1, t, p, ps);
      assert texts[t][..n] == texts[t][..n - 1] + [texts[t][n - 1]];
      if IsCommon(texts, n - 1) {
        LayOutKeys(texts, prefixes, common, n - 1);
        FlushChecked(l, prefixes, common, p, ps);
        EntryChecked(l.result + Flushed(l.batch, l.batch.Keys), Entry(common, texts[0][n - 1]), ps);
        NothingChecked(ps);
      } else {
        AddLineAt(l.batch, texts, prefixes, n - 1, |texts|, t, p);
        EntryChecked(Of(l.batch, p), Entry(p, texts[t][n - 1]), ps);
      }
    }
  }

  lemma NothingChecked(ps: set<Prefix>)
    ensures Checked([], ps) == []
  {
  }

  /** When a block is broken down, whoever checks the common prefix and one prefix of a text checks
      exactly the lines of that text. */
  lemma BreakDownChecked(texts: seq<seq<Line>>, prefixes: seq<seq<Prefix>>, common: Prefix, n: nat,
                         t: nat, p: Prefix, ps: set<Prefix>)
    requires 0 < |texts| == |prefixes| && 0 < n && Rectangular(texts, n) && Disjoint(prefixes)
    requires t < |texts| && p in prefixes[t] && OnlyOne(prefixes, common, ps, p)
    requires BreakDown(texts, prefixes, common, n) != []
    ensures Checked(BreakDown(texts, prefixes, common, n), ps) == texts[t][..n]
  {
    var l := LayOut(texts, prefixes, common, n);
    LayOutChecked(texts, prefixes, common, n, t, p, ps);
    LayOutKeys(texts, prefixes, common, n);
    FlushChecked(l, prefixes, common, p, ps);
  }

  /** The form for one prefix: keeping what is tagged with it or is common gives back the text. */
  lemma PrefixGivesText(texts: seq<seq<Line>>, prefixes: seq<seq<Prefix>>, common: Prefix, n: nat, t: nat, p: Prefix)
    requires 0 < |texts| == |prefixes| && 0 < n && Rectangular(texts, n) && Disjoint(prefixes)
    requires t < |texts| && p in prefixes[t] && common !in AllPrefixes(prefixes)
    requires BreakDown(texts, prefixes, common, n) != []
    ensures Checked(BreakDown(texts, prefixes, common, n), {p, common}) == texts[t][..n]
  {
    BreakDownChecked(texts, prefixes, common, n, t, p, {p, common});
  }

  lemma {:induction false} LayOutStarts(texts: seq<seq<Line>>, prefixes: seq<seq<Prefix>>, common: Prefix, n: nat)
    requires 0 < |texts| == |prefixes| && Rectangular(texts, n) && 0 < n && IsCommon(texts, 0)
    ensures var r := LayOut(texts, prefixes, common, n).result; r != [] && r[0] == Entry(common, texts[0][0])
    decreases n
  {
    if n == 1 {
      var l := LayOut(texts, prefixes, common, 0);
      assert l == Layout([], map[]);
      assert LayOut(texts, prefixes, common, 1).result == [] + Flushed(map[], {}) + [Entry(common, texts[0][0])];
    } else {
      LayOutStarts(texts, prefixes, common, n - 1);
    }
  }

  /** Exactly two things keep a block from being broken down: texts that differ in their first line,
      and lines to be told apart while the first text has no prefix. */
  lemma BreakDownEmptyIff(texts: seq<seq<Line>>, prefixes: seq<seq<Prefix>>, common: Prefix, n: nat)
    requires 0 < |texts| == |prefixes| && 0 < n && Rectangular(texts, n)
    ensures BreakDown(texts, prefixes, common, n) == [] <==>
            || (exists i :: 0 <= i < |texts| && texts[i][0] != texts[0][0])
            || (prefixes[0] == [] && exists i, k :: 0 <= i < |texts| && 0 <= k < n && texts[i][k] != texts[0][k])
  {
    hide IsCommon, LayOut;
    SomeLineTold(texts, n);
    CommonIffAgrees(texts, 0);
    if IsCommon(texts, 0) {
      LayOutStarts(texts, prefixes, common, n);
    }
  }

  lemma SomeLineTold(texts: seq<seq<Line>>, n: nat)
    requires 0 < |texts| && Rectangular(texts, n)
    ensures (exists k :: 0 <= k < n && !IsCommon(texts, k)) <==>
            exists i, k :: 0 <= i < |texts| && 0 <= k < n && texts[i][k] != texts[0][k]
  {
    hide IsCommon;
    forall k | 0 <= k < n
      ensures IsCommon(texts, k) <==> AgreesAt(texts, k)
    {
      CommonIffAgrees(texts, k);
    }
    if k :| 0 <= k < n && !IsCommon(texts, k) {
      var i :| 0 <= i < |texts| && texts[i][k] != texts[0][k];
    }
    if i, k :| 0 <= i < |texts| && 0 <= k < n && texts[i][k] != texts[0][k] {
      assert !AgreesAt(texts, k);
    }
  }

  // ---------------------------------------------------------------- where the lines go

  ghost predicate AgreesAt(texts: seq<seq<Line>>, k: nat)
    requires Rectangular(texts, k + 1)
  {
    forall i :: 0 <= i < |texts| ==> texts[i][k] == texts[0][k]
  }

  lemma CommonIffAgrees(texts: seq<seq<Line>>, k: nat)
    requires Rectangular(texts, k + 1)
    ensures IsCommon(texts, k) <==> AgreesAt(texts, k)
  {
  }

  /** The lines on which all texts agree, in order. */
  ghost function AgreedLines(texts: seq<seq<Line>>, n: nat): seq<Line>
    requires 0 < |texts| && Rectangular(texts, n)
  {
    if n == 0 then []
    else AgreedLines(texts, n - 1) + if AgreesAt(texts, n - 1) then [texts[0][n - 1]] else []
  }

  lemma {:induction false} FlushedNone(b: Batch, keys: set<Prefix>, ps: set<Prefix>)
    requires Tagged(b) && keys !! ps
    ensures Checked(Flushed(b, keys), ps) == []
    decreases keys
  {
    if keys != {} {
      var q := Least(keys);
      FlushedNone(b, keys - {q}, ps);
      CheckedConcat(Of(b, q), Flushed(b, keys - {q}), ps);
      CheckedOthers(Of(b, q), ps);
    }
  }

  lemma {:induction false} LayOutCommon(texts: seq<seq<Line>>, prefixes: seq<seq<Prefix>>, common: Prefix, n: nat)
    requires 0 < |texts| == |prefixes| && Rectangular(texts, n) && Disjoint(prefixes)
    requires common !in AllPrefixes(prefixes)
    ensures Checked(LayOut(texts, prefixes, common, n).result, {common}) == AgreedLines(texts, n)
    decreases n
  {
    hide Disjoint, Tagged, Flushed, AddLine, Checked, IsCommon, AgreesAt;
    if n == 0 {
      NothingChecked({common});
    } else {
      var l := LayOut(texts, prefixes, common, n - 1);
      LayOutCommon(texts, prefixes, common, n - 1);
      CommonIffAgrees(texts, n - 1);
      if IsCommon(texts, n - 1) {
        LayOutKeys(texts, prefixes, common, n - 1);
        FlushedNone(l.batch, l.batch.Keys, {common});
        CheckedConcat(l.result, Flushed(l.batch, l.batch.Keys), {common});
        EntryChecked(l.result + Flushed(l.batch, l.batch.Keys), Entry(common, texts[0][n - 1]), {common});
      }
    }
  }

  /** What goes out under the common prefix is exactly what all texts agree on. */
  lemma CommonLines(texts: seq<seq<Line>>, prefixes: seq<seq<Prefix>>, common: Prefix, n: nat)
    requires 0 < |texts| == |prefixes| && 0 < n && Rectangular(texts, n) && Disjoint(prefixes)
    requires common !in AllPrefixes(prefixes) && BreakDown(texts, prefixes, common, n) != []
    ensures Checked(BreakDown(texts, prefixes, common, n), {common}) == AgreedLines(texts, n)
  {
    hide Disjoint, Tagged, Flushed, Checked;
    var l := LayOut(texts, prefixes, common, n);
    LayOutCommon(texts, prefixes, common, n);
    LayOutKeys(texts, prefixes, common, n);
    FlushedNone(l.batch, l.batch.Keys, {common});
    CheckedConcat(l.result, Flushed(l.batch, l.batch.Keys), {common});
  }

  /** From one line that all texts agree on to the next, prefixes follow in alphabetical order. */
  ghost predicate InOrder(es: seq<Entry>, common: Prefix) {
    forall i :: 0 <= i < |es| - 1 && es[i].prefix != common && es[i + 1].prefix != common ==>
      es[i].prefix <= es[i + 1].prefix
  }

  ghost predicate Rising(es: seq<Entry>) {
    forall i, j :: 0 <= i < j < |es| ==> es[i].prefix <= es[j].prefix
  }

  /** Batches go out one prefix after the other, and each whole. */
  lemma {:induction false} FlushedRises(b: Batch, keys: set<Prefix>)
    requires Tagged(b) && keys <= b.Keys
    ensures Rising(Flushed(b, keys)) && forall i :: 0 <= i < |Flushed(b, keys)| ==> Flushed(b, keys)[i].prefix in keys
    decreases keys
  {
    if keys != {} {
      var q := Least(keys);
      FlushedRises(b, keys - {q});
      var first: seq<Entry>, rest: seq<Entry> := Of(b, q), Flushed(b, keys - {q});
      forall i | 0 <= i < |first + rest|
        ensures (first + rest)[i].prefix in keys && (i < |first| ==> (first + rest)[i].prefix == q)
      {
      }
    }
  }

  lemma OrderedAppend(es: seq<Entry>, fs: seq<Entry>, common: Prefix)
    requires InOrder(es, common) && Rising(fs) && (es == [] || es[|es| - 1].prefix == common)
    ensures InOrder(es + fs, common)
  {
    var gs := es + fs;
    forall i | 0 <= i < |gs| - 1 && gs[i].prefix != common && gs[i + 1].prefix != common
      ensures gs[i].prefix <= gs[i + 1].prefix
    {
      if i + 1 < |es| {
        assert gs[i] == es[i] && gs[i + 1] == es[i + 1];
      } else if |es| <= i {
        assert gs[i] == fs[i - |es|] && gs[i + 1] == fs[i + 1 - |es|];
      }
    }
  }

  lemma OrderedSync(es: seq<Entry>, common: Prefix, line: Line)
    requires InOrder(es, common)
    ensures InOrder(es + [Entry(common, line)], common)
  {
    var gs := es + [Entry(common, line)];
    forall i | 0 <= i < |gs| - 1 && gs[i].prefix != common && gs[i + 1].prefix != common
      ensures gs[i].prefix <= gs[i + 1].prefix
    {
      assert gs[i] == es[i] && gs[i + 1] == es[i + 1];
    }
  }

  lemma {:induction false} LayOutOrdered(texts: seq<seq<Line>>, prefixes: seq<seq<Prefix>>, common: Prefix, n: nat)
    requires 0 < |texts| == |prefixes| && Rectangular(texts, n) && Disjoint(prefixes)
    ensures var r := LayOut(texts, prefixes, common, n).result;
            InOrder(r, common) && (r == [] || r[|r| - 1].prefix == common)
    decreases n
  {
    hide Disjoint, Tagged, Flushed, AddLine, IsCommon, InOrder, Rising;
    if n == 0 {
      NothingOrdered(common);
    } else {
      var l := LayOut(texts, prefixes, common, n - 1);
      LayOutOrdered(texts, prefixes, common, n - 1);
      if IsCommon(texts, n - 1) {
        LayOutKeys(texts, prefixes, common, n - 1);
        FlushedRises(l.batch, l.batch.Keys);
        OrderedAppend(l.result, Flushed(l.batch, l.batch.Keys), common);
        OrderedSync(l.result + Flushed(l.batch, l.batch.Keys), common, texts[0][n - 1]);
      }
    }
  }

  lemma NothingOrdered(common: Prefix)
    ensures InOrder([], common)
  {
  }

  /** In a block that is broken down, lines are told apart one prefix at a time, from one line that
      all texts agree on to the next. */
  lemma BreakDownOrdered(texts: seq<seq<Line>>, prefixes: seq<seq<Prefix>>, common: Prefix, n: nat)
    requires 0 < |texts| == |prefixes| && 0 < n && Rectangular(texts, n) && Disjoint(prefixes)
    ensures InOrder(BreakDown(texts, prefixes, common, n), common)
  {
    hide Disjoint, Tagged, Flushed, InOrder, Rising;
    var l := LayOut(texts, prefixes, common, n);
    NothingOrdered(common);
    LayOutOrdered(texts, prefixes, common, n);
    LayOutKeys(texts, prefixes, common, n);
    FlushedRises(l.batch, l.batch.Keys);
    OrderedAppend(l.result, Flushed(l.batch, l.batch.Keys), common);
  }

  // ---------------------------------------------------------------- the layout as it is computed

  method FlushBatch(result: seq<Entry>, batch: Batch) returns (r: seq<Entry>)
    ensures r == result + Flushed(batch, batch.Keys)
  {
    hide Sorted, Flushed, Ascending;
    r := result;
    var keys := Sorted(batch.Keys);
    SortedFlushed(batch, batch.Keys);
    var i := 0;
    while i < |keys|
      invariant 0 <= i <= |keys|
      invariant r + FlushedSeq(batch, keys[i..]) == result + Flushed(batch, batch.Keys)
    {
      assert keys[i..][1..] == keys[i + 1..];
      assert keys[i] in keys && keys[i] in batch.Keys;
      assert r + (Of(batch, keys[i]) + FlushedSeq(batch, keys[i + 1..])) == r + Of(batch,
          keys[i]) + FlushedSeq(batch, keys[i + 1..]);
      r := r + batch[keys[i]];
      i := i + 1;
    }
  }

  function FlushedSeq(b: Batch, ps: seq<Prefix>): seq<Entry>
    decreases |ps|
  {
    if ps == [] then [] else Of(b, ps[0]) + FlushedSeq(b, ps[1..])
  }

  lemma {:induction false} SortedFlushed(b: Batch, ps: set<Prefix>)
    ensures FlushedSeq(b, Sorted(ps)) == Flushed(b, ps)
    decreases ps
  {
    if ps != {} {
      var p := Least(ps);
      SortedFlushed(b, ps - {p});
      assert ([p] + Sorted(ps - {p}))[1..] == Sorted(ps - {p});
    }
  }

  method BatchLine(batch: Batch, texts: seq<seq<Line>>, prefixes: seq<seq<Prefix>>, k: nat) returns (b: Batch)
    requires |texts| == |prefixes| && Rectangular(texts, k + 1)
    ensures b == AddLine(batch, texts, prefixes, k, |texts|)
  {
    b := batch;
    var i := 0;
    while i < |texts|
      invariant 0 <= i <= |texts|
      invariant b == AddLine(batch, texts, prefixes, k, i)
    {
      var j := 0;
      var ps, l := prefixes[i], texts[i][k];
      ghost var goal := AddPrefixes(b, ps, l);
      assert ps[0..] == ps;
      while j < |ps|
        invariant 0 <= j <= |ps|
        invariant AddPrefixes(b, ps[j..], l) == goal
      {
        assert ps[j..][1..] == ps[j + 1..];
        b := b[ps[j] := (if ps[j] in b then b[ps[j]] else []) + [Entry(ps[j], l)]];
        j := j + 1;
      }
      i := i + 1;
    }
  }

  /** `n` is the number of lines of the shortest text. */
  method BreakDownBlock(texts: seq<seq<Line>>, prefixes: seq<seq<Prefix>>, common: Prefix,
                        n: nat) returns (r: seq<Entry>)
    requires 0 < |texts| == |prefixes| && 0 < n && Rectangular(texts, n)
    ensures r == BreakDown(texts, prefixes, common, n)
  {
    if !IsCommon(texts, 0) {
      return [];
    }
    r := [];
    var batch: Batch := map[];
    var k := 0;
    while k < n
      invariant 0 <= k <= n
      invariant Layout(r, batch) == LayOut(texts, prefixes, common, k)
      invariant prefixes[0] == [] ==> forall j :: 0 <= j < k ==> IsCommon(texts, j)
    {
      if IsCommon(texts, k) {
        r := FlushBatch(r, batch);
        batch := map[];
        r := r + [Entry(common, texts[0][k])];
      } else {
        if prefixes[0] == [] {
          return [];
        }
        batch := BatchLine(batch, texts, prefixes, k);
      }
      k := k + 1;
    }
    r := FlushBatch(r, batch);
  }
}
