/** That the lockset propagation ends. On an arbitrary graph, it runs for ever exactly if acquires come to
    take each other's locks in a circle; the graph of a program has none to form it of. */
module LockTermination {
  import opened FiniteSets
  import opened LockFixpoint
  import opened Locksets
  import opened Recurrence
  import opened Worklists

  // ---------------------------------------------------------------- acquires that wear each other out

  /** The acquire `u` leads to the acquire `v` and does not hold its lock. */
  ghost predicate Robs(c: Cfg, l: State, u: Stmt, v: Stmt) {
    u != v && u in l.held && v in Next(c, u) && v !in Get(l.held, u)
  }

  ghost predicate Robbed(c: Cfg, l: State, w: set<Stmt>, v: Stmt) {
    exists u :: u in w && Robs(c, l, u, v)
  }

  /** Acquires of which each is robbed by another. */
  ghost predicate Circle(c: Cfg, l: State, w: set<Stmt>) {
    w != {} && w <= c.acquires && forall v {:trigger Robbed(c, l, w, v)} :: v in w ==> Robbed(c, l, w, v)
  }

  // ---------------------------------------------------------------- a circle never comes to rest

  /** The round of the last visit of `s`, counted from one. */
  function Last(c: Cfg, n: nat, s: Stmt): nat {
    if n == 0 then 0
    else
      var l := Rounds(c, n - 1);
      if l.work != [] && l.work[0] == s then n else Last(c, n - 1, s)
  }

  lemma {:induction false} LastBounded(c: Cfg, n: nat, s: Stmt)
    ensures Last(c, n, s) <= n
  {
    hide Visit;
    if n > 0 {
      LastBounded(c, n - 1, s);
    }
  }

  /** The round that robs `v` is still to come, or `v` has been visited since. */
  ghost predicate Answered(c: Cfg, n: nat, u: Stmt, v: Stmt) {
    var l := Rounds(c, n);
    u in c.acquires && v in c.acquires && Robs(c, l, u, v) ==>
      u in l.work || v in l.work || Last(c, n, u) < Last(c, n, v)
  }

  lemma MarkQueues(c: Cfg, l: State, tgr: Stmt, src: Stmt)
    requires Sane(c, l) && Ready(c, l, src) && tgr in c.acquires && tgr !in Get(l.held, src)
    ensures tgr in Mark(l, tgr, src).work
  {
    MarkKeepsOthers(l, tgr, src);
  }

  lemma {:induction false} MarkAllQueues(c: Cfg, l: State, tgrs: seq<Stmt>, src: Stmt, v: Stmt)
    requires Sane(c, l) && Ready(c, l, src) && v in c.acquires && v !in Get(l.held, src)
    ensures v in l.work || v in tgrs ==> v in MarkAll(l, tgrs, src).work
    decreases |tgrs|
  {
    hide Mark, Sane, Ready;
    if tgrs != [] {
      MarkSane(c, l, tgrs[0], src);
      MarkKeepsOthers(l, tgrs[0], src);
      if v == tgrs[0] {
        MarkQueues(c, l, v, src);
      }
      MarkAllQueues(c, Mark(l, tgrs[0], src), tgrs[1..], src, v);
    }
  }

  /** Who loses a lock or is new is queued. */
  lemma {:induction false} MarkAllChanges(l: State, tgrs: seq<Stmt>, src: Stmt, u: Stmt)
    ensures var m := MarkAll(l, tgrs, src);
            && (forall x :: x in l.work ==> x in m.work)
            && (u in m.work || (Get(m.held, u) == Get(l.held, u) && (u in m.held <==> u in l.held)))
    decreases |tgrs|
  {
    hide Mark;
    if tgrs != [] {
      MarkChanges(l, tgrs[0], src, u);
      MarkAllChanges(Mark(l, tgrs[0], src), tgrs[1..], src, u);
    }
  }

  lemma MarkChanges(l: State, tgr: Stmt, src: Stmt, u: Stmt)
    ensures var m := Mark(l, tgr, src);
            && (forall x :: x in l.work ==> x in m.work)
            && (u in m.work || (Get(m.held, u) == Get(l.held, u) && (u in m.held <==> u in l.held)))
  {
    MarkKeepsOthers(l, tgr, src);
  }

  /** What a visit does to a statement: `b` is visited, and stays as it is; others that change are
      queued. */
  lemma VisitChanges(c: Cfg, l: State, u: Stmt)
    requires WellFormed(c) && Sane(c, l) && l.work != []
    ensures var b, m := l.work[0], Visit(c, l);
            && (forall x :: x in l.work && x != b ==> x in m.work)
            && (u == b || u in m.work || (Get(m.held, u) == Get(l.held, u) && (u in m.held <==> u in l.held)))
  {
    hide Sane, Taken, Visit;
    var b := l.work[0];
    VisitUnfolds(c, l);
    TakenAt(c, l);
    assert forall x :: x in l.work <==> x == b || x in l.work[1..];
    if b !in c.releases {
      MarkAllChanges(Taken(c, l), Next(c, b), b, u);
    }
  }

  /** The visited acquire robs whom it leads to, unless it holds the lock. */
  lemma VisitQueues(c: Cfg, l: State, v: Stmt)
    requires WellFormed(c) && Sane(c, l) && l.work != []
    requires l.work[0] in c.acquires && v in c.acquires && Robs(c, Visit(c, l), l.work[0], v)
    ensures v in Visit(c, l).work || l.work[0] in Visit(c, l).work
  {
    hide Sane, Taken, Visit;
    var b := l.work[0];
    VisitUnfolds(c, l);
    TakenSane(c, l);
    MarkAllChanges(Taken(c, l), Next(c, b), b, b);
    if b !in Visit(c, l).work {
      MarkAllQueues(c, Taken(c, l), Next(c, b), b, v);
    }
  }

  lemma {:induction false} AlwaysAnswered(c: Cfg, n: nat, u: Stmt, v: Stmt)
    requires WellFormed(c)
    ensures Answered(c, n, u, v)
  {
    hide Visit, Sane;
    if n > 0 {
      AlwaysAnswered(c, n - 1, u, v);
      RoundsSane(c, n - 1);
      LastBounded(c, n - 1, u);
      var l := Rounds(c, n - 1);
      if l.work != [] {
        VisitChanges(c, l, u);
        if l.work[0] == u && u in c.acquires && v in c.acquires && Robs(c, Visit(c, l), u, v) {
          VisitQueues(c, l, v);
        }
      }
    }
  }

  lemma {:induction false} EarliestVisited(c: Cfg, n: nat, w: set<Stmt>) returns (v: Stmt)
    requires w != {}
    ensures v in w && forall u :: u in w ==> Last(c, n, v) <= Last(c, n, u)
    decreases w
  {
    var x :| x in w;
    v := x;
    if w != {x} {
      v := EarliestVisited(c, n, w - {x});
      if Last(c, n, x) < Last(c, n, v) {
        v := x;
      }
    }
  }

  /** While there is a circle, the queue is not empty. */
  lemma CircleTurns(c: Cfg, n: nat, w: set<Stmt>)
    requires WellFormed(c) && Circle(c, Rounds(c, n), w)
    ensures Rounds(c, n).work != []
  {
    hide Rounds, Last, Robs;
    var v := EarliestVisited(c, n, w);
    assert Robbed(c, Rounds(c, n), w, v);
    var u :| u in w && Robs(c, Rounds(c, n), u, v);
    AlwaysAnswered(c, n, u, v);
  }

  lemma RobsOn(c: Cfg, i: nat, j: nat, u: Stmt, v: Stmt)
    requires WellFormed(c) && i <= j && Robs(c, Rounds(c, i), u, v)
    ensures Robs(c, Rounds(c, j), u, v)
  {
    hide Rounds;
    LocksetsShrink(c, i, j, u);
  }

  /** Once there, it stays. */
  lemma CircleStays(c: Cfg, i: nat, j: nat, w: set<Stmt>)
    requires WellFormed(c) && i <= j && Circle(c, Rounds(c, i), w)
    ensures Circle(c, Rounds(c, j), w)
  {
    hide Rounds, Robs;
    forall v | v in w
      ensures Robbed(c, Rounds(c, j), w, v)
    {
      assert Robbed(c, Rounds(c, i), w, v);
      var u :| u in w && Robs(c, Rounds(c, i), u, v);
      RobsOn(c, i, j, u, v);
    }
  }

  lemma {:induction false} StaysEnded(c: Cfg, n: nat, k: nat)
    requires n <= k && Rounds(c, n).work == []
    ensures Rounds(c, k) == Rounds(c, n)
    decreases k
  {
    hide Visit;
    if n < k {
      StaysEnded(c, n, k - 1);
    }
  }

  lemma CircleNeverEnds(c: Cfg, n: nat, w: set<Stmt>, k: nat)
    requires WellFormed(c) && Circle(c, Rounds(c, n), w)
    ensures Rounds(c, k).work != []
  {
    hide Rounds, Circle;
    var m := if n < k then k else n;
    CircleStays(c, n, m, w);
    CircleTurns(c, m, w);
    if Rounds(c, k).work == [] {
      StaysEnded(c, k, m);
    }
  }

  // ---------------------------------------------------------------- a run that never ends has a circle

  function Head(c: Cfg, k: nat): Stmt {
    var work := Rounds(c, k).work;
    if work == [] then 0 else work[0]
  }

  function Heads(c: Cfg): nat -> Stmt {
    (k: nat) => Head(c, k)
  }

  ghost predicate NeverEnds(c: Cfg) {
    forall k: nat :: Rounds(c, k).work != []
  }

  /** What a statement can still lose, its own lock aside. */
  ghost function Cost(c: Cfg, l: State, s: Stmt): nat {
    if s in l.held then |Get(l.held, s) - Own(c, s)|
    else |c.acquires| + if s in l.work then 1 else 2
  }

  lemma CutCost(held: set<Stmt>, cut: set<Stmt>, own: set<Stmt>)
    requires cut <= held
    ensures |cut - own| <= |held - own|
    ensures |cut - own| < |held - own| || held - own == cut - own
  {
    SubsetSize(cut - own, held - own);
    if cut - own != held - own {
      SmallerSet(cut - own, held - own);
    }
  }

  /** ... and whether it waits. */
  ghost function Burden(c: Cfg, l: State, s: Stmt): nat {
    Cost(c, l, s) + if s in l.work then 1 else 0
  }

  lemma SourceLocks(c: Cfg, l: State, src: Stmt)
    requires LocksAreAcquires(c, l)
    ensures Get(l.held, src) <= c.acquires
  {
  }

  lemma FirstMarkBurden(c: Cfg, l: State, tgr: Stmt, src: Stmt)
    requires LocksAreAcquires(c, l) && tgr !in l.held
    ensures Burden(c, Mark(l, tgr, src), tgr) <= Burden(c, l, tgr)
  {
    hide LocksAreAcquires, Cover, Put;
    SourceLocks(c, l, src);
    MarkKeepsOthers(l, tgr, src);
    if Get(l.held, src) != {} {
      SubsetSize(Get(l.held, src) - Own(c, tgr), c.acquires);
    }
  }

  lemma LaterMarkBurden(c: Cfg, l: State, tgr: Stmt, src: Stmt)
    requires tgr in l.held && (tgr !in c.acquires || tgr in Get(l.held, src))
    ensures Burden(c, Mark(l, tgr, src), tgr) <= Burden(c, l, tgr)
  {
    hide Cover, Put;
    MarkKeepsOthers(l, tgr, src);
    var held, cut := Get(l.held, tgr), Get(Mark(l, tgr, src).held, tgr);
    CutCost(held, cut, Own(c, tgr));
    if held - Own(c, tgr) == cut - Own(c, tgr) {
      forall k | k in held
        ensures k in Get(l.held, src)
      {
        assert k in cut || k in Own(c, tgr) by {
          assert k in held - Own(c, tgr) ==> k in cut - Own(c, tgr);
        }
      }
    }
  }

  lemma {:induction false} MarkAllBurden(c: Cfg, l: State, tgrs: seq<Stmt>, src: Stmt, s: Stmt)
    requires Sane(c, l) && Ready(c, l, src)
    requires s !in tgrs || s !in c.acquires || s in Get(l.held, src)
    ensures Burden(c, MarkAll(l, tgrs, src), s) <= Burden(c, l, s)
    decreases |tgrs|
  {
    hide Mark, Ready, Burden;
    if tgrs != [] {
      MarkBurden(c, l, tgrs[0], src, s);
      MarkSane(c, l, tgrs[0], src);
      MarkAllBurden(c, Mark(l, tgrs[0], src), tgrs[1..], src, s);
    }
  }

  lemma MarkBurden(c: Cfg, l: State, tgr: Stmt, src: Stmt, s: Stmt)
    requires Sane(c, l)
    requires s != tgr || s !in c.acquires || s in Get(l.held, src)
    ensures Burden(c, Mark(l, tgr, src), s) <= Burden(c, l, s)
  {
    hide Mark;
    MarkKeepsOthers(l, tgr, src);
    if s == tgr && tgr in l.held {
      LaterMarkBurden(c, l, tgr, src);
    } else if s == tgr {
      FirstMarkBurden(c, l, tgr, src);
    }
  }

  /** The next round visits another acquire, or no acquire, that leads to the acquire `s` and does not
      hold its lock. */
  ghost predicate Threatened(c: Cfg, l: State, s: Stmt)
    requires l.work != []
  {
    var b := l.work[0];
    s in c.acquires && b !in c.releases && b != s && s in Next(c, b) && s !in Get(l.held, b)
  }

  lemma TakenBurden(c: Cfg, l: State, s: Stmt)
    requires Sane(c, l) && l.work != []
    ensures Burden(c, Taken(c, l), s) + (if l.work[0] == s then 1 else 0) <= Burden(c, l, s)
  {
    hide Taken;
    TakenAt(c, l);
    var b, m := l.work[0], Taken(c, l);
    assert forall x :: x in l.work <==> x == b || x in l.work[1..];
    if s == b {
      assert Get(m.held, s) - Own(c, s) == Get(l.held, s) - Own(c, s);
      if s !in l.held {
        assert Get(m.held, s) - Own(c, s) == {};
      }
    } else {
      assert Get(m.held, s) == Get(l.held, s);
    }
  }

  lemma VisitBurden(c: Cfg, l: State, s: Stmt)
    requires WellFormed(c) && Sane(c, l) && l.work != [] && !Threatened(c, l, s)
    ensures Burden(c, Visit(c, l), s) + (if l.work[0] == s then 1 else 0) <= Burden(c, l, s)
  {
    hide Taken, Sane, Burden, Visit;
    var b := l.work[0];
    VisitUnfolds(c, l);
    TakenSane(c, l);
    TakenAt(c, l);
    TakenBurden(c, l, s);
    if b !in c.releases {
      MarkAllBurden(c, Taken(c, l), Next(c, b), b, s);
    }
  }

  lemma ThreatRobs(c: Cfg, l: State, s: Stmt)
    requires WellFormed(c) && Sane(c, l) && l.work != [] && Threatened(c, l, s)
    ensures s in c.acquires && Robs(c, Visit(c, l), l.work[0], s)
  {
    hide Taken, Sane, Visit;
    var b := l.work[0];
    VisitUnfolds(c, l);
    TakenAt(c, l);
    MarkAllShrinks(Taken(c, l), Next(c, b), b, b);
  }

  /** Whoever recurs is threatened again and again. */
  lemma ThreatenedAgain(c: Cfg, s: Stmt, n: nat) returns (k: nat)
    requires WellFormed(c) && NeverEnds(c) && Recurs(Heads(c), s)
    ensures n <= k && Threatened(c, Rounds(c, k), s)
  {
    hide Rounds, Threatened, Visit, Sane, WellFormed;
    var h := Heads(c);
    var q: nat -> int := (k: nat) => 0 - Burden(c, Rounds(c, k), s);
    if forall k: nat :: n <= k ==> !Threatened(c, Rounds(c, k), s) {
      forall k: nat | n <= k
        ensures q(k) + (if h(k) == s then 1 else 0) <= q(k + 1)
      {
        RoundsSane(c, k);
        RoundsNext(c, k);
        VisitBurden(c, Rounds(c, k), s);
      }
      NoPotential(h, s, q, n, 0);
      assert false;
    }
    k :| n <= k && Threatened(c, Rounds(c, k), s);
  }

  lemma RoundsNext(c: Cfg, n: nat)
    requires Rounds(c, n).work != []
    ensures Rounds(c, n + 1) == Visit(c, Rounds(c, n))
  {
    hide Visit;
  }

  ghost function Statements(c: Cfg): set<Stmt> {
    (set s | s in c.entries) + (set s, t | s in c.next && t in c.next[s] :: t)
  }

  lemma {:induction false} MarkAllWithin(l: State, tgrs: seq<Stmt>, src: Stmt, u: set<Stmt>)
    requires (forall s :: s in l.work ==> s in u) && forall s :: s in tgrs ==> s in u
    ensures forall s :: s in MarkAll(l, tgrs, src).work ==> s in u
    decreases |tgrs|
  {
    hide Mark;
    if tgrs != [] {
      MarkKeepsOthers(l, tgrs[0], src);
      MarkAllWithin(Mark(l, tgrs[0], src), tgrs[1..], src, u);
    }
  }

  lemma {:induction false} RoundsWithin(c: Cfg, n: nat)
    requires WellFormed(c)
    ensures forall s :: s in Rounds(c, n).work ==> s in Statements(c)
  {
    hide Visit, Sane, Taken;
    if n == 0 {
      PushAllNoDuplicates([], c.entries);
    } else {
      RoundsWithin(c, n - 1);
      RoundsSane(c, n - 1);
      var l := Rounds(c, n - 1);
      if l.work != [] {
        VisitUnfolds(c, l);
        TakenAt(c, l);
        MarkAllWithin(Taken(c, l), Next(c, l.work[0]), l.work[0], Statements(c));
      }
    }
  }

  /** From round `n` on, only what recurs is visited. */
  ghost predicate RecurringFrom(c: Cfg, n: nat, r: set<Stmt>) {
    && (forall k: nat :: n <= k ==> Head(c, k) in r)
    && (forall s :: s in r ==> Recurs(Heads(c), s))
  }

  lemma RecurringHeads(c: Cfg) returns (n: nat, r: set<Stmt>)
    requires WellFormed(c) && NeverEnds(c)
    ensures RecurringFrom(c, n, r)
  {
    hide Rounds, Statements, Recurs, WellFormed;
    n := EventuallyRecurring(Heads(c), Statements(c), Statements(c));
    r := Recurring(Heads(c), Statements(c));
    forall k: nat | n <= k
      ensures Head(c, k) in r
    {
      RoundsWithin(c, k);
      assert Heads(c)(k) in Statements(c);
    }
  }

  lemma Robber(c: Cfg, n: nat, r: set<Stmt>, s: Stmt) returns (k: nat, u: Stmt)
    requires WellFormed(c) && NeverEnds(c) && RecurringFrom(c, n, r) && s in r
    ensures u in r && s in c.acquires && Robs(c, Rounds(c, k), u, s)
  {
    hide Rounds, Threatened, Visit, Sane, WellFormed, Recurs;
    k := ThreatenedAgain(c, s, n);
    u := Head(c, k);
    RoundsSane(c, k);
    RoundsNext(c, k);
    ThreatRobs(c, Rounds(c, k), s);
    k := k + 1;
  }

  /** From some round on, all of `ss` are robbed. */
  lemma {:induction false} AllRobbed(c: Cfg, n: nat, r: set<Stmt>, ss: set<Stmt>) returns (k: nat)
    requires WellFormed(c) && NeverEnds(c) && RecurringFrom(c, n, r) && ss <= r
    ensures ss <= c.acquires
    ensures forall s {:trigger Robbed(c, Rounds(c, k), r, s)} :: s in ss ==> Robbed(c, Rounds(c, k), r, s)
    decreases ss
  {
    hide Rounds, Robs, WellFormed, RecurringFrom, NeverEnds;
    k := 0;
    if s :| s in ss {
      var i := AllRobbed(c, n, r, ss - {s});
      var j, u := Robber(c, n, r, s);
      k := if i < j then j else i;
      RobsOn(c, j, k, u, s);
      forall v | v in ss - {s}
        ensures Robbed(c, Rounds(c, k), r, v)
      {
        assert Robbed(c, Rounds(c, i), r, v);
        var x :| x in r && Robs(c, Rounds(c, i), x, v);
        RobsOn(c, i, k, x, v);
      }
    }
  }

  lemma NeverEndingTurns(c: Cfg) returns (n: nat, w: set<Stmt>)
    requires WellFormed(c) && NeverEnds(c)
    ensures Circle(c, Rounds(c, n), w)
  {
    hide Rounds, Robbed, WellFormed, Recurs, NeverEnds;
    var m;
    m, w := RecurringHeads(c);
    n := AllRobbed(c, m, w, w);
    assert Head(c, m) in w;
  }

  // ---------------------------------------------------------------- the analysis ends

  ghost predicate NeverCircles(c: Cfg) {
    forall n: nat, w :: !Circle(c, Rounds(c, n), w)
  }

  lemma EndedNeverCircles(c: Cfg, k: nat)
    requires WellFormed(c) && Rounds(c, k).work == []
    ensures NeverCircles(c)
  {
    hide Rounds, Circle, WellFormed;
    forall n: nat, w
      ensures !Circle(c, Rounds(c, n), w)
    {
      if Circle(c, Rounds(c, n), w) {
        CircleNeverEnds(c, n, w, k);
      }
    }
  }

  /** On an arbitrary graph, whether or not a program has it, the analysis ends exactly if no circle ever
      forms. */
  lemma EndsIff(c: Cfg)
    requires WellFormed(c)
    ensures (exists k: nat :: Rounds(c, k).work == []) <==> NeverCircles(c)
  {
    hide Rounds, Circle, WellFormed;
    if k: nat :| Rounds(c, k).work == [] {
      EndedNeverCircles(c, k);
    } else {
      var n, w := NeverEndingTurns(c);
      assert !NeverCircles(c);
    }
  }

  /** Acquires of which each follows another directly. */
  ghost predicate Chained(c: Cfg, w: set<Stmt>) {
    w != {} && w <= c.acquires && forall v {:trigger Follows(c, w, v)} :: v in w ==> Follows(c, w, v)
  }

  ghost predicate Follows(c: Cfg, w: set<Stmt>, v: Stmt) {
    exists u :: u in w && u != v && v in Next(c, u)
  }

  lemma CircleIsChain(c: Cfg, l: State, w: set<Stmt>)
    requires Circle(c, l, w)
    ensures Chained(c, w)
  {
    hide Next;
    forall v | v in w
      ensures Follows(c, w, v)
    {
      assert Robbed(c, l, w, v);
    }
  }

  // ---------------------------------------------------------------- programs

  /** `at` is where acquires stand in their blocks. An acquire is a call instruction, hence no terminator,
      and the only statement that it marks is the one behind it in its block. */
  ghost predicate InBlocks(c: Cfg, at: map<Stmt, nat>) {
    && c.acquires <= at.Keys
    && forall u, v :: u in c.acquires && v in c.acquires && v in Next(c, u) ==> at[u] < at[v]
  }

  ghost predicate AcquiresAreCalls(c: Cfg) {
    exists at :: InBlocks(c, at)
  }

  lemma {:induction false} FirstInBlock(at: map<Stmt, nat>, w: set<Stmt>) returns (v: Stmt)
    requires w != {} && w <= at.Keys
    ensures v in w && forall u :: u in w ==> at[v] <= at[u]
    decreases w
  {
    v :| v in w;
    if u :| u in w && at[u] < at[v] {
      var rest := set x | x in w && at[x] < at[v];
      assert v in w && v !in rest && u in rest;
      v := FirstInBlock(at, rest);
    }
  }

  /** Statements of a block do not follow each other in a circle. */
  lemma NoChain(c: Cfg, w: set<Stmt>)
    requires AcquiresAreCalls(c)
    ensures !Chained(c, w)
  {
    var at :| InBlocks(c, at);
    if w != {} && w <= c.acquires {
      var v := FirstInBlock(at, w);
      assert !Follows(c, w, v);
    }
  }

  /** So on every program the analysis ends. */
  lemma Ends(c: Cfg)
    requires WellFormed(c) && AcquiresAreCalls(c)
    ensures exists k: nat :: Rounds(c, k).work == []
  {
    hide Rounds, Robs, Chained, WellFormed, AcquiresAreCalls;
    forall n: nat, w
      ensures !Circle(c, Rounds(c, n), w)
    {
      NoChain(c, w);
      if Circle(c, Rounds(c, n), w) {
        CircleIsChain(c, Rounds(c, n), w);
      }
    }
    EndsIff(c);
  }
}
