/** What the lockset propagation computes: the invariants of its rounds, the one step that can
    make a lockset too large, and the greatest fixpoint that it ends in otherwise. */
module LockFixpoint {
  import opened Locksets
  import opened Worklists

  ghost predicate WellFormed(c: Cfg) {
    c.acquires !! c.releases
  }

  function Own(c: Cfg, s: Stmt): set<Stmt> {
    if s in c.acquires then {s} else {}
  }

  ghost predicate Reached(l: State, s: Stmt) {
    s in l.held || s in l.work
  }

  // ---------------------------------------------------------------- invariants of every run

  /** Locks are statements that acquire and that have been visited. */
  ghost predicate LocksAreAcquires(c: Cfg, l: State) {
    forall s, k :: k in Get(l.held, s) ==> k in c.acquires && k in l.held
  }

  /** Whoever holds a lock holds everything that was held where the lock was acquired. */
  ghost predicate Dominated(l: State) {
    forall s, k :: k in Get(l.held, s) ==> Get(l.held, k) <= Get(l.held, s)
  }

  /** An acquiring statement has its own lock, except while it waits to be visited. */
  ghost predicate OwnLock(c: Cfg, l: State) {
    && (forall s :: s in l.work && s in c.acquires ==> s !in Get(l.held, s))
    && (forall s :: s in l.held && s !in l.work && s in c.acquires ==> s in Get(l.held, s))
  }

  ghost predicate Sane(c: Cfg, l: State) {
    LocksAreAcquires(c, l) && Dominated(l) && OwnLock(c, l) && NoDuplicates(l.work) && SpansCover(l)
  }

  /** `s` has been visited and may now mark its successors. */
  ghost predicate Ready(c: Cfg, l: State, s: Stmt) {
    s in l.held && s !in l.work && s !in c.releases
  }

  lemma MarkKeepsOthers(l: State, tgr: Stmt, src: Stmt)
    ensures var m := Mark(l, tgr, src);
            && (forall x :: x != tgr ==> Get(m.held, x) == Get(l.held, x) && (x in m.held <==> x in l.held))
            && (forall x :: x in m.work <==> x in l.work || (x == tgr && tgr in m.work))
            && (tgr in l.held ==> tgr in m.held && Get(m.held, tgr) == Get(l.held, tgr) * Get(l.held, src))
            && (tgr !in l.held ==> Get(m.held, tgr) == Get(l.held, src) && tgr in m.work)
            && (tgr in m.held <==> tgr in l.held || Get(l.held, src) != {})
  {
  }

  lemma MarkSane(c: Cfg, l: State, tgr: Stmt, src: Stmt)
    requires Sane(c, l) && Ready(c, l, src)
    ensures Sane(c, Mark(l, tgr, src))
    ensures Ready(c, Mark(l, tgr, src), src) && Get(Mark(l, tgr, src).held, src) == Get(l.held, src)
  {
    var m := Mark(l, tgr, src);
    MarkKeepsOthers(l, tgr, src);
    MarkCovers(l, tgr, src);
    if tgr in l.held && !(Get(l.held, tgr) <= Get(l.held, src)) {
      assert tgr !in Get(m.held, tgr);
    }
  }

  lemma {:induction false} MarkAllSane(c: Cfg, l: State, tgrs: seq<Stmt>, src: Stmt)
    requires Sane(c, l) && Ready(c, l, src)
    ensures Sane(c, MarkAll(l, tgrs, src))
    decreases |tgrs|
  {
    if tgrs != [] {
      MarkSane(c, l, tgrs[0], src);
      MarkAllSane(c, Mark(l, tgrs[0], src), tgrs[1..], src);
    }
  }

  /** The visited statement, taken off the queue and, if it acquires, holding its own lock. */
  function Taken(c: Cfg, l: State): State
    requires l.work != []
  {
    var s := l.work[0];
    var m := Touch(l.(work := l.work[1..]), s);
    if s in c.acquires && s !in Get(l.held, s) then AddToSpan(m, s, s) else m
  }

  lemma TakenAt(c: Cfg, l: State)
    requires l.work != []
    ensures var s, m := l.work[0], Taken(c, l);
            && m.work == l.work[1..] && m.held.Keys == l.held.Keys + {s}
            && forall x :: Get(m.held, x) == Get(l.held, x) + if x == s then Own(c, s) else {}
  {
  }

  lemma TakenSane(c: Cfg, l: State)
    requires WellFormed(c) && Sane(c, l) && l.work != []
    ensures Sane(c, Taken(c, l)) && l.work[0] in Taken(c, l).held && l.work[0] !in Taken(c, l).work
  {
    hide Taken, SpansCover;
    TakenAt(c, l);
    TakenSpans(c, l);
    var m := Taken(c, l);
    assert forall x :: x in l.work <==> x == l.work[0] || x in l.work[1..];
    assert LocksAreAcquires(c, m);
    assert Dominated(m);
  }

  lemma TakenSpans(c: Cfg, l: State)
    requires l.work != [] && SpansCover(l)
    ensures SpansCover(Taken(c, l))
  {
    var s := l.work[0];
    AddRemoveCover(l.(work := l.work[1..]), s, s);
    AddRemoveCover(Touch(l.(work := l.work[1..]), s), s, s);
  }

  /** A release never takes a lock away, so nothing is propagated from it: what it looks for in its
      lockset is itself, and only acquiring statements ever get there. */
  lemma ReleaseIsDead(c: Cfg, l: State)
    requires WellFormed(c) && Sane(c, l) && l.work != [] && l.work[0] in c.releases
    ensures Visit(c, l) == Touch(l.(work := l.work[1..]), l.work[0])
  {
    assert l.work[0] !in Get(l.held, l.work[0]);
  }

  /** An acquire always propagates when it is visited: on being taken off the queue it does not
      hold its own lock. */
  lemma VisitUnfolds(c: Cfg, l: State)
    requires WellFormed(c) && Sane(c, l) && l.work != []
    ensures Visit(c, l) ==
            if l.work[0] in c.releases then Taken(c, l)
            else MarkAll(Taken(c, l), Next(c, l.work[0]), l.work[0])
  {
    var s := l.work[0];
    assert s in c.acquires ==> s !in Get(l.held, s);
    if s in c.releases {
      ReleaseIsDead(c, l);
    }
  }

  lemma VisitSane(c: Cfg, l: State)
    requires WellFormed(c) && Sane(c, l) && l.work != []
    ensures Sane(c, Visit(c, l))
  {
    VisitUnfolds(c, l);
    TakenSane(c, l);
    if l.work[0] !in c.releases {
      MarkAllSane(c, Taken(c, l), Next(c, l.work[0]), l.work[0]);
    }
  }

  lemma {:induction false} RoundsSane(c: Cfg, n: nat)
    requires WellFormed(c)
    ensures Sane(c, Rounds(c, n))
  {
    if n == 0 {
      PushAllNoDuplicates([], c.entries);
    } else {
      RoundsSane(c, n - 1);
      if Rounds(c, n - 1).work != [] {
        VisitSane(c, Rounds(c, n - 1));
      }
    }
  }

  lemma {:induction false} MarkAllShrinks(l: State, tgrs: seq<Stmt>, src: Stmt, x: Stmt)
    requires x in l.held
    ensures x in MarkAll(l, tgrs, src).held && Get(MarkAll(l, tgrs, src).held, x) <= Get(l.held, x)
    decreases |tgrs|
  {
    hide Mark;
    if tgrs != [] {
      MarkKeepsOthers(l, tgrs[0], src);
      MarkAllShrinks(Mark(l, tgrs[0], src), tgrs[1..], src, x);
    }
  }

  /** Once a statement has an entry, its lockset only shrinks, but for the lock it acquires itself. */
  lemma {:induction false} LocksetsShrink(c: Cfg, i: nat, j: nat, x: Stmt)
    requires WellFormed(c) && i <= j && x in Rounds(c, i).held
    ensures x in Rounds(c, j).held
    ensures Get(Rounds(c, j).held, x) <= Get(Rounds(c, i).held, x) + Own(c, x)
  {
    hide Sane, MarkAll, Taken, Visit;
    if i < j {
      LocksetsShrink(c, i, j - 1, x);
      var l := Rounds(c, j - 1);
      if l.work != [] {
        RoundsSane(c, j - 1);
        VisitUnfolds(c, l);
        TakenAt(c, l);
        MarkAllShrinks(Taken(c, l), Next(c, l.work[0]), l.work[0], x);
      }
    }
  }

  // ---------------------------------------------------------------- what edges demand

  /** Along an edge, a statement holds at most what its predecessor holds, and its own lock. */
  ghost predicate EdgeHolds(c: Cfg, l: State, s: Stmt, t: Stmt) {
    Reached(l, t) && Get(l.held, t) <= Get(l.held, s) + Own(c, t)
  }

  ghost predicate EntryHolds(c: Cfg, l: State, e: Stmt) {
    Reached(l, e) && Get(l.held, e) <= Own(c, e)
  }

  /** The demand holds of the entries and of all edges out of statements that are not waiting;
      `busy` is marking its successors and has still to mark `todo`. */
  ghost predicate Covered(c: Cfg, l: State, busy: Stmt, todo: seq<Stmt>) {
    && (forall e :: e in c.entries ==> EntryHolds(c, l, e))
    && (forall s, t :: s in l.held && s !in l.work && s !in c.releases && t in Next(c, s) ==>
          (s == busy && t in todo) || EdgeHolds(c, l, s, t))
  }

  /** A statement that waits without an entry is one where nothing may be held: an entry of the
      program, or a successor of a visited statement that holds nothing. */
  ghost predicate WaitingIsFree(c: Cfg, l: State) {
    forall t :: t in l.work && t !in l.held ==> t in c.entries || Empty(c, l, t)
  }

  ghost predicate Empty(c: Cfg, l: State, t: Stmt) {
    exists s :: s in l.held && s !in l.work && s !in c.releases && t in Next(c, s) && Get(l.held, s) == {}
  }

  /** The first mark from a source without locks created no entry, so the next one, from a source
      with locks, is taken for the first. */
  predicate Overlooks(l: State, tgr: Stmt, src: Stmt) {
    tgr !in l.held && tgr in l.work && Get(l.held, src) != {}
  }

  lemma EmptyStays(c: Cfg, l: State, tgr: Stmt, src: Stmt, t: Stmt)
    requires Sane(c, l) && Ready(c, l, src) && Empty(c, l, t)
    ensures Empty(c, Mark(l, tgr, src), t)
  {
    MarkKeepsOthers(l, tgr, src);
    var s :| s in l.held && s !in l.work && s !in c.releases && t in Next(c, s) && Get(l.held, s) == {};
    assert Get(Mark(l, tgr, src).held, s) == {};
  }

  lemma MarkFree(c: Cfg, l: State, tgr: Stmt, src: Stmt)
    requires Sane(c, l) && Ready(c, l, src) && WaitingIsFree(c, l) && tgr in Next(c, src)
    ensures WaitingIsFree(c, Mark(l, tgr, src))
  {
    var m := Mark(l, tgr, src);
    MarkKeepsOthers(l, tgr, src);
    forall t | t in m.work && t !in m.held && t !in c.entries
      ensures Empty(c, m, t)
    {
      if t == tgr {
        assert src in m.held && src !in m.work && Get(m.held, src) == {};
      } else {
        EmptyStays(c, l, tgr, src, t);
      }
    }
  }

  lemma EdgeStays(c: Cfg, l: State, tgr: Stmt, src: Stmt, s: Stmt, t: Stmt)
    requires Sane(c, l) && Ready(c, l, src) && !Overlooks(l, tgr, src)
    requires s in l.held && EdgeHolds(c, l, s, t)
    requires s !in Mark(l, tgr, src).work
    ensures EdgeHolds(c, Mark(l, tgr, src), s, t)
  {
    MarkKeepsOthers(l, tgr, src);
    if s == tgr {
      assert Get(l.held, tgr) <= Get(l.held, src);
    }
  }

  lemma MarkCovered(c: Cfg, l: State, tgr: Stmt, src: Stmt, rest: seq<Stmt>)
    requires Sane(c, l) && Ready(c, l, src) && !Overlooks(l, tgr, src)
    requires Covered(c, l, src, [tgr] + rest)
    ensures Covered(c, Mark(l, tgr, src), src, rest)
  {
    var m := Mark(l, tgr, src);
    MarkKeepsOthers(l, tgr, src);
    forall s, t | s in m.held && s !in m.work && s !in c.releases && t in Next(c, s) && !(s == src && t in rest)
      ensures EdgeHolds(c, m, s, t)
    {
      if s == src && t == tgr {
      } else {
        EdgeStays(c, l, tgr, src, s, t);
      }
    }
    forall e | e in c.entries
      ensures EntryHolds(c, m, e)
    {
      assert EntryHolds(c, l, e);
    }
  }

  /** The step that overlooks a lock-free path breaks the demand, and no other step does. */
  lemma MarkCoveredIff(c: Cfg, l: State, tgr: Stmt, src: Stmt, rest: seq<Stmt>)
    requires Sane(c, l) && Ready(c, l, src) && WaitingIsFree(c, l)
    requires Covered(c, l, src, [tgr] + rest)
    ensures Covered(c, Mark(l, tgr, src), src, rest) <==> !Overlooks(l, tgr, src)
  {
    if Overlooks(l, tgr, src) {
      var m := Mark(l, tgr, src);
      MarkKeepsOthers(l, tgr, src);
      assert tgr !in Get(l.held, src);
      if tgr in c.entries {
        assert !EntryHolds(c, m, tgr);
      } else {
        var s :| s in l.held && s !in l.work && s !in c.releases && tgr in Next(c, s) && Get(l.held, s) == {};
        assert s != src && !EdgeHolds(c, m, s, tgr);
      }
    } else {
      MarkCovered(c, l, tgr, src, rest);
    }
  }

  // ---------------------------------------------------------------- whole rounds

  /** Some mark of a round overlooks a lock-free path. */
  predicate OverlooksAny(l: State, tgrs: seq<Stmt>, src: Stmt)
    decreases |tgrs|
  {
    tgrs != [] && (Overlooks(l, tgrs[0], src) || OverlooksAny(Mark(l, tgrs[0], src), tgrs[1..], src))
  }

  predicate RoundOverlooks(c: Cfg, l: State)
    requires l.work != []
  {
    l.work[0] !in c.releases && OverlooksAny(Taken(c, l), Next(c, l.work[0]), l.work[0])
  }

  lemma {:induction false} MarkAllCovered(c: Cfg, l: State, tgrs: seq<Stmt>, src: Stmt)
    requires Sane(c, l) && Ready(c, l, src) && WaitingIsFree(c, l)
    requires Covered(c, l, src, tgrs) && !OverlooksAny(l, tgrs, src)
    requires forall t :: t in tgrs ==> t in Next(c, src)
    ensures Covered(c, MarkAll(l, tgrs, src), src, []) && WaitingIsFree(c, MarkAll(l, tgrs, src))
    decreases |tgrs|
  {
    if tgrs != [] {
      assert [tgrs[0]] + tgrs[1..] == tgrs;
      MarkCovered(c, l, tgrs[0], src, tgrs[1..]);
      MarkSane(c, l, tgrs[0], src);
      MarkFree(c, l, tgrs[0], src);
      MarkAllCovered(c, Mark(l, tgrs[0], src), tgrs[1..], src);
    }
  }

  lemma TakenCovered(c: Cfg, l: State, x: Stmt)
    requires WellFormed(c) && Sane(c, l) && l.work != []
    requires Covered(c, l, x, []) && WaitingIsFree(c, l)
    ensures Covered(c, Taken(c, l), l.work[0], Next(c, l.work[0])) && WaitingIsFree(c, Taken(c, l))
  {
    hide Taken;
    TakenAt(c, l);
    var b, m := l.work[0], Taken(c, l);
    assert forall x :: x in l.work <==> x == b || x in l.work[1..];
    forall s, t | s in m.held && s !in m.work && s !in c.releases && t in Next(c, s) && s != b
      ensures EdgeHolds(c, m, s, t)
    {
      assert EdgeHolds(c, l, s, t);
    }
    forall e | e in c.entries
      ensures EntryHolds(c, m, e)
    {
      assert EntryHolds(c, l, e);
    }
    forall t | t in m.work && t !in m.held && t !in c.entries
      ensures Empty(c, m, t)
    {
      assert Empty(c, l, t);
      var s :| s in l.held && s !in l.work && s !in c.releases && t in Next(c, s) && Get(l.held, s) == {};
      assert s != b && Get(m.held, s) == {};
    }
  }

  lemma VisitCovered(c: Cfg, l: State, x: Stmt)
    requires WellFormed(c) && Sane(c, l) && l.work != []
    requires Covered(c, l, x, []) && WaitingIsFree(c, l) && !RoundOverlooks(c, l)
    ensures Covered(c, Visit(c, l), l.work[0], []) && WaitingIsFree(c, Visit(c, l))
  {
    VisitUnfolds(c, l);
    TakenSane(c, l);
    TakenCovered(c, l, x);
    if l.work[0] !in c.releases {
      MarkAllCovered(c, Taken(c, l), Next(c, l.work[0]), l.work[0]);
    }
  }

  ghost predicate NeverOverlooks(c: Cfg, n: nat) {
    forall i :: 0 <= i < n && Rounds(c, i).work != [] ==> !RoundOverlooks(c, Rounds(c, i))
  }

  /** With nothing left to mark, it does not matter who is marking. */
  lemma NobodyBusy(c: Cfg, l: State, x: Stmt, y: Stmt)
    requires Covered(c, l, x, [])
    ensures Covered(c, l, y, [])
  {
    hide EdgeHolds, EntryHolds;
  }

  lemma InitCovered(c: Cfg)
    ensures Covered(c, Init(c), 0, []) && WaitingIsFree(c, Init(c))
  {
    hide PushAll;
    PushAllNoDuplicates([], c.entries);
  }

  lemma {:induction false} RoundsCovered(c: Cfg, n: nat)
    requires WellFormed(c) && NeverOverlooks(c, n)
    ensures Covered(c, Rounds(c, n), 0, []) && WaitingIsFree(c, Rounds(c, n))
  {
    hide Covered, WaitingIsFree, Visit, Sane, RoundOverlooks;
    if n == 0 {
      InitCovered(c);
    } else {
      RoundsCovered(c, n - 1);
      RoundsSane(c, n - 1);
      var l := Rounds(c, n - 1);
      if l.work != [] {
        VisitCovered(c, l, 0);
        NobodyBusy(c, Visit(c, l), l.work[0], 0);
      }
    }
  }

  // ---------------------------------------------------------------- the greatest assignment

  /** `g` meets the demands of the entries and of all edges out of `r`, which is closed. */
  ghost predicate Meets(c: Cfg, r: set<Stmt>, g: LockMap) {
    && (forall e :: e in c.entries ==> e in r && Get(g, e) <= Own(c, e))
    && (forall s, t :: s in r && s !in c.releases && t in Next(c, s) ==>
          t in r && Get(g, t) <= Get(g, s) + Own(c, t))
  }

  /** No assignment that meets the demands holds more. */
  ghost predicate Above(c: Cfg, l: State, r: set<Stmt>, g: LockMap) {
    forall s :: Reached(l, s) ==> s in r && Get(g, s) <= Get(l.held, s) + Own(c, s)
  }

  lemma MarkAbove(c: Cfg, l: State, tgr: Stmt, src: Stmt, r: set<Stmt>, g: LockMap)
    requires Sane(c, l) && Ready(c, l, src) && tgr in Next(c, src)
    requires Meets(c, r, g) && Above(c, l, r, g)
    ensures Above(c, Mark(l, tgr, src), r, g)
  {
    var m := Mark(l, tgr, src);
    MarkKeepsOthers(l, tgr, src);
    assert Reached(l, src) && Get(g, src) <= Get(l.held, src);
    forall s | Reached(m, s)
      ensures s in r && Get(g, s) <= Get(m.held, s) + Own(c, s)
    {
      if s == tgr {
        assert Get(g, tgr) <= Get(g, src) + Own(c, tgr);
        assert tgr in l.held ==> Reached(l, tgr);
      } else {
        assert Reached(l, s);
      }
    }
  }

  lemma {:induction false} MarkAllAbove(c: Cfg, l: State, tgrs: seq<Stmt>, src: Stmt, r: set<Stmt>, g: LockMap)
    requires Sane(c, l) && Ready(c, l, src) && forall t :: t in tgrs ==> t in Next(c, src)
    requires Meets(c, r, g) && Above(c, l, r, g)
    ensures Above(c, MarkAll(l, tgrs, src), r, g)
    decreases |tgrs|
  {
    if tgrs != [] {
      MarkAbove(c, l, tgrs[0], src, r, g);
      MarkSane(c, l, tgrs[0], src);
      MarkAllAbove(c, Mark(l, tgrs[0], src), tgrs[1..], src, r, g);
    }
  }

  lemma VisitAbove(c: Cfg, l: State, r: set<Stmt>, g: LockMap)
    requires WellFormed(c) && Sane(c, l) && l.work != []
    requires Meets(c, r, g) && Above(c, l, r, g)
    ensures Above(c, Visit(c, l), r, g)
  {
    VisitUnfolds(c, l);
    TakenSane(c, l);
    TakenAt(c, l);
    var b, m := l.work[0], Taken(c, l);
    forall s | Reached(m, s)
      ensures s in r && Get(g, s) <= Get(m.held, s) + Own(c, s)
    {
      assert Reached(l, s);
    }
    if b !in c.releases {
      MarkAllAbove(c, m, Next(c, b), b, r, g);
    }
  }

  lemma {:induction false} RoundsAbove(c: Cfg, n: nat, r: set<Stmt>, g: LockMap)
    requires WellFormed(c) && Meets(c, r, g)
    ensures Above(c, Rounds(c, n), r, g)
  {
    if n == 0 {
      PushAllNoDuplicates([], c.entries);
    } else {
      RoundsAbove(c, n - 1, r, g);
      RoundsSane(c, n - 1);
      if Rounds(c, n - 1).work != [] {
        VisitAbove(c, Rounds(c, n - 1), r, g);
      }
    }
  }

  lemma EndsMeeting(c: Cfg, l: State)
    requires Sane(c, l) && l.work == [] && Covered(c, l, 0, [])
    ensures Meets(c, l.held.Keys, l.held)
  {
    forall e | e in c.entries
      ensures e in l.held && Get(l.held, e) <= Own(c, e)
    {
      assert EntryHolds(c, l, e);
    }
    forall s, t | s in l.held && s !in c.releases && t in Next(c, s)
      ensures t in l.held && Get(l.held, t) <= Get(l.held, s) + Own(c, t)
    {
      assert EdgeHolds(c, l, s, t);
    }
  }

  /** An analysis that ends and has overlooked nothing ends in the greatest assignment that meets
      the demands; whatever it overlooks, it never ends below that assignment. */
  lemma EndsInGreatest(c: Cfg, n: nat)
    requires WellFormed(c) && Rounds(c, n).work == []
    ensures NeverOverlooks(c, n) ==> Meets(c, Rounds(c, n).held.Keys, Rounds(c, n).held)
    ensures forall r, g, s :: Meets(c, r, g) && s in Rounds(c, n).held ==> Get(g, s) <= Get(Rounds(c, n).held, s)
  {
    hide Meets, WaitingIsFree, Covered, Visit, NeverOverlooks, WellFormed, Rounds;
    var l := Rounds(c, n);
    RoundsSane(c, n);
    if NeverOverlooks(c, n) {
      RoundsCovered(c, n);
      EndsMeeting(c, l);
    }
    forall r, g, s | Meets(c, r, g) && s in l.held
      ensures Get(g, s) <= Get(l.held, s)
    {
      RoundsAbove(c, n, r, g);
      assert Reached(l, s);
    }
  }
}
