/** What the flag propagation computes: flags climb, no statement is visited more than twice, and
    the analysis ends in the least flags that its program demands. */
module ForkJoinFixpoint {
  import opened ForkJoin
  import opened Worklists

  /** The queue holds marked statements, each once. */
  ghost predicate Sane(l: State) {
    NoDuplicates(l.work) && forall s :: s in l.work ==> Get(l.flags, s) != Empty
  }

  /** `s` is being visited: a join has been set to dead. */
  ghost predicate Ready(p: Program, l: State, s: Stmt) {
    Get(l.flags, s) != Empty && (s in p.joins ==> Get(l.flags, s) == TDDead)
  }

  lemma MarkAt(l: State, tgr: Stmt, src: Stmt)
    ensures var m, f := Mark(l, tgr, src), Meet(Get(l.flags, tgr), Get(l.flags, src));
            && (forall x :: Get(m.flags, x) == if x == tgr then f else Get(l.flags, x))
            && (forall x :: x in m.work <==> x in l.work || (x == tgr && f != Get(l.flags, tgr)))
            && m.alive == l.alive && m.dead == l.dead
  {
  }

  lemma SetAt(l: State, tgr: Stmt, f: Flag)
    ensures var m := SetFlag(l, tgr, f);
            && (forall x :: Get(m.flags, x) == if x == tgr then f else Get(l.flags, x))
            && (forall x :: x in m.work <==> x in l.work || (x == tgr && f != Get(l.flags, tgr)))
            && m.alive == l.alive && m.dead == l.dead
  {
  }

  lemma MarkSane(p: Program, l: State, tgr: Stmt, src: Stmt)
    requires Sane(l) && Ready(p, l, src)
    ensures Sane(Mark(l, tgr, src)) && Ready(p, Mark(l, tgr, src), src)
    ensures Get(Mark(l, tgr, src).flags, src) == Get(l.flags, src)
  {
    MarkAt(l, tgr, src);
  }

  lemma SetSane(l: State, tgr: Stmt, f: Flag)
    requires Sane(l) && f != Empty
    ensures Sane(SetFlag(l, tgr, f))
  {
    SetAt(l, tgr, f);
  }

  lemma {:induction false} MarkAllSane(p: Program, l: State, tgrs: seq<Stmt>, src: Stmt)
    requires Sane(l) && Ready(p, l, src)
    ensures Sane(MarkAll(l, tgrs, src)) && Ready(p, MarkAll(l, tgrs, src), src)
    ensures Get(MarkAll(l, tgrs, src).flags, src) == Get(l.flags, src)
    decreases |tgrs|
  {
    if tgrs != [] {
      MarkSane(p, l, tgrs[0], src);
      MarkAllSane(p, Mark(l, tgrs[0], src), tgrs[1..], src);
    }
  }

  lemma {:induction false} SetAllSane(l: State, tgrs: seq<Stmt>, f: Flag)
    requires Sane(l) && f != Empty
    ensures Sane(SetAll(l, tgrs, f))
    ensures forall s :: Get(l.flags, s) != Empty || s in tgrs ==> Get(SetAll(l, tgrs, f).flags, s) != Empty
    decreases |tgrs|
  {
    if tgrs != [] {
      SetAt(l, tgrs[0], f);
      SetSane(l, tgrs[0], f);
      SetAllSane(SetFlag(l, tgrs[0], f), tgrs[1..], f);
    }
  }

  /** The visited statement, off the queue and, if it joins, after the join. */
  function Taken(p: Program, l: State): State
    requires l.work != []
  {
    Joined(p, l.(work := l.work[1..]), l.work[0])
  }

  lemma TakenSane(p: Program, l: State)
    requires l.work != [] && Sane(l)
    ensures Sane(Taken(p, l)) && Ready(p, Taken(p, l), l.work[0])
  {
    var s, r := l.work[0], l.(work := l.work[1..]);
    assert Sane(r) && Get(r.flags, s) != Empty;
    if s in p.joins {
      SetAt(r, s, TDDead);
      SetSane(r, s, TDDead);
    } else {
      SetAllSane(r, Exits(p, s), TDDead);
    }
  }

  lemma VisitSane(p: Program, l: State)
    requires l.work != [] && Sane(l)
    ensures Sane(Visit(p, l))
  {
    TakenSane(p, l);
    MarkAllSane(p, Taken(p, l), Next(p, l.work[0]), l.work[0]);
  }

  lemma {:induction false} RoundsSane(p: Program, n: nat)
    ensures Sane(Rounds(p, n))
  {
    hide Visit;
    if n == 0 {
      SetAllSane(State(map[], [], {}, {}), p.seeds, TDAlive);
    } else {
      RoundsSane(p, n - 1);
      if Rounds(p, n - 1).work != [] {
        VisitSane(p, Rounds(p, n - 1));
      }
    }
  }

  // ---------------------------------------------------------------- demands

  /** Seeds are alive, flags flow along edges but not past joins, and the exits of a joining loop
      are marked; nothing is demanded of the statements in `lost`. */
  ghost predicate MeetsBut(p: Program, h: FlagMap, lost: set<Stmt>) {
    && (forall e :: e in p.seeds && e !in lost ==> Leq(Through(p, e, TDAlive), Get(h, e)))
    && (forall s, t :: t in Next(p, s) && t !in lost ==> Leq(Through(p, t, Get(h, s)), Get(h, t)))
    && (forall s, e :: s !in p.joins && e in Exits(p, s) && Get(h, s) != Empty ==> Get(h, e) != Empty)
  }

  ghost predicate Meets(p: Program, h: FlagMap) {
    MeetsBut(p, h, {})
  }

  /** No flag is above what the demands ask for; a join may be alive while it waits. */
  ghost predicate Below(p: Program, l: State, h: FlagMap) {
    forall s :: Leq(Through(p, s, Get(l.flags, s)), Get(h, s))
  }

  lemma MarkBelow(p: Program, l: State, tgr: Stmt, src: Stmt, h: FlagMap)
    requires Meets(p, h) && Below(p, l, h) && tgr in Next(p, src) && Ready(p, l, src)
    ensures Below(p, Mark(l, tgr, src), h)
  {
    MarkAt(l, tgr, src);
    assert Leq(Through(p, tgr, Get(h, src)), Get(h, tgr));
    assert Leq(Get(l.flags, src), Get(h, src));
  }

  lemma {:induction false} MarkAllBelow(p: Program, l: State, tgrs: seq<Stmt>, src: Stmt, h: FlagMap)
    requires Sane(l) && Meets(p, h) && Below(p, l, h) && Ready(p, l, src)
    requires forall t :: t in tgrs ==> t in Next(p, src)
    ensures Below(p, MarkAll(l, tgrs, src), h)
    decreases |tgrs|
  {
    if tgrs != [] {
      MarkBelow(p, l, tgrs[0], src, h);
      MarkSane(p, l, tgrs[0], src);
      MarkAllBelow(p, Mark(l, tgrs[0], src), tgrs[1..], src, h);
    }
  }

  lemma {:induction false} SetAllBelow(p: Program, l: State, tgrs: seq<Stmt>, f: Flag, h: FlagMap)
    requires Below(p, l, h)
    requires forall t :: t in tgrs ==> Leq(Through(p, t, f), Get(h, t))
    ensures Below(p, SetAll(l, tgrs, f), h)
    decreases |tgrs|
  {
    if tgrs != [] {
      SetAt(l, tgrs[0], f);
      SetAllBelow(p, SetFlag(l, tgrs[0], f), tgrs[1..], f, h);
    }
  }

  lemma VisitBelow(p: Program, l: State, h: FlagMap)
    requires l.work != [] && Sane(l) && Meets(p, h) && Below(p, l, h)
    ensures Below(p, Visit(p, l), h)
  {
    var s, r := l.work[0], l.(work := l.work[1..]);
    assert Below(p, r, h) && Get(h, s) != Empty;
    TakenSane(p, l);
    if s in p.joins {
      SetAt(r, s, TDDead);
    } else {
      SetAllBelow(p, r, Exits(p, s), TDDead, h);
    }
    MarkAllBelow(p, Taken(p, l), Next(p, s), s, h);
  }

  lemma {:induction false} RoundsBelow(p: Program, n: nat, h: FlagMap)
    requires Meets(p, h)
    ensures Below(p, Rounds(p, n), h)
  {
    hide Visit;
    if n == 0 {
      SetAllBelow(p, State(map[], [], {}, {}), p.seeds, TDAlive, h);
    } else {
      RoundsBelow(p, n - 1, h);
      RoundsSane(p, n - 1);
      if Rounds(p, n - 1).work != [] {
        VisitBelow(p, Rounds(p, n - 1), h);
      }
    }
  }

  // ---------------------------------------------------------------- climbing

  /** From `l` to `m` the flag of `s` did not fall, and rose if `s` was queued. */
  ghost predicate Climbs(l: State, m: State, s: Stmt) {
    && Rank(Get(l.flags, s)) + (if s in m.work && s !in l.work then 1 else 0) <= Rank(Get(m.flags, s))
    && (s in l.work ==> s in m.work)
  }

  /** The exit of a joining loop is declared dead although it has been found alive. */
  predicate Lowers(p: Program, l: State, e: Stmt) {
    e !in p.joins && Get(l.flags, e) == TDAlive
  }

  /** The exits that the next round lowers. */
  function Lowered(p: Program, l: State): set<Stmt>
    requires l.work != []
  {
    if l.work[0] in p.joins then {} else set e | e in Exits(p, l.work[0]) && Lowers(p, l, e)
  }

  /** The exits that the first `n` rounds lowered. */
  function Lost(p: Program, n: nat): set<Stmt> {
    if n == 0 then {}
    else
      var l := Rounds(p, n - 1);
      Lost(p, n - 1) + if l.work == [] then {} else Lowered(p, l)
  }

  ghost predicate NeverLowers(p: Program, n: nat) {
    Lost(p, n) == {}
  }

  lemma {:induction false} MarkAllClimbs(l: State, tgrs: seq<Stmt>, src: Stmt, s: Stmt)
    ensures Climbs(l, MarkAll(l, tgrs, src), s)
    decreases |tgrs|
  {
    if tgrs != [] {
      MarkAt(l, tgrs[0], src);
      MarkAllClimbs(Mark(l, tgrs[0], src), tgrs[1..], src, s);
    }
  }

  lemma {:induction false} SetAllClimbs(p: Program, l: State, tgrs: seq<Stmt>, s: Stmt)
    requires s !in p.joins && !(s in tgrs && Lowers(p, l, s))
    ensures Climbs(l, SetAll(l, tgrs, TDDead), s)
    decreases |tgrs|
  {
    if tgrs != [] {
      SetAt(l, tgrs[0], TDDead);
      SetAllClimbs(p, SetFlag(l, tgrs[0], TDDead), tgrs[1..], s);
    }
  }

  lemma VisitClimbs(p: Program, l: State, s: Stmt)
    requires l.work != [] && Sane(l) && s !in Lowered(p, l) && s !in p.joins
    ensures Climbs(l.(work := l.work[1..]), Visit(p, l), s)
  {
    var b, r := l.work[0], l.(work := l.work[1..]);
    if b in p.joins {
      SetAt(r, b, TDDead);
    } else {
      SetAllClimbs(p, r, Exits(p, b), s);
    }
    MarkAllClimbs(Taken(p, l), Next(p, b), b, s);
  }

  lemma {:induction false} SeedsClimb(l: State, tgrs: seq<Stmt>, s: Stmt)
    requires Sane(l)
    ensures Climbs(l, SetAll(l, tgrs, TDAlive), s)
    decreases |tgrs|
  {
    if tgrs != [] {
      SetAt(l, tgrs[0], TDAlive);
      SetSane(l, tgrs[0], TDAlive);
      SeedsClimb(SetFlag(l, tgrs[0], TDAlive), tgrs[1..], s);
    }
  }

  lemma {:induction false} VisitsBounded(p: Program, n: nat, s: Stmt)
    requires s !in Lost(p, n) && s !in p.joins
    ensures Visits(p, n, s) + (if s in Rounds(p, n).work then 1 else 0) <= Rank(Get(Rounds(p, n).flags, s))
  {
    hide Visit, Lowered;
    if n == 0 {
      SeedsClimb(State(map[], [], {}, {}), p.seeds, s);
    } else {
      VisitsBounded(p, n - 1, s);
      var l := Rounds(p, n - 1);
      RoundsSane(p, n - 1);
      if l.work != [] {
        VisitClimbs(p, l, s);
        assert s in l.work <==> s == l.work[0] || s in l.work[1..];
      }
    }
  }

  /** A flag climbs from empty to dead to alive and never back, and a statement is queued at most
      once for each step it climbs: at most two visits, joins and lowered exits aside. */
  lemma VisitedAtMostTwice(p: Program, n: nat, s: Stmt)
    requires s !in Lost(p, n) && s !in p.joins
    ensures Visits(p, n, s) <= 2
    ensures forall i :: 0 <= i < n ==> Leq(Get(Rounds(p, i).flags, s), Get(Rounds(p, n).flags, s))
  {
    VisitsBounded(p, n, s);
    forall i | 0 <= i < n
      ensures Leq(Get(Rounds(p, i).flags, s), Get(Rounds(p, n).flags, s))
    {
      FlagsClimb(p, i, n, s);
    }
  }

  lemma {:induction false} FlagsClimb(p: Program, i: nat, n: nat, s: Stmt)
    requires i <= n && s !in Lost(p, n) && s !in p.joins
    ensures Leq(Get(Rounds(p, i).flags, s), Get(Rounds(p, n).flags, s))
    decreases n
  {
    hide Visit, Lowered;
    if i < n {
      FlagsClimb(p, i, n - 1, s);
      RoundsSane(p, n - 1);
      if Rounds(p, n - 1).work != [] {
        VisitClimbs(p, Rounds(p, n - 1), s);
      }
    }
  }

  // ---------------------------------------------------------------- the demands met

  ghost predicate SeedMet(p: Program, l: State, e: Stmt) {
    Leq(Through(p, e, TDAlive), Through(p, e, Get(l.flags, e)))
  }

  ghost predicate EdgeMet(p: Program, l: State, s: Stmt, t: Stmt) {
    Leq(Through(p, t, Get(l.flags, s)), Through(p, t, Get(l.flags, t)))
  }

  /** Demands of seeds, of edges out of statements that do not wait, and of joins; `busy` has still
      to mark `todo`. */
  ghost predicate EdgesMet(p: Program, l: State, busy: Stmt, todo: seq<Stmt>, lost: set<Stmt>) {
    && (forall e :: e in p.seeds && e !in lost ==> SeedMet(p, l, e))
    && (forall s, t :: s !in l.work && t in Next(p, s) && t !in lost ==>
        (s == busy && t in todo) || EdgeMet(p, l, s, t))
    && (forall s :: s in p.joins && s !in l.work ==> Get(l.flags, s) != TDAlive)
  }

  /** Demands of the exits of joining loops. */
  ghost predicate ExitsMet(p: Program, l: State, but: set<Stmt>) {
    forall s, e :: s !in p.joins && s !in l.work && s !in but && e in Exits(p, s) && Get(l.flags, s) != Empty ==>
      Get(l.flags, e) != Empty
  }

  ghost predicate Covered(p: Program, l: State, busy: Stmt, todo: seq<Stmt>, lost: set<Stmt>) {
    EdgesMet(p, l, busy, todo, lost) && ExitsMet(p, l, {})
  }

  lemma MarkCovered(p: Program, l: State, tgr: Stmt, src: Stmt, rest: seq<Stmt>, lost: set<Stmt>)
    requires Ready(p, l, src) && Covered(p, l, src, [tgr] + rest, lost)
    ensures Covered(p, Mark(l, tgr, src), src, rest, lost)
  {
    hide Mark;
    var m := Mark(l, tgr, src);
    MarkAt(l, tgr, src);
    forall e | e in p.seeds && e !in lost
      ensures SeedMet(p, m, e)
    {
      assert SeedMet(p, l, e);
    }
    forall s, t | s !in m.work && t in Next(p, s) && t !in lost && !(s == src && t in rest)
      ensures EdgeMet(p, m, s, t)
    {
      if s == src && t == tgr {
      } else {
        assert EdgeMet(p, l, s, t);
      }
    }
  }

  lemma {:induction false} MarkAllCovered(p: Program, l: State, tgrs: seq<Stmt>, src: Stmt, lost: set<Stmt>)
    requires Sane(l) && Ready(p, l, src) && Covered(p, l, src, tgrs, lost)
    ensures Covered(p, MarkAll(l, tgrs, src), src, [], lost)
    decreases |tgrs|
  {
    hide Mark, Covered, Sane, Ready;
    if tgrs != [] {
      assert [tgrs[0]] + tgrs[1..] == tgrs;
      MarkCovered(p, l, tgrs[0], src, tgrs[1..], lost);
      MarkSane(p, l, tgrs[0], src);
      MarkAllCovered(p, Mark(l, tgrs[0], src), tgrs[1..], src, lost);
    }
  }

  /** The exit `e` of a joining loop has to be alive: it is a seed, or it follows a live statement
      that has handed its flag on. */
  ghost predicate MustLive(p: Program, l: State, e: Stmt, x: Stmt, todo: seq<Stmt>) {
    e in p.seeds ||
    exists s :: s != e && s !in l.work && e in Next(p, s) && !(s == x && e in todo) && Get(l.flags, s) == TDAlive
  }

  /** Declaring the exit of a joining loop dead keeps what is demanded exactly if it does not lower
      an exit that has to be alive. */
  lemma SetCoveredIff(p: Program, l: State, e: Stmt, x: Stmt, todo: seq<Stmt>, lost: set<Stmt>)
    requires EdgesMet(p, l, x, todo, lost)
    ensures EdgesMet(p, SetFlag(l, e, TDDead), x, todo, lost) <==>
            e in lost || !(Lowers(p, l, e) && MustLive(p, l, e, x, todo))
  {
    hide SetFlag;
    var m := SetFlag(l, e, TDDead);
    SetAt(l, e, TDDead);
    forall a | a in p.seeds && a !in lost && (a != e || !(Lowers(p, l, e) && MustLive(p, l, e, x, todo)))
      ensures SeedMet(p, m, a)
    {
      assert SeedMet(p, l, a);
    }
    forall s, t | s !in m.work && t in Next(p, s) && t !in lost && !(s == x && t in todo) &&
        (t != e || !(Lowers(p, l, e) && MustLive(p, l, e, x, todo)))
      ensures EdgeMet(p, m, s, t)
    {
      assert EdgeMet(p, l, s, t);
    }
    if e !in lost && Lowers(p, l, e) && MustLive(p, l, e, x, todo) {
      if e in p.seeds {
        assert !SeedMet(p, m, e);
      } else {
        var s :| s != e && s !in l.work && e in Next(p, s) && !(s == x && e in todo) && Get(l.flags, s) == TDAlive;
        assert !EdgeMet(p, m, s, e);
      }
    }
  }

  lemma {:induction false} SetAllCovered(p: Program, l: State, tgrs: seq<Stmt>, x: Stmt, todo: seq<Stmt>,
      lost: set<Stmt>)
    requires EdgesMet(p, l, x, todo, lost) && forall e :: e in tgrs && Lowers(p, l, e) ==> e in lost
    ensures EdgesMet(p, SetAll(l, tgrs, TDDead), x, todo, lost)
    decreases |tgrs|
  {
    hide EdgesMet, MustLive;
    if tgrs != [] {
      var m := SetFlag(l, tgrs[0], TDDead);
      SetAt(l, tgrs[0], TDDead);
      SetCoveredIff(p, l, tgrs[0], x, todo, lost);
      forall e | e in tgrs[1..] && Lowers(p, m, e)
        ensures e in lost
      {
        assert Lowers(p, l, e);
      }
      SetAllCovered(p, m, tgrs[1..], x, todo, lost);
    }
  }

  /** A join is dead after itself, and waits again if that is news. */
  lemma JoinCovered(p: Program, r: State, s: Stmt, lost: set<Stmt>)
    requires s in p.joins && s !in r.work && Loose(p, r, s, lost) && ExitsMet(p, r, {s})
    ensures Covered(p, SetFlag(r, s, TDDead), s, Next(p, s), lost)
  {
    hide SetFlag;
    var m := SetFlag(r, s, TDDead);
    SetAt(r, s, TDDead);
    forall e | e in p.seeds && e !in lost
      ensures SeedMet(p, m, e)
    {
      assert SeedMet(p, r, e);
    }
    forall a, t | a !in m.work && t in Next(p, a) && t !in lost && a != s
      ensures EdgeMet(p, m, a, t)
    {
      assert EdgeMet(p, r, a, t);
    }
  }

  /** The demands but for those of `s`. */
  ghost predicate Loose(p: Program, l: State, s: Stmt, lost: set<Stmt>) {
    && (forall e :: e in p.seeds && e !in lost ==> SeedMet(p, l, e))
    && (forall a, t :: a !in l.work && a != s && t in Next(p, a) && t !in lost ==> EdgeMet(p, l, a, t))
    && (forall a :: a in p.joins && a !in l.work && a != s ==> Get(l.flags, a) != TDAlive)
  }

  lemma PoppedCovered(p: Program, l: State, x: Stmt, lost: set<Stmt>)
    requires l.work != [] && Sane(l) && Covered(p, l, x, [], lost)
    ensures var s, r := l.work[0], l.(work := l.work[1..]);
            && Sane(r) && Loose(p, r, s, lost) && ExitsMet(p, r, {s})
            && (s !in p.joins ==> EdgesMet(p, r, s, Next(p, s), lost))
  {
    var s, r := l.work[0], l.(work := l.work[1..]);
    assert forall a :: a in l.work <==> a == s || a in r.work;
    forall e | e in p.seeds && e !in lost
      ensures SeedMet(p, r, e)
    {
      assert SeedMet(p, l, e);
    }
    forall a, t | a !in r.work && a != s && t in Next(p, a) && t !in lost
      ensures EdgeMet(p, r, a, t)
    {
      assert EdgeMet(p, l, a, t);
    }
  }

  lemma TakenCovered(p: Program, l: State, x: Stmt, lost: set<Stmt>)
    requires l.work != [] && Sane(l) && Covered(p, l, x, [], lost) && Lowered(p, l) <= lost
    ensures Covered(p, Taken(p, l), l.work[0], Next(p, l.work[0]), lost)
  {
    hide EdgesMet, Loose, ExitsMet;
    var s, r := l.work[0], l.(work := l.work[1..]);
    PoppedCovered(p, l, x, lost);
    if s in p.joins {
      JoinCovered(p, r, s, lost);
    } else {
      forall e | e in Exits(p, s) && Lowers(p, r, e)
        ensures e in lost
      {
        assert Lowers(p, l, e);
      }
      SetAllCovered(p, r, Exits(p, s), s, Next(p, s), lost);
      SetAllExits(p, r, Exits(p, s), s);
    }
  }

  lemma SetAllExits(p: Program, r: State, tgrs: seq<Stmt>, s: Stmt)
    requires Sane(r) && tgrs == Exits(p, s) && ExitsMet(p, r, {s})
    ensures ExitsMet(p, SetAll(r, tgrs, TDDead), {})
  {
    var m := SetAll(r, tgrs, TDDead);
    SetAllSane(r, tgrs, TDDead);
    forall a, e | a !in p.joins && a !in m.work && e in Exits(p, a) && Get(m.flags, a) != Empty
      ensures Get(m.flags, e) != Empty
    {
      SetAllQueues(r, tgrs, a);
    }
  }

  /** Whoever gets its first flag is queued, and nobody leaves the queue. */
  lemma {:induction false} SetAllQueues(l: State, tgrs: seq<Stmt>, a: Stmt)
    requires a !in SetAll(l, tgrs, TDDead).work
    ensures a !in l.work
    ensures Get(SetAll(l, tgrs, TDDead).flags, a) == Get(l.flags, a)
    decreases |tgrs|
  {
    if tgrs != [] {
      SetAt(l, tgrs[0], TDDead);
      SetAllQueues(SetFlag(l, tgrs[0], TDDead), tgrs[1..], a);
    }
  }

  lemma RecordedCovered(p: Program, l: State, x: Stmt, s: Stmt, lost: set<Stmt>)
    requires Covered(p, l, x, [], lost)
    ensures Covered(p, Recorded(l, s), 0, [], lost)
  {
    var m := Recorded(l, s);
    assert forall a :: Get(m.flags, a) == Get(l.flags, a);
    assert forall a, t :: EdgeMet(p, l, a, t) == EdgeMet(p, m, a, t);
    assert forall e :: SeedMet(p, l, e) == SeedMet(p, m, e);
  }

  lemma VisitCovered(p: Program, l: State, lost: set<Stmt>)
    requires l.work != [] && Sane(l) && Covered(p, l, 0, [], lost) && Lowered(p, l) <= lost
    ensures Covered(p, Visit(p, l), 0, [], lost)
  {
    hide Lowered, Lowers, ExitsMet, EdgesMet;
    var s := l.work[0];
    TakenCovered(p, l, 0, lost);
    TakenSane(p, l);
    MarkAllCovered(p, Taken(p, l), Next(p, s), s, lost);
    RecordedCovered(p, MarkAll(Taken(p, l), Next(p, s), s), s, s, lost);
  }

  lemma LosesMore(p: Program, l: State, lost: set<Stmt>, more: set<Stmt>)
    requires Covered(p, l, 0, [], lost) && lost <= more
    ensures Covered(p, l, 0, [], more)
  {
  }

  lemma {:induction false} InitCovered(p: Program, l: State, tgrs: seq<Stmt>)
    requires forall s {:trigger Get(l.flags, s)} :: Get(l.flags, s) == if s in l.work then TDAlive else Empty
    ensures var m := SetAll(l, tgrs, TDAlive);
            && (forall s {:trigger Get(m.flags, s)} :: Get(m.flags, s) == if s in m.work then TDAlive else Empty)
            && (forall s :: s in m.work <==> s in l.work || s in tgrs)
    decreases |tgrs|
  {
    if tgrs != [] {
      SetAt(l, tgrs[0], TDAlive);
      InitCovered(p, SetFlag(l, tgrs[0], TDAlive), tgrs[1..]);
    }
  }

  /** Every run meets what the statements that do not wait demand, but for what it demands of exits
      that it lowered. */
  lemma {:induction false} RoundsCovered(p: Program, n: nat)
    ensures Covered(p, Rounds(p, n), 0, [], Lost(p, n))
  {
    hide Visit, Lowered, Covered;
    if n == 0 {
      StartCovered(p);
    } else {
      RoundsCovered(p, n - 1);
      RoundsSane(p, n - 1);
      LosesMore(p, Rounds(p, n - 1), Lost(p, n - 1), Lost(p, n));
      if Rounds(p, n - 1).work != [] {
        VisitCovered(p, Rounds(p, n - 1), Lost(p, n));
      }
    }
  }

  lemma StartCovered(p: Program)
    ensures Covered(p, Init(p), 0, [], {})
  {
    InitCovered(p, State(map[], [], {}, {}), p.seeds);
    var m := Init(p);
    assert forall e :: e in p.seeds ==> Get(m.flags, e) == TDAlive;
  }

  // ---------------------------------------------------------------- what was recorded

  /** A statement is recorded as alive only if it is alive, and a statement that does not wait is
      recorded with its flag. */
  ghost predicate Logged(p: Program, l: State, lost: set<Stmt>) {
    forall s :: s !in p.joins && s !in lost ==>
      && (s in l.alive ==> Get(l.flags, s) == TDAlive)
      && (s in l.dead ==> Get(l.flags, s) != Empty)
      && (s !in l.work && Get(l.flags, s) == TDAlive ==> s in l.alive)
      && (s !in l.work && Get(l.flags, s) == TDDead ==> s in l.dead)
  }

  lemma {:induction false} MarkAllQueues(l: State, tgrs: seq<Stmt>, src: Stmt, a: Stmt)
    ensures var m := MarkAll(l, tgrs, src); m.alive == l.alive && m.dead == l.dead
    ensures a !in MarkAll(l, tgrs, src).work ==> a !in l.work && Get(MarkAll(l, tgrs, src).flags, a) == Get(l.flags, a)
    decreases |tgrs|
  {
    if tgrs != [] {
      MarkAt(l, tgrs[0], src);
      MarkAllQueues(Mark(l, tgrs[0], src), tgrs[1..], src, a);
    }
  }

  lemma {:induction false} SetAllRecords(l: State, tgrs: seq<Stmt>, f: Flag)
    ensures var m := SetAll(l, tgrs, f); m.alive == l.alive && m.dead == l.dead
    decreases |tgrs|
  {
    if tgrs != [] {
      SetAllRecords(SetFlag(l, tgrs[0], f), tgrs[1..], f);
    }
  }

  lemma TakenQueues(p: Program, l: State, a: Stmt)
    requires l.work != []
    ensures Taken(p, l).alive == l.alive && Taken(p, l).dead == l.dead
    ensures a !in Taken(p, l).work ==> a !in l.work[1..] && (a !in p.joins ==>
            Get(Taken(p, l).flags, a) == Get(l.flags, a))
  {
    var s, r := l.work[0], l.(work := l.work[1..]);
    if s in p.joins {
      SetAt(r, s, TDDead);
    } else {
      SetAllRecords(r, Exits(p, s), TDDead);
      if a !in Taken(p, l).work {
        SetAllQueues(r, Exits(p, s), a);
      }
    }
  }

  lemma VisitLogged(p: Program, l: State, lost: set<Stmt>)
    requires l.work != [] && Sane(l) && Logged(p, l, lost) && Lowered(p, l) <= lost
    ensures Logged(p, Visit(p, l), lost)
  {
    hide MarkAll, Lowered, Sane;
    var b := l.work[0];
    var m := MarkAll(Taken(p, l), Next(p, b), b);
    TakenSane(p, l);
    MarkAllSane(p, Taken(p, l), Next(p, b), b);
    assert forall a :: a in l.work <==> a == b || a in l.work[1..];
    TakenQueues(p, l, b);
    MarkAllQueues(Taken(p, l), Next(p, b), b, b);
    forall s | s !in p.joins && s !in lost
      ensures Leq(Get(l.flags, s), Get(m.flags, s))
    {
      VisitClimbs(p, l, s);
    }
    forall s | s !in p.joins && s !in m.work && s != b
      ensures s !in l.work && Get(m.flags, s) == Get(l.flags, s)
    {
      TakenQueues(p, l, s);
      MarkAllQueues(Taken(p, l), Next(p, b), b, s);
    }
    assert Visit(p, l) == Recorded(m, b) by {
      VisitIs(p, l);
    }
    RecordLogged(p, l, m, b, lost);
  }

  lemma VisitIs(p: Program, l: State)
    requires l.work != []
    ensures Visit(p, l) == Recorded(MarkAll(Taken(p, l), Next(p, l.work[0]), l.work[0]), l.work[0])
  {
  }

  lemma RecordLogged(p: Program, l: State, m: State, b: Stmt, lost: set<Stmt>)
    requires Logged(p, l, lost) && Get(m.flags, b) != Empty
    requires m.alive == l.alive && m.dead == l.dead
    requires forall s :: s !in p.joins && s !in lost ==> Leq(Get(l.flags, s), Get(m.flags, s))
    requires forall s :: s !in p.joins && s !in m.work && s != b ==> s !in l.work && Get(m.flags, s) == Get(l.flags, s)
    ensures Logged(p, Recorded(m, b), lost)
  {
  }

  lemma {:induction false} RoundsLogged(p: Program, n: nat)
    ensures Logged(p, Rounds(p, n), Lost(p, n))
  {
    hide Visit, Lowered;
    if n == 0 {
      InitCovered(p, State(map[], [], {}, {}), p.seeds);
      SetAllRecords(State(map[], [], {}, {}), p.seeds, TDAlive);
    } else {
      RoundsLogged(p, n - 1);
      RoundsSane(p, n - 1);
      if Rounds(p, n - 1).work != [] {
        VisitLogged(p, Rounds(p, n - 1), Lost(p, n));
      }
    }
  }

  /** One of the first `n` rounds visited `s` and left it with a flag that is alive, or is not. */
  ghost predicate Left(p: Program, n: nat, s: Stmt, alive: bool) {
    exists i: nat :: i < n && LeftBy(p, i, s, alive)
  }

  ghost predicate LeftBy(p: Program, i: nat, s: Stmt, alive: bool) {
    && Rounds(p, i).work != [] && Rounds(p, i).work[0] == s
    && (alive <==> Get(Rounds(p, i + 1).flags, s) == TDAlive)
  }

  lemma VisitRecords(p: Program, l: State, s: Stmt)
    requires l.work != []
    ensures var m := Visit(p, l);
            && (s in m.alive <==> s in l.alive || (s == l.work[0] && Get(m.flags, s) == TDAlive))
            && (s in m.dead <==> s in l.dead || (s == l.work[0] && Get(m.flags, s) != TDAlive))
  {
    hide MarkAll, Taken;
    var b := l.work[0];
    VisitIs(p, l);
    TakenQueues(p, l, s);
    MarkAllQueues(Taken(p, l), Next(p, b), b, s);
  }

  lemma LeftMore(p: Program, n: nat, s: Stmt, alive: bool)
    ensures Left(p, n + 1, s, alive) <==> Left(p, n, s, alive) || LeftBy(p, n, s, alive)
  {
    hide LeftBy;
    if Left(p, n + 1, s, alive) {
      var i: nat :| i < n + 1 && LeftBy(p, i, s, alive);
      assert i == n || i < n;
    }
  }

  /** The records hold exactly the flags that visits left behind, of every statement; what a later visit
      finds takes nothing back. */
  lemma {:induction false} RecordsIff(p: Program, n: nat, s: Stmt)
    ensures s in Rounds(p, n).alive <==> Left(p, n, s, true)
    ensures s in Rounds(p, n).dead <==> Left(p, n, s, false)
  {
    hide Visit, Left;
    if n == 0 {
      NoneLeft(p, s);
      SetAllRecords(State(map[], [], {}, {}), p.seeds, TDAlive);
    } else {
      RecordsIff(p, n - 1, s);
      LeftMore(p, n - 1, s, true);
      LeftMore(p, n - 1, s, false);
      if Rounds(p, n - 1).work != [] {
        VisitRecords(p, Rounds(p, n - 1), s);
      }
    }
  }

  lemma NoneLeft(p: Program, s: Stmt)
    ensures !Left(p, 0, s, true) && !Left(p, 0, s, false)
  {
  }

  // ---------------------------------------------------------------- the result

  /** An analysis that ends never ends above the least flags that meet the demands, and meets all
      demands but those on exits that it lowered. */
  lemma EndsBelowLeast(p: Program, n: nat)
    requires Rounds(p, n).work == []
    ensures MeetsBut(p, Rounds(p, n).flags, Lost(p, n))
    ensures forall h, s :: Meets(p, h) ==> Leq(Get(Rounds(p, n).flags, s), Get(h, s))
  {
    hide Rounds, Lost;
    var l, lost := Rounds(p, n), Lost(p, n);
    RoundsCovered(p, n);
    forall e | e in p.seeds && e !in lost
      ensures Leq(Through(p, e, TDAlive), Get(l.flags, e))
    {
      assert SeedMet(p, l, e);
    }
    forall s, t | t in Next(p, s) && t !in lost
      ensures Leq(Through(p, t, Get(l.flags, s)), Get(l.flags, t))
    {
      assert EdgeMet(p, l, s, t);
    }
    forall h, s | Meets(p, h)
      ensures Leq(Get(l.flags, s), Get(h, s))
    {
      RoundsBelow(p, n, h);
      assert Leq(Through(p, s, Get(l.flags, s)), Get(h, s));
    }
  }

  /** So it ends in the least flags if it never lowered an exit. */
  lemma EndsInLeast(p: Program, n: nat)
    requires Rounds(p, n).work == [] && NeverLowers(p, n)
    ensures Meets(p, Rounds(p, n).flags)
    ensures forall h, s :: Meets(p, h) ==> Leq(Get(Rounds(p, n).flags, s), Get(h, s))
  {
    EndsBelowLeast(p, n);
  }

  /** `down` is closed under control flow. */
  ghost predicate Closed(p: Program, down: set<Stmt>) {
    forall s, t :: s in down && (t in Next(p, s) || t in Exits(p, s)) ==> t in down
  }

  /** If it did, the flags are still the least ones wherever control does not come from a lowered
      exit: some flags that meet all demands agree with them there. */
  lemma LeastElsewhere(p: Program, n: nat, down: set<Stmt>) returns (h: FlagMap)
    requires Rounds(p, n).work == [] && Lost(p, n) <= down && Closed(p, down)
    ensures Meets(p, h) && forall s :: s !in down ==> Get(h, s) == Get(Rounds(p, n).flags, s)
  {
    hide Rounds, Lost;
    var l := Rounds(p, n).flags;
    EndsBelowLeast(p, n);
    h := map s | s in l.Keys + down :: if s in down then TDAlive else l[s];
    assert forall s :: Get(h, s) == if s in down then TDAlive else Get(l, s);
    forall s, t | t in Next(p, s)
      ensures Leq(Through(p, t, Get(h, s)), Get(h, t))
    {
      if t !in down {
        assert Leq(Through(p, t, Get(l, s)), Get(l, t));
      }
    }
    forall s, e | s !in p.joins && e in Exits(p, s) && Get(h, s) != Empty
      ensures Get(h, e) != Empty
    {
    }
  }

  /** Two threads, or a thread and its parent, are taken to be ordered where a statement was visited
      dead and never alive: those are the statements whose flag is dead in the end, joins and
      lowered exits aside. */
  lemma RecordsAreLeast(p: Program, n: nat, s: Stmt)
    requires Rounds(p, n).work == [] && s !in Lost(p, n) && s !in p.joins
    ensures s in Rounds(p, n).dead && s !in Rounds(p, n).alive <==> Get(Rounds(p, n).flags, s) == TDDead
    ensures s in Rounds(p, n).alive <==> Get(Rounds(p, n).flags, s) == TDAlive
  {
    RoundsLogged(p, n);
  }
}
