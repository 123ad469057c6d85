/** Joins in loops: declaring the loop's exits dead can lower a flag that is justified, after which
    the result no longer meets the demands, or the analysis does not end. */
module ForkJoinCorners {
  import opened ForkJoin
  import opened ForkJoinFixpoint
  import opened ForkJoinTermination
  import opened Worklists

  lemma MarkNone(l: State, src: Stmt)
    ensures MarkAll(l, [], src) == l
  {
  }

  lemma MarkOne(l: State, a: Stmt, src: Stmt)
    ensures MarkAll(l, [a], src) == Mark(l, a, src)
  {
    assert [a][1..] == [];
    MarkNone(Mark(l, a, src), src);
  }

  lemma MarkTwo(l: State, a: Stmt, b: Stmt, src: Stmt)
    ensures MarkAll(l, [a, b], src) == Mark(Mark(l, a, src), b, src)
  {
    assert [a, b][1..] == [b];
    MarkOne(Mark(l, a, src), b, src);
  }

  lemma MarkFour(l: State, a: Stmt, b: Stmt, c: Stmt, d: Stmt, src: Stmt)
    ensures MarkAll(l, [a, b, c, d], src) == Mark(Mark(Mark(Mark(l, a, src), b, src), c, src), d, src)
  {
    assert [a, b, c, d][1..] == [b, c, d] && [b, c, d][1..] == [c, d];
    var m := Mark(Mark(l, a, src), b, src);
    MarkTwo(m, c, d, src);
    assert MarkAll(Mark(l, a, src), [b, c, d], src) == MarkAll(m, [c, d], src);
  }

  lemma SetOne(l: State, a: Stmt, f: Flag)
    ensures SetAll(l, [a], f) == SetFlag(l, a, f)
  {
    assert [a][1..] == [];
    assert SetAll(SetFlag(l, a, f), [], f) == SetFlag(l, a, f);
  }

  lemma SetTwo(l: State, a: Stmt, b: Stmt, f: Flag)
    ensures SetAll(l, [a, b], f) == SetFlag(SetFlag(l, a, f), b, f)
  {
    assert [a, b][1..] == [b];
    SetOne(SetFlag(l, a, f), b, f);
  }

  // ---------------------------------------------------------------- an exit that is lowered

  /** A guard `0` that enters the loop of `1` and `2` or goes straight to `3`; the loop joins the
      thread in its header `1` and exits from there to `3`. */
  const LOOP := Program([0], {}, map[1 := [3]], map[0 := [1, 3], 1 := [2], 2 := [1], 3 := []])

  ghost predicate At(l: State, work: seq<Stmt>, three: Flag) {
    && l.work == work && Get(l.flags, 3) == three
    && Get(l.flags, 0) == TDAlive && Get(l.flags, 1) == TDAlive
  }

  lemma LoopEntered()
    ensures At(Rounds(LOOP, 1), [1, 3], TDAlive) && Get(Rounds(LOOP, 1).flags, 2) == Empty
  {
    var l := State(map[0 := TDAlive], [], {}, {});
    SetOne(State(map[], [], {}, {}), 0, TDAlive);
    assert Rounds(LOOP, 0) == l.(work := [0]);
    MarkTwo(l, 1, 3, 0);
    MarkAt(l, 1, 0);
    MarkAt(Mark(l, 1, 0), 3, 0);
  }

  lemma LoopJoined()
    ensures 3 in Lowered(LOOP, Rounds(LOOP, 1))
    ensures At(Rounds(LOOP, 2), [3, 2], TDDead)
  {
    hide Rounds;
    LoopEntered();
    RoundsNext(LOOP, 1);
    var m := Rounds(LOOP, 1);
    assert m.work[1..] == [3];
    SetOne(m.(work := [3]), 3, TDDead);
    MarkOne(SetFlag(m.(work := [3]), 3, TDDead), 2, 1);
  }

  lemma LoopLeft()
    ensures At(Rounds(LOOP, 4), [], TDDead)
  {
    hide Rounds;
    LoopJoined();
    RoundsNext(LOOP, 2);
    var m := Rounds(LOOP, 2);
    assert m.work[1..] == [2] && Exits(LOOP, 3) == [] && Next(LOOP, 3) == [];
    MarkNone(m.(work := [2]), 3);
    LoopTurned();
  }

  lemma LoopTurned()
    requires At(Rounds(LOOP, 3), [2], TDDead)
    ensures At(Rounds(LOOP, 4), [], TDDead)
  {
    hide Rounds;
    RoundsNext(LOOP, 3);
    var m := Rounds(LOOP, 3);
    assert m.work[1..] == [] && Exits(LOOP, 2) == [];
    MarkOne(m.(work := []), 1, 2);
  }

  /** The analysis ends with a dead exit behind a guard that is alive. */
  lemma LoopExitLowered()
    ensures Rounds(LOOP, 4).work == [] && 3 in Lost(LOOP, 4)
    ensures !Meets(LOOP, Rounds(LOOP, 4).flags)
  {
    hide Visit, Lowered;
    LoopJoined();
    LoopLeft();
    assert 3 in Next(LOOP, 0);
    assert Lost(LOOP, 2) == Lost(LOOP, 1) + Lowered(LOOP, Rounds(LOOP, 1));
    assert Lost(LOOP, 2) <= Lost(LOOP, 3);
  }

  // ---------------------------------------------------------------- exits that never settle

  /** Two loops that join the thread, each exiting into the other, in code that a switch enters
      everywhere: `1` and `4` are the joins, in the blocks that are the headers of the loops of
      `1`, `2`, `3` and of `4`, `5`, `6`; `2` and `5` are the terminators of those blocks, which
      also branch to the other header and to `8` and `7`; `7` leads to `8`, and the switch `8`
      to both headers, to `7` and to the return `9`. The thread that is joined is loaded before the
      fork, so that nothing precedes the joins in their blocks. */
  const SWAP := Program([0], {}, map[1 := [4, 8], 4 := [1, 7]], map[0 := [1, 7, 4, 8], 1 := [2], 2 := [3], 3 := [1],
      4 := [5], 5 := [6], 6 := [4], 7 := [8], 8 := [4, 1, 7, 9], 9 := []])

  const CORE: set<Stmt> := {1, 4, 7, 8}

  /** The order in which the joins and the blocks between the loops wait. */
  function Core(work: seq<Stmt>): seq<Stmt>
    decreases |work|
  {
    if work == [] then [] else (if work[0] in CORE then [work[0]] else []) + Core(work[1..])
  }

  lemma {:induction false} CoreMembers(work: seq<Stmt>)
    ensures forall x :: x in Core(work) <==> x in work && x in CORE
    decreases |work|
  {
    if work != [] {
      CoreMembers(work[1..]);
    }
  }

  lemma {:induction false} CoreAppend(work: seq<Stmt>, s: Stmt)
    ensures Core(work + [s]) == Core(work) + if s in CORE then [s] else []
    decreases |work|
  {
    if work == [] {
      assert work + [s] == [s] && [s][1..] == [];
    } else {
      var first := if work[0] in CORE then [work[0]] else [];
      CoreAppend(work[1..], s);
      assert (work + [s])[1..] == work[1..] + [s];
      assert Core(work + [s]) == first + (Core(work[1..]) + if s in CORE then [s] else []);
      assert Core(work) == first + Core(work[1..]);
    }
  }

  lemma CorePush(work: seq<Stmt>, s: Stmt)
    ensures Core(Push(work, s)) == if s in CORE then Push(Core(work), s) else Core(work)
  {
    hide Core;
    CoreMembers(work);
    CoreAppend(work, s);
  }

  /** `core` is waiting, and `live` are the statements of `CORE` that are alive. */
  ghost predicate In(l: State, core: seq<Stmt>, live: set<Stmt>) {
    && Core(l.work) == core && 0 !in l.work
    && (forall s :: s in CORE ==> Get(l.flags, s) == if s in live then TDAlive else TDDead)
    && Get(l.flags, 5) != TDAlive && Get(l.flags, 6) != TDAlive
  }

  lemma Kill(l: State, core: seq<Stmt>, live: set<Stmt>, t: Stmt)
    requires In(l, core, live) && t in CORE
    ensures In(SetFlag(l, t, TDDead), if t in live then Push(core, t) else core, live - {t})
  {
    SetAt(l, t, TDDead);
    CorePush(l.work, t);
  }

  lemma Raise(l: State, core: seq<Stmt>, live: set<Stmt>, t: Stmt, s: Stmt)
    requires In(l, core, live) && t in CORE && Get(l.flags, s) == TDAlive
    ensures In(Mark(l, t, s), if t in live then core else Push(core, t), live + {t})
    ensures Get(Mark(l, t, s).flags, s) == TDAlive
  {
    MarkAt(l, t, s);
    CorePush(l.work, t);
  }

  /** Marks that cannot raise a statement of `CORE`. */
  lemma Keep(l: State, core: seq<Stmt>, live: set<Stmt>, t: Stmt, s: Stmt)
    requires In(l, core, live) && t != 0
    requires t in CORE ==> Get(l.flags, s) != TDAlive
    requires t == 5 || t == 6 ==> Get(l.flags, s) != TDAlive
    ensures In(Mark(l, t, s), core, live)
  {
    MarkAt(l, t, s);
    CorePush(l.work, t);
  }

  ghost predicate Turning(l: State) {
    || In(l, [1, 7, 4, 8], CORE) || In(l, [1, 7, 4], CORE)
    || In(l, [7, 4, 8], {1, 7}) || In(l, [4, 8], {1, 7, 8})
    || In(l, [8, 1, 7], {8}) || In(l, [8, 1, 7], {8, 1})
  }

  lemma RecordedIn(l: State, core: seq<Stmt>, live: set<Stmt>, s: Stmt)
    requires In(l, core, live)
    ensures In(Recorded(l, s), core, live)
  {
  }

  lemma Popped(l: State, core: seq<Stmt>, live: set<Stmt>)
    requires In(l, core, live) && l.work != []
    ensures l.work[0] != 0
    ensures l.work[0] in CORE ==> core != [] && l.work[0] == core[0] && In(l.(work := l.work[1..]), core[1..], live)
    ensures l.work[0] !in CORE ==> In(l.(work := l.work[1..]), core, live)
  {
  }

  /** What a round does, for a statement with two exits and one successor, or with four successors. */
  lemma VisitExits(p: Program, l: State, s: Stmt, a: Stmt, b: Stmt, t: Stmt)
    requires l.work != [] && l.work[0] == s && s !in p.joins && Exits(p, s) == [a, b] && Next(p, s) == [t]
    ensures Visit(p, l) == Recorded(Mark(SetFlag(SetFlag(l.(work := l.work[1..]), a, TDDead), b, TDDead), t, s), s)
  {
    hide SetFlag, Mark, Recorded;
    SetTwo(l.(work := l.work[1..]), a, b, TDDead);
    MarkOne(Taken(p, l), t, s);
  }

  lemma VisitOne(p: Program, l: State, s: Stmt, t: Stmt)
    requires l.work != [] && l.work[0] == s && s !in p.joins && Exits(p, s) == [] && Next(p, s) == [t]
    ensures Visit(p, l) == Recorded(Mark(l.(work := l.work[1..]), t, s), s)
  {
    hide SetFlag, Mark, Recorded;
    MarkOne(Taken(p, l), t, s);
  }

  /** `1` is alive: its loop's exits are declared dead. */
  lemma TurnOne(l: State, core: seq<Stmt>)
    requires l.work != [] && l.work[0] == 1 && (core == [1, 7, 4, 8] || core == [1, 7, 4]) && In(l, core, CORE)
    ensures In(Visit(SWAP, l), [7, 4, 8], {1, 7})
  {
    hide In, Core, SetFlag, Mark, Recorded, Visit;
    var r := l.(work := l.work[1..]);
    assert core[1..] == [7, 4] || core[1..] == [7, 4, 8];
    assert Push(core[1..], 4) == core[1..] && Push(core[1..], 8) == [7, 4, 8];
    Popped(l, core, CORE);
    VisitExits(SWAP, l, 1, 4, 8, 2);
    Kill(r, core[1..], CORE, 4);
    Kill(SetFlag(r, 4, TDDead), core[1..], CORE - {4}, 8);
    var m := SetFlag(SetFlag(r, 4, TDDead), 8, TDDead);
    assert CORE - {4} - {8} == {1, 7};
    assert In(m, [7, 4, 8], {1, 7});
    Keep(m, [7, 4, 8], {1, 7}, 2, 1);
    RecordedIn(Mark(m, 2, 1), [7, 4, 8], {1, 7}, 1);
  }

  /** `4` is dead, and so are now the exits of its loop. */
  lemma TurnFour(l: State)
    requires l.work != [] && l.work[0] == 4 && In(l, [4, 8], {1, 7, 8})
    ensures In(Visit(SWAP, l), [8, 1, 7], {8})
  {
    hide Core, SetFlag, Mark, Recorded, Visit;
    var r := l.(work := l.work[1..]);
    Popped(l, [4, 8], {1, 7, 8});
    VisitExits(SWAP, l, 4, 1, 7, 5);
    Kill(r, [8], {1, 7, 8}, 1);
    Kill(SetFlag(r, 1, TDDead), [8, 1], {7, 8}, 7);
    var m := SetFlag(SetFlag(r, 1, TDDead), 7, TDDead);
    assert {1, 7, 8} - {1} == {7, 8} && {7, 8} - {7} == {8};
    assert In(m, [8, 1, 7], {8});
    Keep(m, [8, 1, 7], {8}, 5, 4);
    RecordedIn(Mark(m, 5, 4), [8, 1, 7], {8}, 4);
  }

  lemma TurnSeven(l: State)
    requires l.work != [] && l.work[0] == 7 && In(l, [7, 4, 8], {1, 7})
    ensures In(Visit(SWAP, l), [4, 8], {1, 7, 8})
  {
    hide Core, SetFlag, Mark, Recorded, Visit;
    var r := l.(work := l.work[1..]);
    Popped(l, [7, 4, 8], {1, 7});
    VisitOne(SWAP, l, 7, 8);
    Raise(r, [4, 8], {1, 7}, 8, 7);
    assert {1, 7} + {8} == {1, 7, 8};
    RecordedIn(Mark(r, 8, 7), [4, 8], {1, 7, 8}, 7);
  }

  lemma VisitFour(p: Program, l: State, s: Stmt, a: Stmt, b: Stmt, c: Stmt, d: Stmt)
    requires l.work != [] && l.work[0] == s && s !in p.joins && Exits(p, s) == [] && Next(p, s) == [a, b, c, d]
    ensures Visit(p, l) ==
            Recorded(Mark(Mark(Mark(Mark(l.(work := l.work[1..]), a, s), b, s), c, s), d, s), s)
  {
    hide SetFlag, Mark, Recorded;
    MarkFour(Taken(p, l), a, b, c, d, s);
  }

  /** `8` is alive, and so are again both joins. */
  lemma TurnEight(l: State, live: set<Stmt>)
    requires l.work != [] && l.work[0] == 8 && In(l, [8, 1, 7], live) && (live == {8} || live == {8, 1})
    ensures In(Visit(SWAP, l), [1, 7, 4], CORE)
  {
    hide Core, SetFlag, Mark, Recorded, Visit;
    var r := l.(work := l.work[1..]);
    Popped(l, [8, 1, 7], live);
    VisitFour(SWAP, l, 8, 4, 1, 7, 9);
    Raise(r, [1, 7], live, 4, 8);
    var m := Mark(r, 4, 8);
    Raise(m, [1, 7, 4], live + {4}, 1, 8);
    Raise(Mark(m, 1, 8), [1, 7, 4], live + {4} + {1}, 7, 8);
    var q := Mark(Mark(m, 1, 8), 7, 8);
    assert live + {4} + {1} + {7} == CORE;
    Keep(q, [1, 7, 4], CORE, 9, 8);
    RecordedIn(Mark(q, 9, 8), [1, 7, 4], CORE, 8);
  }

  /** The statements of the loops' bodies only wait in between. */
  lemma TurnOther(l: State, core: seq<Stmt>, live: set<Stmt>)
    requires l.work != [] && l.work[0] !in CORE && In(l, core, live)
    requires 1 in live || core == [8, 1, 7]
    ensures In(Visit(SWAP, l), core, live) || In(Visit(SWAP, l), core, live + {1})
  {
    hide Core, SetFlag, Mark, Recorded, Visit;
    var s, r := l.work[0], l.(work := l.work[1..]);
    Popped(l, core, live);
    if s == 3 && Get(l.flags, 3) == TDAlive {
      VisitOne(SWAP, l, 3, 1);
      Raise(r, core, live, 1, 3);
      RecordedIn(Mark(r, 1, 3), core, live + {1}, 3);
    } else if s in {2, 3, 5, 6} {
      var t := Next(SWAP, s)[0];
      VisitOne(SWAP, l, s, t);
      Keep(r, core, live, t, s);
      RecordedIn(Mark(r, t, s), core, live, s);
    } else {
      VisitNone(SWAP, l, s);
      RecordedIn(r, core, live, s);
    }
  }

  lemma VisitNone(p: Program, l: State, s: Stmt)
    requires l.work != [] && l.work[0] == s && s !in p.joins && Exits(p, s) == [] && Next(p, s) == []
    ensures Visit(p, l) == Recorded(l.(work := l.work[1..]), s)
  {
    MarkNone(Taken(p, l), s);
  }

  lemma Turn(l: State)
    requires Turning(l)
    ensures l.work != [] && Turning(Visit(SWAP, l))
  {
    hide In, Core, Visit;
    var core, live := Waiting(l);
    if l.work[0] !in CORE {
      TurnOther(l, core, live);
      assert CORE + {1} == CORE && {1, 7} + {1} == {1, 7} && {1, 7, 8} + {1} == {1, 7, 8};
      assert {8} + {1} == {8, 1} && {8, 1} + {1} == {8, 1};
    } else {
      Popped(l, core, live);
      if core[0] == 1 {
        TurnOne(l, core);
      } else if core[0] == 7 {
        TurnSeven(l);
      } else if core[0] == 4 {
        TurnFour(l);
      } else {
        TurnEight(l, live);
      }
    }
  }

  /** Which of the pictures it is. */
  lemma Waiting(l: State) returns (core: seq<Stmt>, live: set<Stmt>)
    requires Turning(l)
    ensures In(l, core, live) && l.work != []
    ensures || (live == CORE && (core == [1, 7, 4, 8] || core == [1, 7, 4]))
            || (live == {1, 7} && core == [7, 4, 8]) || (live == {1, 7, 8} && core == [4, 8])
            || ((live == {8} || live == {8, 1}) && core == [8, 1, 7])
  {
    core := Core(l.work);
    live := set s | s in CORE && Get(l.flags, s) == TDAlive;
    assert Core([]) == [];
  }

  /** `0` has marked `ts`, and nothing else has happened. */
  ghost predicate Entered(l: State, ts: seq<Stmt>) {
    && l.work == ts == Core(ts) && forall s :: Get(l.flags, s) == if s == 0 || s in ts then TDAlive else Empty
  }

  lemma Enter(l: State, ts: seq<Stmt>, t: Stmt)
    requires Entered(l, ts) && t !in ts && t in CORE
    ensures Entered(Mark(l, t, 0), ts + [t])
  {
    hide Core;
    MarkAt(l, t, 0);
    CoreAppend(ts, t);
  }

  lemma EnteredTurns(l: State)
    requires Entered(l, [1, 7, 4, 8])
    ensures In(l, [1, 7, 4, 8], CORE)
  {
    hide Core;
  }

  lemma Alone(l: State)
    requires l == State(map[0 := TDAlive], [], {}, {})
    ensures Entered(l, []) && l.(work := [0]).(work := [0][1..]) == l
  {
    assert Core([]) == [] && [0][1..] == [];
  }

  lemma SwapStart()
    ensures Rounds(SWAP, 0).work != [] && Turning(Rounds(SWAP, 1))
  {
    hide Core, Mark, In, Entered, Recorded, Visit;
    var l := State(map[0 := TDAlive], [], {}, {});
    SetOne(State(map[], [], {}, {}), 0, TDAlive);
    assert Rounds(SWAP, 0) == l.(work := [0]);
    RoundsNext(SWAP, 0);
    Alone(l);
    VisitFour(SWAP, l.(work := [0]), 0, 1, 7, 4, 8);
    assert [] + [1] == [1] && [1] + [7] == [1, 7] && [1, 7] + [4] == [1, 7, 4] && [1, 7, 4] + [8] == [1, 7, 4, 8];
    Enter(l, [], 1);
    Enter(Mark(l, 1, 0), [1], 7);
    Enter(Mark(Mark(l, 1, 0), 7, 0), [1, 7], 4);
    Enter(Mark(Mark(Mark(l, 1, 0), 7, 0), 4, 0), [1, 7, 4], 8);
    var m := Mark(Mark(Mark(Mark(l, 1, 0), 7, 0), 4, 0), 8, 0);
    EnteredTurns(m);
    RecordedIn(m, [1, 7, 4, 8], CORE, 0);
  }

  lemma {:induction false} SwapTurns(n: nat)
    ensures Turning(Rounds(SWAP, n + 1))
  {
    hide Visit, Turning;
    if n == 0 {
      SwapStart();
    } else {
      SwapTurns(n - 1);
      Turn(Rounds(SWAP, n));
    }
  }

  /** In turn, the loops are declared dead and found alive again. */
  lemma SwapNeverEnds()
    ensures NeverEnds(SWAP)
  {
    hide Visit, Rounds, Turning;
    SwapStart();
    forall n: nat
      ensures Rounds(SWAP, n).work != []
    {
      if n > 0 {
        SwapTurns(n - 1);
        Turn(Rounds(SWAP, n));
      }
    }
  }
}
