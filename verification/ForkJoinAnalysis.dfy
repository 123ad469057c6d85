/** The fork-join analysis of one spawned thread as it runs: a flag map and a worklist, changed in
    place. */
module ForkJoinAnalysis {
  import opened ForkJoin
  import opened ForkJoinFixpoint
  import opened ForkJoinTermination
  import opened Worklists

  /** What the analysis leaves behind after `n` rounds: all demands but those on exits it lowered are
      met, the records hold what the visits found, and joins and lowered exits aside, they say which
      flags are dead. */
  ghost predicate Analyzed(p: Program, l: State, n: nat) {
    && l == Rounds(p, n) && l.work == []
    && MeetsBut(p, l.flags, Lost(p, n))
    && (forall s :: s in l.alive <==> Left(p, n, s, true))
    && (forall s :: s in l.dead <==> Left(p, n, s, false))
    && forall s {:trigger s in p.joins} :: s !in p.joins && s !in Lost(p, n) ==>
        (s in l.dead && s !in l.alive <==> Get(l.flags, s) == TDDead)
  }

  lemma EndedIsAnalyzed(p: Program, n: nat)
    requires Rounds(p, n).work == []
    ensures Analyzed(p, Rounds(p, n), n)
  {
    hide Rounds, Lost, MeetsBut, Left;
    EndsBelowLeast(p, n);
    forall s
      ensures s in Rounds(p, n).alive <==> Left(p, n, s, true)
      ensures s in Rounds(p, n).dead <==> Left(p, n, s, false)
    {
      RecordsIff(p, n, s);
    }
    forall s | s !in p.joins && s !in Lost(p, n)
      ensures s in Rounds(p, n).dead && s !in Rounds(p, n).alive <==> Get(Rounds(p, n).flags, s) == TDDead
    {
      RecordsAreLeast(p, n, s);
    }
  }

  class AliveFlags {
    const program: Program
    var cxtStmtToAliveFlagMap: FlagMap
    var cxtStmtList: seq<Stmt>
    var alive: set<Stmt>
    var dead: set<Stmt>

    constructor (program: Program)
      ensures this.program == program && Now() == State(map[], [], {}, {})
    {
      this.program := program;
      cxtStmtToAliveFlagMap, cxtStmtList, alive, dead := map[], [], {}, {};
    }

    ghost function Now(): State
      reads this
    {
      State(cxtStmtToAliveFlagMap, cxtStmtList, alive, dead)
    }

    method ClearFlagMap()
      modifies this
      ensures Now() == State(map[], [], {}, {})
    {
      cxtStmtToAliveFlagMap, cxtStmtList, alive, dead := map[], [], {}, {};
    }

    method GetMarkedFlag(s: Stmt) returns (f: Flag)
      modifies this`cxtStmtToAliveFlagMap
      ensures f == Get(old(cxtStmtToAliveFlagMap), s)
      ensures cxtStmtToAliveFlagMap == Touch(old(cxtStmtToAliveFlagMap), s)
    {
      if s !in cxtStmtToAliveFlagMap {
        cxtStmtToAliveFlagMap := cxtStmtToAliveFlagMap[s := Empty];
        f := Empty;
      } else {
        f := cxtStmtToAliveFlagMap[s];
        assert cxtStmtToAliveFlagMap == cxtStmtToAliveFlagMap[s := f];
      }
    }

    method PushToCtsWorkList(s: Stmt) returns (pushed: bool)
      modifies this`cxtStmtList
      ensures cxtStmtList == Push(old(cxtStmtList), s) && pushed == (s !in old(cxtStmtList))
    {
      pushed := s !in cxtStmtList;
      if pushed {
        cxtStmtList := cxtStmtList + [s];
      }
    }

    method PopFromCtsWorkList() returns (s: Stmt)
      requires cxtStmtList != []
      modifies this`cxtStmtList
      ensures s == old(cxtStmtList)[0] && cxtStmtList == old(cxtStmtList)[1..]
    {
      s := cxtStmtList[0];
      cxtStmtList := cxtStmtList[1..];
    }

    /** The form that initializes a flag. */
    method InitCxtStmtFlag(tgr: Stmt, flag: Flag)
      modifies this`cxtStmtToAliveFlagMap, this`cxtStmtList
      ensures Now() == SetFlag(old(Now()), tgr, flag)
    {
      var flagTgr := GetMarkedFlag(tgr);
      cxtStmtToAliveFlagMap := cxtStmtToAliveFlagMap[tgr := flag];
      var after := GetMarkedFlag(tgr);
      if flagTgr != after {
        var _ := PushToCtsWorkList(tgr);
      }
      assert cxtStmtToAliveFlagMap == Put(old(cxtStmtToAliveFlagMap), tgr, flag);
    }

    /** The transfer function. */
    method MarkCxtStmtFlag(tgr: Stmt, src: Stmt)
      modifies this`cxtStmtToAliveFlagMap, this`cxtStmtList
      ensures Now() == Mark(old(Now()), tgr, src)
    {
      var flagTgr := GetMarkedFlag(tgr);
      var flagSrc := GetMarkedFlag(src);
      if flagTgr == Empty {
        cxtStmtToAliveFlagMap := cxtStmtToAliveFlagMap[tgr := flagSrc];
      } else if flagTgr == TDDead {
        if flagSrc == TDAlive {
          cxtStmtToAliveFlagMap := cxtStmtToAliveFlagMap[tgr := TDAlive];
        }
      }
      assert cxtStmtToAliveFlagMap == Put(Touch(old(cxtStmtToAliveFlagMap), src), tgr, Meet(flagTgr, flagSrc));
      var after := GetMarkedFlag(tgr);
      assert cxtStmtToAliveFlagMap == Put(Touch(old(cxtStmtToAliveFlagMap), src), tgr, Meet(flagTgr, flagSrc));
      if flagTgr != after {
        var _ := PushToCtsWorkList(tgr);
      }
    }

    method MarkNext(s: Stmt)
      modifies this`cxtStmtToAliveFlagMap, this`cxtStmtList
      ensures Now() == MarkAll(old(Now()), Next(program, s), s)
    {
      var tgrs := Next(program, s);
      var i := 0;
      while i < |tgrs|
        invariant 0 <= i <= |tgrs|
        invariant MarkAll(Now(), tgrs[i..], s) == MarkAll(old(Now()), tgrs, s)
      {
        MarkCxtStmtFlag(tgrs[i], s);
        i := i + 1;
      }
    }

    method InitAll(tgrs: seq<Stmt>, flag: Flag)
      modifies this`cxtStmtToAliveFlagMap, this`cxtStmtList
      ensures Now() == SetAll(old(Now()), tgrs, flag)
    {
      var i := 0;
      while i < |tgrs|
        invariant 0 <= i <= |tgrs|
        invariant SetAll(Now(), tgrs[i..], flag) == SetAll(old(Now()), tgrs, flag)
      {
        InitCxtStmtFlag(tgrs[i], flag);
        i := i + 1;
      }
    }

    /** One round of the driver; past the handler it records the flag of the visited statement. */
    method VisitNext()
      requires cxtStmtList != []
      modifies this
      ensures Now() == Visit(program, old(Now()))
    {
      var s := PopFromCtsWorkList();
      if s in program.joins {
        InitCxtStmtFlag(s, TDDead);
      } else {
        InitAll(Exits(program, s), TDDead);
      }
      MarkNext(s);
      var f := GetMarkedFlag(s);
      if f != TDAlive {
        dead := dead + {s};
      } else {
        alive := alive + {s};
      }
    }

    /** The driver ends unless it keeps lowering exits, never above the least flags that meet the
        program's demands, and in the least flags if it lowered none. */
    method AnalyzeForkJoinPair()
      requires exists n: nat :: QuietFrom(program, n)
      modifies this
      ensures exists n: nat :: Analyzed(program, Now(), n)
      ensures forall h, s :: Meets(program, h) ==> Leq(Get(cxtStmtToAliveFlagMap, s), Get(h, s))
      ensures (forall n: nat :: NeverLowers(program, n)) ==> Meets(program, cxtStmtToAliveFlagMap)
    {
      hide Visit, QuietFrom, Lowered, Lost, MeetsBut;
      EndsIffQuiet(program);
      ghost var k: nat :| Rounds(program, k).work == [];
      ghost var n: nat := 0;
      ClearFlagMap();
      InitAll(program.seeds, TDAlive);
      while cxtStmtList != []
        invariant n <= k && Now() == Rounds(program, n)
        decreases k - n
      {
        VisitNext();
        n := n + 1;
      }
      EndedIsAnalyzed(program, n);
      EndsBelowLeast(program, n);
      if forall i: nat :: NeverLowers(program, i) {
        EndsInLeast(program, n);
      }
    }
  }
}
