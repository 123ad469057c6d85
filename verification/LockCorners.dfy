/** A small program on which the lockset propagation goes wrong: a lock is taken on one of two branches. */
module LockCorners {
  import opened LockFixpoint
  import opened LockTermination
  import opened Locksets
  import opened Worklists

  // ---------------------------------------------------------------- single steps, spelled out

  /** An acquire that does not hold its lock yet. */
  lemma VisitAcquire(c: Cfg, l: State, s: Stmt, rest: seq<Stmt>, span: set<Stmt>, held: set<Stmt>)
    requires l.work == [s] + rest && s in c.acquires && s !in Get(l.held, s)
    requires span == Get(l.span, s) + {s} && held == Get(l.held, s) + {s}
    ensures Visit(c, l) == MarkAll(State(l.span[s := span], l.held[s := held], rest), Next(c, s), s)
  {
    assert l.work[1..] == rest;
    assert l.held[s := Get(l.held, s)][s := held] == l.held[s := held];
  }

  lemma MarkTwo(l: State, a: Stmt, b: Stmt, src: Stmt)
    ensures MarkAll(l, [a, b], src) == Mark(Mark(l, a, src), b, src)
  {
    assert [a, b][1..] == [b];
    MarkOne(Mark(l, a, src), b, src);
  }

  lemma MarkNone(l: State, src: Stmt)
    ensures MarkAll(l, [], src) == l
  {
  }

  lemma MarkOne(l: State, a: Stmt, src: Stmt)
    ensures MarkAll(l, [a], src) == Mark(l, a, src)
  {
    assert [a][1..] == [];
    assert MarkAll(Mark(l, a, src), [], src) == Mark(l, a, src);
  }

  // ---------------------------------------------------------------- a lock on one branch

  /** `0` branches to `1` and to the acquire `2`; both go on, by the branches `5` and `4`, to `3`. */
  const BRANCH := Cfg([0], {2}, {}, map[0 := [1, 2], 1 := [5], 5 := [3], 2 := [4], 4 := [3], 3 := []])

  /** A statement that neither acquires nor holds anything leaves no entry at its successor. */
  lemma VisitFree(c: Cfg, l: State, s: Stmt, rest: seq<Stmt>, t: Stmt)
    requires l.work == [s] + rest && s !in c.acquires && s !in c.releases && s !in l.held
    requires Next(c, s) == [t] && t !in l.held && t !in rest && t != s
    ensures Visit(c, l) == State(l.span, l.held[s := {}], rest + [t])
  {
    assert l.work[1..] == rest;
    MarkOne(State(l.span, l.held[s := {}], rest), t, s);
  }

  lemma BranchStart()
    ensures Rounds(BRANCH, 2) == State(map[], map[0 := {}, 1 := {}], [2, 5])
  {
    hide Visit;
    assert PushAll([], [0]) == PushAll([0], []);
    assert Rounds(BRANCH, 0) == State(map[], map[], [0]);
    RoundsNext(BRANCH, 0);
    BranchFork();
    RoundsNext(BRANCH, 1);
    VisitFree(BRANCH, Rounds(BRANCH, 1), 1, [2], 5);
    assert [2] + [5] == [2, 5];
  }

  lemma BranchFork()
    ensures Visit(BRANCH, State(map[], map[], [0])) == State(map[], map[0 := {}], [1, 2])
  {
    assert [0][1..] == [];
    MarkTwo(State(map[], map[0 := {}], []), 1, 2, 0);
  }

  ghost predicate At(l: State, work: seq<Stmt>, held: LockMap) {
    l.work == work && l.held == held
  }

  lemma BranchLocked()
    ensures At(Rounds(BRANCH, 3), [5, 4], map[0 := {}, 1 := {}, 2 := {2}, 4 := {2}])
  {
    hide Rounds;
    BranchStart();
    RoundsNext(BRANCH, 2);
    VisitAcquire(BRANCH, Rounds(BRANCH, 2), 2, [5], {2}, {2});
    var m := State(map[2 := {2}], map[0 := {}, 1 := {}, 2 := {2}], [5]);
    MarkOne(m, 4, 2);
    FirstMark(m, 4, 2);
  }

  /** A first mark from a source that holds something. */
  lemma FirstMark(l: State, tgr: Stmt, src: Stmt)
    requires tgr !in l.held && src in l.held && l.held[src] != {}
    ensures At(Mark(l, tgr, src), Push(l.work, tgr), l.held[tgr := l.held[src]])
  {
    assert {} + l.held[src] == l.held[src];
  }

  lemma BranchOpen()
    ensures At(Rounds(BRANCH, 4), [4, 3], map[0 := {}, 1 := {}, 2 := {2}, 4 := {2}, 5 := {}])
  {
    hide Rounds;
    BranchLocked();
    RoundsNext(BRANCH, 3);
    VisitFree(BRANCH, Rounds(BRANCH, 3), 5, [4], 3);
    assert [4] + [3] == [4, 3];
  }

  /** The lock-free path has come to `3` first, and has left no entry. */
  lemma BranchJoined()
    ensures At(Rounds(BRANCH, 5), [3], map[0 := {}, 1 := {}, 2 := {2}, 4 := {2}, 5 := {}, 3 := {2}])
  {
    hide Rounds;
    BranchOpen();
    RoundsNext(BRANCH, 4);
    var l := Rounds(BRANCH, 4);
    var m := l.(work := [3]);
    assert l.work[1..] == [3] && l.held[4 := {2}] == l.held;
    assert Visit(BRANCH, l) == MarkAll(m, [3], 4);
    MarkOne(m, 3, 4);
    FirstMark(m, 3, 4);
  }

  lemma BranchOver()
    ensures var l := Rounds(BRANCH, 6);
            l.work == [] && 5 in l.held && Get(l.held, 5) == {} && Get(l.held, 3) == {2}
  {
    hide Rounds;
    BranchJoined();
    RoundsNext(BRANCH, 5);
    var l := Rounds(BRANCH, 5);
    assert l.work[1..] == [];
    assert Visit(BRANCH, l) == MarkAll(Touch(l.(work := []), 3), [], 3);
    MarkNone(Touch(l.(work := []), 3), 3);
  }

  /** The analysis ends with the lock held at `3`, although the path through `1` takes none. */
  lemma BranchLock()
    ensures Rounds(BRANCH, 6).work == [] && Get(Rounds(BRANCH, 6).held, 3) == {2}
    ensures !Meets(BRANCH, Rounds(BRANCH, 6).held.Keys, Rounds(BRANCH, 6).held)
    ensures !NeverOverlooks(BRANCH, 6)
  {
    hide Rounds, NeverOverlooks;
    BranchOver();
    var l := Rounds(BRANCH, 6);
    assert WellFormed(BRANCH);
    assert 3 in Next(BRANCH, 5) && !(Get(l.held, 3) <= Get(l.held, 5) + Own(BRANCH, 3));
    assert !Meets(BRANCH, l.held.Keys, l.held);
    EndsInGreatest(BRANCH, 6);
  }
}
