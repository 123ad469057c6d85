/** The lockset analysis as it runs: two index maps and a worklist, changed in place. */
module LockAnalysis {
  import opened LockFixpoint
  import opened LockTermination
  import opened Locksets
  import opened Worklists

  lemma CoverNext(m: LockMap, done: set<Stmt>, k: Stmt, s: Stmt)
    requires k !in done
    ensures var c := Cover(m, done, s); Put(c, k, Get(c, k) + {s}) == Cover(m, done + {k}, s)
  {
    var c := Cover(m, done, s);
    var a, b := Put(c, k, Get(c, k) + {s}), Cover(m, done + {k}, s);
    assert a.Keys == b.Keys;
    forall x | x in a
      ensures a[x] == b[x]
    {
      assert a[x] == Get(a, x) && b[x] == Get(b, x);
    }
  }

  lemma CoverNone(m: LockMap, s: Stmt)
    ensures Cover(m, {}, s) == m
  {
    var e := Cover(m, {}, s);
    forall x | x in e
      ensures e[x] == m[x]
    {
      assert e[x] == Get(e, x);
    }
    assert e.Keys == m.Keys;
  }

  lemma HeldNext(l: State, s: Stmt, done: set<Stmt>, k: Stmt)
    ensures var held := Get(l.held, s) + (done + {k});
            Put(AddAll(l, s, done).held, s, Get(AddAll(l, s, done).held, s) + {k}) == Put(l.held, s, held)
  {
    hide Cover;
    var m := AddAll(l, s, done);
    assert Get(m.held, s) + {k} == Get(l.held, s) + (done + {k});
    assert m.held[s := Get(m.held, s) + {k}] == l.held[s := Get(m.held, s) + {k}];
  }

  lemma SpanNext(l: State, s: Stmt, done: set<Stmt>, k: Stmt)
    requires k !in done
    ensures var span := AddAll(l, s, done).span;
            Put(span, k, Get(span, k) + {s}) == Cover(l.span, done + {k}, s)
  {
    hide Cover, Put;
    CoverNext(l.span, done, k, s);
    if done == {} {
      CoverNone(l.span, s);
    }
  }

  /** Adding locks one by one, in whatever order. */
  lemma AddNext(l: State, s: Stmt, done: set<Stmt>, k: Stmt)
    requires k !in done
    ensures AddToSpan(AddAll(l, s, done), s, k) == AddAll(l, s, done + {k})
  {
    hide Cover, Put, Get;
    HeldNext(l, s, done, k);
    SpanNext(l, s, done, k);
    assert k in done + {k};
  }

  class LockSpans {
    const cfg: Cfg
    var cxtLockToSpan: LockMap
    var cxtStmtToCxtLockSet: LockMap
    var cxtStmtList: seq<Stmt>

    constructor (cfg: Cfg)
      ensures this.cfg == cfg && Now() == State(map[], map[], [])
    {
      this.cfg := cfg;
      cxtLockToSpan, cxtStmtToCxtLockSet, cxtStmtList := map[], map[], [];
    }

    ghost function Now(): State
      reads this
    {
      State(cxtLockToSpan, cxtStmtToCxtLockSet, cxtStmtList)
    }

    method AddCxtStmtToSpan(s: Stmt, k: Stmt) returns (inserted: bool)
      modifies this
      ensures Now() == AddToSpan(old(Now()), s, k)
      ensures inserted == (k !in Get(old(cxtStmtToCxtLockSet), s))
    {
      inserted := k !in Get(cxtStmtToCxtLockSet, s);
      cxtLockToSpan := cxtLockToSpan[k := Get(cxtLockToSpan, k) + {s}];
      cxtStmtToCxtLockSet := cxtStmtToCxtLockSet[s := Get(cxtStmtToCxtLockSet, s) + {k}];
    }

    method RemoveCxtStmtToSpan(s: Stmt, k: Stmt) returns (found: bool)
      modifies this
      ensures Now() == RemoveFromSpan(old(Now()), s, k)
      ensures found == (k in Get(old(cxtStmtToCxtLockSet), s))
    {
      TouchCxtStmt(s);
      found := k in cxtStmtToCxtLockSet[s];
      if found {
        cxtStmtToCxtLockSet := cxtStmtToCxtLockSet[s := cxtStmtToCxtLockSet[s] - {k}];
        cxtLockToSpan := cxtLockToSpan[k := Get(cxtLockToSpan, k) - {s}];
        assert cxtStmtToCxtLockSet == Put(old(cxtStmtToCxtLockSet), s, Get(old(cxtStmtToCxtLockSet), s) - {k});
      }
    }

    method TouchCxtStmt(s: Stmt)
      modifies this`cxtStmtToCxtLockSet
      ensures Now() == Touch(old(Now()), s)
    {
      cxtStmtToCxtLockSet := cxtStmtToCxtLockSet[s := Get(cxtStmtToCxtLockSet, s)];
    }

    method PushToCtsWorkList(s: Stmt) returns (pushed: bool)
      modifies this`cxtStmtList
      ensures cxtStmtList == Push(old(cxtStmtList), s) && pushed == (s !in old(cxtStmtList))
    {
      pushed := s !in cxtStmtList;
      if pushed {
        cxtStmtList := cxtStmtList + [s];
      }
    }

    method PopFromCtsWorkList() returns (s: Stmt)
      requires cxtStmtList != []
      modifies this`cxtStmtList
      ensures s == old(cxtStmtList)[0] && cxtStmtList == old(cxtStmtList)[1..]
    {
      s := cxtStmtList[0];
      cxtStmtList := cxtStmtList[1..];
    }

    /** Erases from the lockset of `tgr` what is not in `src`. */
    method Intersect(tgr: Stmt, src: set<Stmt>) returns (changed: bool)
      requires tgr in cxtStmtToCxtLockSet
      modifies this`cxtStmtToCxtLockSet
      ensures cxtStmtToCxtLockSet ==
              Put(old(cxtStmtToCxtLockSet), tgr, Get(old(cxtStmtToCxtLockSet), tgr) * src)
      ensures changed == !(Get(old(cxtStmtToCxtLockSet), tgr) <= src)
    {
      var locks := cxtStmtToCxtLockSet[tgr];
      var rest, toBeDeleted := locks, {};
      while rest != {}
        invariant rest <= locks && toBeDeleted == locks - rest - src
        decreases rest
      {
        var k :| k in rest;
        rest := rest - {k};
        if k !in src {
          toBeDeleted := toBeDeleted + {k};
        }
      }
      changed := toBeDeleted != {};
      assert locks * src + toBeDeleted == locks;
      assert cxtStmtToCxtLockSet == cxtStmtToCxtLockSet[tgr := locks];
      while toBeDeleted != {}
        invariant toBeDeleted <= locks - src
        invariant cxtStmtToCxtLockSet == old(cxtStmtToCxtLockSet)[tgr := locks * src + toBeDeleted]
        decreases toBeDeleted
      {
        var k :| k in toBeDeleted;
        assert locks * src + toBeDeleted - {k} == locks * src + (toBeDeleted - {k});
        toBeDeleted := toBeDeleted - {k};
        cxtStmtToCxtLockSet := cxtStmtToCxtLockSet[tgr := cxtStmtToCxtLockSet[tgr] - {k}];
      }
      assert locks * src + {} == locks * src;
    }

    method MarkCxtStmtFlag(tgr: Stmt, src: Stmt)
      requires src in cxtStmtToCxtLockSet
      modifies this
      ensures Now() == Mark(old(Now()), tgr, src)
    {
      var srclockset := cxtStmtToCxtLockSet[src];
      if tgr !in cxtStmtToCxtLockSet {
        var rest := srclockset;
        while rest != {}
          invariant rest <= srclockset
          invariant Now() == AddAll(old(Now()), tgr, srclockset - rest)
          decreases rest
        {
          var k :| k in rest;
          AddNext(old(Now()), tgr, srclockset - rest, k);
          assert srclockset - (rest - {k}) == srclockset - rest + {k};
          rest := rest - {k};
          var _ := AddCxtStmtToSpan(tgr, k);
        }
        assert srclockset - {} == srclockset;
        var _ := PushToCtsWorkList(tgr);
      } else {
        var changed := Intersect(tgr, srclockset);
        if changed {
          var _ := PushToCtsWorkList(tgr);
        } else {
          assert Get(old(cxtStmtToCxtLockSet), tgr) * srclockset == old(cxtStmtToCxtLockSet)[tgr];
          assert cxtStmtToCxtLockSet == old(cxtStmtToCxtLockSet);
        }
      }
    }

    /** The handlers mark the statements that control may reach next. */
    method MarkNext(s: Stmt)
      requires s in cxtStmtToCxtLockSet
      modifies this
      ensures Now() == MarkAll(old(Now()), Next(cfg, s), s)
    {
      hide Mark;
      var tgrs := Next(cfg, s);
      var i := 0;
      while i < |tgrs|
        invariant 0 <= i <= |tgrs| && s in cxtStmtToCxtLockSet
        invariant MarkAll(Now(), tgrs[i..], s) == MarkAll(old(Now()), tgrs, s)
      {
        MarkKeepsOthers(Now(), tgrs[i], s);
        MarkCxtStmtFlag(tgrs[i], s);
        i := i + 1;
      }
    }

    /** One round of the driver. */
    method VisitNext()
      requires cxtStmtList != []
      modifies this
      ensures Now() == Visit(cfg, old(Now()))
    {
      var s := PopFromCtsWorkList();
      TouchCxtStmt(s);
      if s in cfg.acquires {
        var inserted := AddCxtStmtToSpan(s, s);
        if inserted {
          MarkNext(s);
        }
      } else if s in cfg.releases {
        var found := RemoveCxtStmtToSpan(s, s);
        if found {
          MarkNext(s);
        }
      } else {
        MarkNext(s);
      }
    }

    /** The driver: it ends, and unless it has overlooked a lock-free path, in the greatest locksets
        that shrink along edges. */
    method AnalyzeLockSpanCxtStmt()
      requires Now() == State(map[], map[], [])
      requires WellFormed(cfg) && AcquiresAreCalls(cfg)
      modifies this
      ensures exists n :: Now() == Rounds(cfg, n) && cxtStmtList == [] && SpansCover(Now()) &&
                (NeverOverlooks(cfg, n) ==> Meets(cfg, cxtStmtToCxtLockSet.Keys, cxtStmtToCxtLockSet))
      ensures forall r, g, s :: Meets(cfg, r, g) && s in cxtStmtToCxtLockSet ==>
                Get(g, s) <= Get(cxtStmtToCxtLockSet, s)
    {
      hide Visit, Sane, Meets, WellFormed, AcquiresAreCalls;
      PushEntries();
      Ends(cfg);
      ghost var k: nat :| Rounds(cfg, k).work == [];
      ghost var n: nat := 0;
      while cxtStmtList != []
        invariant n <= k && Now() == Rounds(cfg, n)
        decreases k - n
      {
        VisitNext();
        n := n + 1;
      }
      RoundsSane(cfg, n);
      EndsInGreatest(cfg, n);
      SaneSpans(cfg, Now());
    }

    method PushEntries()
      requires Now() == State(map[], map[], [])
      modifies this
      ensures Now() == Init(cfg)
    {
      var i := 0;
      while i < |cfg.entries|
        invariant 0 <= i <= |cfg.entries|
        invariant cxtLockToSpan == map[] && cxtStmtToCxtLockSet == map[]
        invariant PushAll(cxtStmtList, cfg.entries[i..]) == PushAll([], cfg.entries)
      {
        var _ := PushToCtsWorkList(cfg.entries[i]);
        i := i + 1;
      }
    }
  }

  lemma SaneSpans(c: Cfg, l: State)
    requires Sane(c, l)
    ensures SpansCover(l)
  {
  }
}
