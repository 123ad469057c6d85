/** The demand-driven points-to solver. A query evaluates the statement of its item by
    querying the items it reads; when a cached set grows, every recorded item that the
    change can reach is taken back and evaluated again, from inside the running query. */
module DdaSolver {
  import opened Svfg
  import opened Progress
  import opened DdaBudget
  import opened DdaQueries

  /** The per-statement index lists exactly the recorded items. */
  ghost predicate IndexHolds(index: map<LocId, set<Item>>, recorded: set<Item>) {
    && (forall d :: d in recorded <==> d.loc in index && d in index[d.loc])
    && (forall n, d :: n in index && d in index[n] ==> d.loc == n)
  }

  function CachedAt(g: Graph, topLevel: Assignment, addressTaken: Assignment, d: Item): set<NodeId>
    requires d.loc in g.stmts
  {
    if g.stmts[d.loc].TopLevel() then At(topLevel, d) else At(addressTaken, d)
  }

  ghost predicate CachesHold(g: Graph, topLevel: Assignment, addressTaken: Assignment, pts: Assignment) {
    forall d :: IsItem(g, d) ==> At(pts, d) == CachedAt(g, topLevel, addressTaken, d)
  }

  /** An item is looked for by a load on account of the object that it is about. */
  ghost predicate LoadsHold(loadItem: map<Item, Item>, loadVar: map<Item, NodeId>, noted: set<Item>) {
    noted == loadItem.Keys == loadVar.Keys && forall d :: d in loadVar ==> loadVar[d] == d.cur
  }

  lemma IndexAdds(index: map<LocId, set<Item>>, recorded: set<Item>, d: Item)
    requires IndexHolds(index, recorded)
    ensures IndexHolds(index[d.loc := (if d.loc in index then index[d.loc] else {}) + {d}], recorded + {d})
  {
  }

  lemma CachesUpdate(g: Graph, topLevel: Assignment, addressTaken: Assignment, pts: Assignment, d: Item,
                     all: set<NodeId>)
    requires IsItem(g, d) && CachesHold(g, topLevel, addressTaken, pts)
    ensures g.stmts[d.loc].TopLevel() ==> CachesHold(g, topLevel[d := all], addressTaken, pts[d := all])
    ensures !g.stmts[d.loc].TopLevel() ==> CachesHold(g, topLevel, addressTaken[d := all], pts[d := all])
  {
  }

  class Solver {
    const g: Graph
    const ander: Conservative
    const maxBudget: nat

    var backwardVisited: set<Item>
    var locToItems: map<LocId, set<Item>>
    var topLevelPts: map<Item, set<NodeId>>
    var addressTakenPts: map<Item, set<NodeId>>
    var loadItem: map<Item, Item>
    var loadVar: map<Item, NodeId>
    var outOfBudgetItems: set<Item>
    var outOfBudgetQuery: bool
    var steps: nat

    /** Statements evaluated since the last reset. */
    ghost var evaluated: nat

    /** The abstract state. */
    ghost var now: Snapshot

    // -------------------------------------------------------------- abstract state

    function PtsOf(d: Item): set<NodeId>
      requires d.loc in g.stmts
      reads this`topLevelPts, this`addressTakenPts
    {
      CachedAt(g, topLevelPts, addressTakenPts, d)
    }

    /** The steps taken, and those that may still come. */
    ghost function Spent(): nat
      reads this
    {
      steps + Pending(g, now.visited, now.pts)
    }

    /** The fields hold the abstract state. */
    ghost predicate Represents()
      reads this
    {
      && now.visited == backwardVisited
      && now.exhausted == outOfBudgetQuery
      && now.givenUp == outOfBudgetItems
      && IndexHolds(locToItems, now.recorded)
      && CachesHold(g, topLevelPts, addressTakenPts, now.pts)
      && LoadsHold(loadItem, loadVar, now.noted)
      && evaluated <= steps && evaluated <= maxBudget && (outOfBudgetQuery <==> maxBudget < steps)
    }

    ghost predicate Valid()
      reads this
    {
      WellFormed(g) && InRange(g, ander) && Represents() && Proper(g, now)
    }

    /** Between queries, and within one as long as `bound` contains what is cached. */
    ghost predicate Running(bound: Assignment)
      reads this
    {
      Valid() && now.givenUp !! now.recorded && Within(g, ander, now.givenUp, now.pts, bound)
    }

    /** Between two queries. */
    ghost predicate Rests()
      reads this
    {
      && Valid() && now.recorded <= now.visited
      && (Trusted(g, ander, now.givenUp) ==> Resting(g, ander, now))
    }

    constructor (g: Graph, ander: Conservative, maxBudget: nat)
      requires WellFormed(g) && InRange(g, ander)
      ensures this.g == g && this.ander == ander && this.maxBudget == maxBudget
      ensures Rests() && now == Snapshot({}, {}, map[], false, {}, {})
    {
      this.g, this.ander, this.maxBudget := g, ander, maxBudget;
      backwardVisited, locToItems := {}, map[];
      topLevelPts, addressTakenPts := map[], map[];
      loadItem, loadVar := map[], map[];
      outOfBudgetItems, outOfBudgetQuery, steps, evaluated := {}, false, 0, 0;
      now := Snapshot({}, {}, map[], false, {}, {});
      LeastIsBound(g, ander, {});
    }

    // -------------------------------------------------------------- whole queries

    /** Answers one query: the exact set when the budget suffices, the conservative one otherwise.
        Items on which an earlier query was given up keep their conservative set; from then on the
        answers are only as good as the conservative analysis, but no other item is cached more than
        before. A budget of `Enough` is never exhausted. */
    method ComputePts(d: Item) returns (pts: set<NodeId>)
      requires Rests() && IsItem(g, d) && g.stmts[d.loc].TopLevel()
      modifies this
      ensures Rests() && evaluated <= maxBudget
      ensures forall f :: IsItem(g, f) ==> At(old(now.pts), f) <= At(now.pts, f)
      ensures pts == if now.exhausted then Fallback(ander, d) else At(now.pts, d)
      ensures Trusted(g, ander, now.givenUp) ==> pts == At(Least(g, ander, now.givenUp), d)
      ensures Trusted(g, ander, now.givenUp) && !now.exhausted ==>
                forall f :: IsItem(g, f) && f in now.visited ==> At(now.pts, f) == At(Least(g, ander, now.givenUp), f)
      ensures Trusted(g, ander, old(now.givenUp)) ==>
                forall f :: IsItem(g, f) && (f != d || !now.exhausted) ==>
                  At(now.pts, f) <= At(Least(g, ander, old(now.givenUp)), f)
      ensures Enough(g) <= maxBudget ==> !now.exhausted
      ensures now.givenUp == old(now.givenUp) + if now.exhausted then {d} else {}
      ensures AfterReset(now).visited ==
              AfterReset(old(now)).visited + if now.exhausted then {d} else now.recorded
    {
      hide WellFormed, InRange, Sound, IndexHolds, CachesHold, LoadsHold, Resting, Closed, UpToDate, Trusted, Within,
           Pending, Enough, Least;
      ResetQuery();
      ghost var start := now;
      ghost var bound := Bound();
      PendingBounded(g, now.visited, now.pts);
      pts := FindPT(d, bound);
      ghost var found := now;
      StaysWithin(found, bound);
      if outOfBudgetQuery {
        ghost var answered;
        pts, answered := HandleOutOfBudget(d);
        ResetAfterGivingUp(g, start, found, answered, d);
        if Trusted(g, ander, now.givenUp) {
          AbandonedTrusted(start, found, answered, d, bound);
        }
      } else {
        VisitedAfterQuery(g, start, found);
        if Trusted(g, ander, now.givenUp) {
          CompletedQuery(g, ander, start, found);
        }
      }
    }

    lemma StaysWithin(s: Snapshot, bound: Assignment)
      requires Within(g, ander, s.givenUp, s.pts, bound)
      ensures forall f :: At(s.pts, f) <= At(bound, f)
    {
      hide Solves;
    }

    /** What the answers of a query stay within: the least solution, as far as it is known to be kept. */
    ghost function Bound(): (bound: Assignment)
      requires Rests()
      reads this
      ensures Within(g, ander, now.givenUp, now.pts, bound)
      ensures Trusted(g, ander, now.givenUp) ==> bound == Least(g, ander, now.givenUp)
    {
      if Trusted(g, ander, now.givenUp) then
        RestingRuns(g, ander, now);
        Least(g, ander, now.givenUp)
      else
        TopIsBound(g, ander, now);
        Top(g)
    }

    lemma AbandonedTrusted(start: Snapshot, found: Snapshot, answered: Snapshot, d: Item, bound: Assignment)
      requires WellFormed(g) && Trusted(g, ander, found.givenUp + {d}) && IsItem(g, d)
      requires Trusted(g, ander, start.givenUp) ==> Resting(g, ander, start) && bound == Least(g, ander, start.givenUp)
      requires start == AfterReset(start) && Advances(g, start, found) && Proper(g, found) && found.exhausted
      requires Within(g, ander, found.givenUp, found.pts, bound)
      requires found.givenUp !! found.recorded && d in found.recorded && d !in start.visited
      requires Advances(g, found, answered) && Proper(g, answered)
      requires answered.recorded <= answered.visited && answered.givenUp !! answered.recorded
      requires AnsweredConservatively(g, ander, found, answered, d)
      ensures Resting(g, ander, answered.(givenUp := answered.givenUp + {d}))
      ensures Fallback(ander, d) == At(Least(g, ander, answered.givenUp + {d}), d)
    {
      hide WellFormed, Sound, Resting, Within, Least, UpToDate;
      AbandonedQuery(g, ander, start, found, answered, d);
      FallbackBounds(g, ander, answered.givenUp + {d}, d);
    }

    lemma RestsAfterReset(before: Snapshot)
      requires WellFormed(g) && InRange(g, ander) && Proper(g, before) && before.recorded <= before.visited
      requires Trusted(g, ander, before.givenUp) ==> Resting(g, ander, before)
      requires now == AfterReset(before) && now.visited == backwardVisited
      requires !outOfBudgetQuery && outOfBudgetItems == before.givenUp && steps == 0 && evaluated == 0
      requires locToItems == map[] && loadItem == map[] && loadVar == map[]
      requires CachesHold(g, topLevelPts, addressTakenPts, before.pts)
      ensures Rests()
    {
      hide WellFormed, InRange, CachesHold, Resting, Trusted;
      if Trusted(g, ander, before.givenUp) {
        RestingResets(g, ander, before);
      }
    }

    static lemma VisitedAfterReset(s: Snapshot)
      ensures AfterReset(s).visited == if s.exhausted then s.visited - (s.recorded - s.givenUp) else s.visited
    {
    }

    lemma RestsParts()
      requires Rests()
      ensures WellFormed(g) && InRange(g, ander) && Represents() && Proper(g, now) && now.recorded <= now.visited
      ensures Trusted(g, ander, now.givenUp) ==> Resting(g, ander, now)
      ensures now.recorded <= backwardVisited && IndexHolds(locToItems, now.recorded)
      ensures backwardVisited == now.visited && outOfBudgetItems == now.givenUp && outOfBudgetQuery == now.exhausted
      ensures CachesHold(g, topLevelPts, addressTakenPts, now.pts)
    {
      hide WellFormed, InRange, CachesHold, IndexHolds, Resting, Trusted;
    }

    /** Forgets the index, and un-visits what a query that ran out of budget left half done. */
    method ResetQuery()
      requires Rests()
      modifies this
      ensures Rests() && now == AfterReset(old(now)) && steps == 0 && evaluated == 0
    {
      hide WellFormed, InRange, CachesHold, IndexHolds, Resting, Represents, Valid, Rests, AfterReset, Trusted,
           Proper;
      RestsParts();
      VisitedAfterReset(now);
      ghost var before := now;
      if outOfBudgetQuery {
        ResetVisited();
      }
      ForgetIndex();
      now := AfterReset(now);
      RestsAfterReset(before);
    }

    method ForgetIndex()
      modifies this`locToItems, this`loadItem, this`loadVar, this`outOfBudgetQuery, this`steps, this`evaluated
      ensures locToItems == map[] && loadItem == map[] && loadVar == map[]
      ensures !outOfBudgetQuery && steps == 0 && evaluated == 0
    {
      locToItems := map[];
      loadItem, loadVar := map[], map[];
      outOfBudgetQuery, steps, evaluated := false, 0, 0;
    }

    method ResetVisited()
      requires IndexHolds(locToItems, now.recorded) && now.recorded <= backwardVisited
      modifies this`backwardVisited
      ensures backwardVisited == old(backwardVisited) - (now.recorded - outOfBudgetItems)
    {
      var locs := locToItems.Keys;
      ghost var before, cleared := backwardVisited, {};
      while locs != {}
        invariant locs <= locToItems.Keys
        invariant backwardVisited == before - cleared
        invariant forall f :: f in cleared <==> f in now.recorded && f !in outOfBudgetItems && f.loc !in locs
        decreases locs
      {
        var n :| n in locs;
        locs := locs - {n};
        var items := locToItems[n];
        while items != {}
          invariant items <= locToItems[n]
          invariant backwardVisited == before - cleared
          invariant forall f :: f in cleared <==>
                      f in now.recorded && f !in outOfBudgetItems && f.loc !in locs && f !in items
          decreases items
        {
          var f :| f in items;
          items := items - {f};
          if f !in outOfBudgetItems {
            assert f in backwardVisited;
            backwardVisited := backwardVisited - {f};
            cleared := cleared + {f};
          }
        }
      }
    }

    /** Gives up on the item of the current query: it is answered, from now on, by the conservative
        analysis. */
    method HandleOutOfBudget(d: Item) returns (pts: set<NodeId>, ghost answered: Snapshot)
      requires Valid() && now.givenUp !! now.recorded && now.recorded <= now.visited
      requires now.exhausted && IsItem(g, d) && d in now.recorded
      modifies this
      ensures Valid() && pts == Fallback(ander, d)
      ensures now == answered.(givenUp := answered.givenUp + {d})
      ensures Advances(g, old(now), answered) && Proper(g, answered)
      ensures answered.recorded <= answered.visited && answered.givenUp !! answered.recorded
      ensures AnsweredConservatively(g, ander, old(now), answered, d)
    {
      hide Pending, Again, Represents, WellFormed, InRange, Within, Room, Advances;
      pts := Fallback(ander, d);
      FallbackRuns(g, ander, now, d);
      UpdateCachedPointsTo(d, pts, Top(g));
      answered := now;
      GiveUp(d);
    }

    method GiveUp(d: Item)
      requires Valid() && d in now.visited
      modifies this`outOfBudgetItems, this`now
      ensures Valid() && now == old(now).(givenUp := old(now.givenUp) + {d})
    {
      hide WellFormed, InRange, IndexHolds, CachesHold, LoadsHold;
      outOfBudgetItems := outOfBudgetItems + {d};
      now := now.(givenUp := now.givenUp + {d});
    }

    // -------------------------------------------------------------- query

    /** Returns the cached set of `d`, evaluating its statement first unless that was done. */
    method FindPT(d: Item, ghost bound: Assignment) returns (pts: set<NodeId>)
      requires Running(bound) && Queryable(g, now, d)
      requires now.recorded <= now.visited + {d}
      modifies this
      ensures Running(bound) && now.recorded <= now.visited
      ensures Advances(g, old(now), now)
      ensures old(now.exhausted) ==> now.pts == old(now.pts)
      ensures d in now.visited && pts == At(now.pts, d)
      ensures d in old(now.visited) ==> now == old(now)
      ensures d !in old(now.visited) ==> d in now.recorded && Excused(g, now, d)
      ensures Spent() <= old(Spent())
      decreases Room(g, now), Unvisited(g, now), 0
    {
      hide Pending, Again, Settled, Grows, UpToDate, Within, WellFormed, InRange, Room, Unvisited;
      ghost var start := now;
      if d in backwardVisited {
        AdvancesReflexive(g, start);
        return PtsOf(d);
      }
      MarkVisited(d, bound);
      var out := TestOutOfBudget(d, bound);
      ghost var marked := now;
      UnvisitedLess(g, start, marked, d);
      if !out {
        var computed := HandleSingleStatement(d, bound);
        ghost var middle := now;
        AdvanceLeavesLess(g, marked, middle);
        assert Room(g, middle) <= Room(g, start) && Unvisited(g, middle) < Unvisited(g, start);
        FlowWithin(g, ander, middle.givenUp, middle.pts, bound, d);
        UpdateCachedPointsTo(d, computed, bound);
        AdvancesTransitive(g, marked, middle, now);
      } else {
        AdvancesReflexive(g, now);
      }
      AdvancesFromMarked(g, start, marked, now, d);
      pts := PtsOf(d);
    }

    method MarkVisited(d: Item, ghost bound: Assignment)
      requires Running(bound) && Queryable(g, now, d) && d !in now.givenUp
      modifies this`backwardVisited, this`locToItems, this`now
      ensures Running(bound)
      ensures now == old(now).(visited := old(now.visited) + {d}, recorded := old(now.recorded) + {d})
      ensures d !in old(now.visited) ==> Spent() < old(Spent())
    {
      hide Pending, Again, WellFormed, InRange, Within, CachesHold, LoadsHold, IndexHolds, Proper;
      IndexAdds(locToItems, now.recorded, d);
      ProperAfterMark(g, now, d);
      if d !in now.visited {
        PendingVisited(g, now.visited, now.pts, d);
      }
      backwardVisited := backwardVisited + {d};
      locToItems := locToItems[d.loc := (if d.loc in locToItems then locToItems[d.loc] else {}) + {d}];
      now := now.(visited := now.visited + {d}, recorded := now.recorded + {d});
    }

    method TestOutOfBudget(d: Item, ghost bound: Assignment) returns (out: bool)
      requires Running(bound) && d in now.recorded
      modifies this`outOfBudgetQuery, this`steps, this`evaluated, this`now
      ensures Running(bound)
      ensures now == old(now).(exhausted := out) && (old(now.exhausted) ==> out)
      ensures !old(now.exhausted) ==> out == (old(steps) + 1 > maxBudget)
      ensures !out ==> evaluated == old(evaluated) + 1
      ensures Spent() <= old(Spent()) + 1
    {
      hide Pending, Again, WellFormed, InRange, Within, CachesHold, LoadsHold, IndexHolds, Proper;
      ProperAfterExhaustion(g, now);
      if outOfBudgetQuery {
        return true;
      }
      steps := steps + 1;
      if steps > maxBudget {
        outOfBudgetQuery := true;
        now := now.(exhausted := true);
      }
      if d !in outOfBudgetItems && !outOfBudgetQuery {
        evaluated := evaluated + 1;
      }
      return d in outOfBudgetItems || outOfBudgetQuery;
    }

    // -------------------------------------------------------------- one statement

    /** An item is being evaluated. */
    ghost predicate Evaluating(d: Item, bound: Assignment)
      reads this
    {
      IsItem(g, d) && Running(bound) && now.recorded <= now.visited && d in now.recorded
    }

    method HandleSingleStatement(d: Item, ghost bound: Assignment) returns (pts: set<NodeId>)
      requires Evaluating(d, bound)
      modifies this
      ensures Evaluating(d, bound) && Advances(g, old(now), now)
      ensures pts <= Flow(g, bound, d)
      ensures Excused(g, now, d) || Flow(g, Padded(g, now), d) <= pts
      ensures Spent() <= old(Spent())
      decreases Room(g, now), Unvisited(g, now), 7
    {
      hide Pending, Again, Settled, Grows, UpToDate, Within, InRange, Room, Represents, DirectFlow, IndirectFlow;
      assert WellFormedStmt(g, d.loc);
      pts := {};
      match g.stmts[d.loc]
      case Addr(_, o) =>
        AdvancesReflexive(g, now);
        pts := {o};
      case Copy(_) =>
        pts := BacktraceAlongDirect(pts, d, bound);
      case Gep(_, field) =>
        var gepPts := BacktraceAlongDirect({}, d, bound);
        pts := GepPts(field, gepPts);
      case Load(_, p) =>
        pts := HandleLoad(d, p, bound);
      case Store(p, q) =>
        pts := HandleStore(d, p, q, bound);
      case MemRegion =>
        pts := BacktraceAlongIndirect(pts, d, d, bound);
    }

    /** Starts a new computation from the pointer operand of a load or a store. */
    method StartFromPointer(d: Item, p: NodeId, ghost bound: Assignment) returns (pts: set<NodeId>)
      requires Evaluating(d, bound)
      requires (g.stmts[d.loc].Load? || g.stmts[d.loc].Store?) && p == g.stmts[d.loc].ptr
      modifies this
      ensures Evaluating(d, bound) && Advances(g, old(now), now)
      ensures pts <= At(bound, DefItem(g, p)) && At(Padded(g, now), DefItem(g, p)) <= pts
      ensures Spent() <= old(Spent())
      decreases Room(g, now), Unvisited(g, now), 3
    {
      hide Pending, Again, Settled, Grows, UpToDate, InRange, Room, Padded, Within, Proper, Represents;
      assert WellFormedStmt(g, d.loc);
      OperandFeeds(g, d, p);
      pts := BackwardPropagate({}, d, DefItem(g, p), Direct(g.def[p], d.loc), d, bound);
      PaddedVisited(g, now, DefItem(g, p));
    }

    method HandleLoad(d: Item, p: NodeId, ghost bound: Assignment) returns (pts: set<NodeId>)
      requires Evaluating(d, bound) && g.stmts[d.loc].Load? && p == g.stmts[d.loc].ptr
      modifies this
      ensures Evaluating(d, bound) && Advances(g, old(now), now)
      ensures pts <= LoadFlow(g, bound, d.loc, p)
      ensures Excused(g, now, d) || LoadFlow(g, Padded(g, now), d.loc, p) <= pts
      ensures Spent() <= old(Spent())
      decreases Room(g, now), Unvisited(g, now), 6
    {
      hide Pending, Again, Settled, InRange, Room, IndirectFlow, Padded, Excused, LoadFlow, CoversLoad, Represents,
           WellFormed, Within, Proper, Advances;
      ghost var start := now;
      var objs := StartFromPointer(d, p, bound);
      pts := {};
      var todo := objs;
      LoadStart(g, now, d, p, objs);
      while todo != {}
        invariant todo <= objs <= At(bound, DefItem(g, p))
        invariant Evaluating(d, bound) && Advances(g, start, now)
        invariant pts <= LoadFlow(g, bound, d.loc, p)
        invariant Excused(g, now, d) || CoversLoad(g, now, d, p, objs, todo, pts)
        invariant Spent() <= old(Spent())
        decreases todo
      {
        var o :| o in todo;
        ghost var before := now;
        AdvanceLeavesLess(g, start, before);
        var more := BacktraceForObject(pts, d.loc, d, o, d, bound);
        AdvancesTransitive(g, start, before, now);
        LoadStep(g, before, now, d, p, objs, todo, o, pts, more);
        LoadPiece(g, bound, d.loc, p, o);
        todo := todo - {o};
        pts := more;
      }
      if !Excused(g, now, d) {
        LoadComplete(g, now, d, p, objs, pts);
      }
    }

    method HandleStore(d: Item, p: NodeId, q: NodeId, ghost bound: Assignment) returns (pts: set<NodeId>)
      requires Evaluating(d, bound) && g.stmts[d.loc] == Store(p, q)
      modifies this
      ensures Evaluating(d, bound) && Advances(g, old(now), now)
      ensures pts <= StoreFlow(g, bound, d, p, q)
      ensures Excused(g, now, d) || StoreFlow(g, Padded(g, now), d, p, q) <= pts
      ensures Spent() <= old(Spent())
      decreases Room(g, now), Unvisited(g, now), 6
    {
      hide Pending, Again, Settled, InRange, Room, IndirectFlow, Padded, Excused, StoreFlow, CoversStore, Represents,
           WellFormed, Within, Proper, Advances;
      ghost var start := now;
      var targets := StartFromPointer(d, p, bound);
      pts := {};
      var todo := targets;
      StoreStart(g, now, d, p, q, targets);
      while todo != {}
        invariant todo <= targets <= At(bound, DefItem(g, p))
        invariant Evaluating(d, bound) && Advances(g, start, now)
        invariant pts <= StoreFlow(g, bound, d, p, q)
        invariant Excused(g, now, d) || CoversStore(g, now, d, p, q, targets, todo, pts)
        invariant Spent() <= old(Spent())
        decreases todo
      {
        var o :| o in todo;
        ghost var before := now;
        AdvanceLeavesLess(g, start, before);
        pts := HandleStoreTarget(pts, d, p, q, targets, todo, o, bound);
        AdvancesTransitive(g, start, before, now);
        todo := todo - {o};
      }
      if !Excused(g, now, d) {
        StoreComplete(g, now, d, p, q, targets, pts);
      }
    }

    /** One target of the store: the stored value, the old contents, or both. */
    method HandleStoreTarget(pts0: set<NodeId>, d: Item, p: NodeId, q: NodeId, targets: set<NodeId>,
                             ghost todo: set<NodeId>, o: NodeId, ghost bound: Assignment)
      returns (pts: set<NodeId>)
      requires Evaluating(d, bound) && g.stmts[d.loc] == Store(p, q)
      requires o in todo && todo <= targets <= At(bound, DefItem(g, p))
      requires pts0 <= StoreFlow(g, bound, d, p, q)
      requires Excused(g, now, d) || CoversStore(g, now, d, p, q, targets, todo, pts0)
      modifies this
      ensures Evaluating(d, bound) && Advances(g, old(now), now)
      ensures pts <= StoreFlow(g, bound, d, p, q)
      ensures Excused(g, now, d) || CoversStore(g, now, d, p, q, targets, todo - {o}, pts)
      ensures Spent() <= old(Spent())
      decreases Room(g, now), Unvisited(g, now), 5
    {
      hide Pending, Again, Settled, Grows, UpToDate, InRange, Room, IndirectFlow, Padded, Refines, Excused,
           StoreFlow, KeepsOld, WellFormed, Within, Proper, CoversStore, Represents, StrongUpdate;
      StorePieces(g, bound, d, p, q, targets, o);
      LoadNoted(d, bound);
      ghost var start := now;
      if o == loadVar[d] {
        pts := HandleStoreToObject(pts0, d, p, q, targets, o, bound);
      } else {
        pts := BacktraceAlongIndirect(pts0, d, d, bound);
      }
      StoreStays(g, start, now, d, p, q, targets, todo, pts0);
      StoreStep(g, now, d, p, q, targets, todo, o, pts0, pts);
    }

    /** The store writes the object that the item is about: its old contents are looked for as well,
        unless they are overwritten. */
    method HandleStoreToObject(pts0: set<NodeId>, d: Item, p: NodeId, q: NodeId, targets: set<NodeId>, o: NodeId,
                               ghost bound: Assignment)
      returns (pts: set<NodeId>)
      requires Evaluating(d, bound) && g.stmts[d.loc] == Store(p, q) && o == d.cur
      modifies this
      ensures Evaluating(d, bound) && Advances(g, old(now), now)
      ensures pts0 <= pts <= pts0 + At(bound, DefItem(g, q)) +
              if StrongUpdate(g, targets) then {} else IndirectFlow(g, bound, d.loc, o)
      ensures Excused(g, now, d) || At(Padded(g, now), DefItem(g, q)) <= pts
      ensures StrongUpdate(g, targets) || Excused(g, now, d) || IndirectFlow(g, Padded(g, now), d.loc, o) <= pts
      ensures Spent() <= old(Spent())
      decreases Room(g, now), Unvisited(g, now), 4
    {
      hide Pending, Again, Settled, Grows, UpToDate, InRange, Room, IndirectFlow, Padded, Refines, Excused,
           StoreFlow, WellFormed, Within, Proper, Represents, StrongUpdate;
      LoadNoted(d, bound);
      ghost var start := now;
      pts := BacktraceToStoreSrc(pts0, d, p, q, o, bound);
      if !StrongUpdate(g, targets) {
        ghost var middle, stored := now, pts;
        AdvanceLeavesLess(g, start, middle);
        LoadNoted(d, bound);
        pts := BacktraceForObject(pts, d.loc, loadItem[d], o, d, bound);
        StoredValueStays(g, middle, now, d, p, q, stored);
        AdvancesTransitive(g, start, middle, now);
      }
    }

    lemma LoadNoted(d: Item, bound: Assignment)
      requires Evaluating(d, bound) && !g.stmts[d.loc].TopLevel()
      ensures d in loadItem && d in loadVar && loadVar[d] == d.cur && d in now.noted
    {
    }

    /** Queries the value operand of a store. */
    method BacktraceToStoreSrc(pts0: set<NodeId>, d: Item, p: NodeId, q: NodeId, o: NodeId, ghost bound: Assignment)
      returns (pts: set<NodeId>)
      requires Evaluating(d, bound) && g.stmts[d.loc] == Store(p, q) && o == d.cur
      modifies this
      ensures Evaluating(d, bound) && Advances(g, old(now), now)
      ensures pts0 <= pts <= pts0 + At(bound, DefItem(g, q))
      ensures Excused(g, now, d) || At(Padded(g, now), DefItem(g, q)) <= pts
      ensures Spent() <= old(Spent())
      decreases Room(g, now), Unvisited(g, now), 3
    {
      hide Pending, Again, Settled, Grows, UpToDate, InRange, Room, Padded, Refines, Excused, Within, Proper,
           Represents;
      assert WellFormedStmt(g, d.loc);
      OperandFeeds(g, d, q);
      LoadNoted(d, bound);
      ghost var start := now;
      AddLoad(Item(o, d.loc), loadItem[d], o, bound);
      ghost var noted := now;
      AdvanceLeavesLess(g, start, noted);
      pts := BackwardPropagate(pts0, d, DefItem(g, q), Direct(g.def[q], d.loc), d, bound);
      AdvancesTransitive(g, start, noted, now);
      PaddedVisited(g, now, DefItem(g, q));
    }

    /** Looks for the object `o` at a statement, noting the load that wants it. */
    method BacktraceForObject(pts0: set<NodeId>, n: LocId, load: Item, o: NodeId, ghost owner: Item,
                              ghost bound: Assignment)
      returns (pts: set<NodeId>)
      requires Evaluating(owner, bound) && n == owner.loc && (g.stmts[n].Load? || o == owner.cur)
      modifies this
      ensures Evaluating(owner, bound) && Advances(g, old(now), now)
      ensures pts0 <= pts <= pts0 + IndirectFlow(g, bound, n, o)
      ensures Excused(g, now, owner) || IndirectFlow(g, Padded(g, now), n, o) <= pts
      ensures Spent() <= old(Spent())
      decreases Room(g, now), Unvisited(g, now), 3
    {
      hide Pending, Again, Settled, Grows, UpToDate, InRange, Room, IndirectFlow, Padded, Refines, Excused,
           WellFormed, Within, Proper, Represents;
      ghost var start := now;
      AddLoad(Item(o, n), load, o, bound);
      ghost var noted := now;
      AdvanceLeavesLess(g, start, noted);
      pts := BacktraceAlongIndirect(pts0, Item(o, n), owner, bound);
      AdvancesTransitive(g, start, noted, now);
    }

    method BacktraceAlongDirect(pts0: set<NodeId>, d: Item, ghost bound: Assignment) returns (pts: set<NodeId>)
      requires Evaluating(d, bound) && (g.stmts[d.loc].Copy? || g.stmts[d.loc].Gep?)
      modifies this
      ensures Evaluating(d, bound) && Advances(g, old(now), now)
      ensures pts0 <= pts <= pts0 + DirectFlow(g, bound, d.loc)
      ensures Excused(g, now, d) || DirectFlow(g, Padded(g, now), d.loc) <= pts
      ensures Spent() <= old(Spent())
      decreases Room(g, now), Unvisited(g, now), 2
    {
      hide Pending, Again, Settled, Grows, UpToDate, InRange, Room, DirectFlow, Padded, Refines, Excused, Represents,
           WellFormed, Within, Proper;
      ghost var start := now;
      AdvancesReflexive(g, start);
      pts := pts0;
      var todo := set e | e in g.edges && e.dst == d.loc;
      while todo != {}
        invariant todo <= g.edges
        invariant Evaluating(d, bound) && Advances(g, start, now)
        invariant pts0 <= pts <= pts0 + DirectFlow(g, bound, d.loc)
        invariant Excused(g, now, d) || CoversDirect(g, now, d, todo, pts)
        invariant Spent() <= old(Spent())
        decreases todo
      {
        var e :| e in todo;
        if e.Direct? && e.dst == d.loc {
          ghost var before, ptsBefore := now, pts;
          AdvanceLeavesLess(g, start, before);
          DirectFeeds(g, e, d);
          pts := BackwardPropagate(pts, d, TopItem(g, e.src), e, d, bound);
          AdvancesTransitive(g, start, before, now);
          DirectStep(g, before, now, d, e, todo, ptsBefore);
          DirectPiece(g, bound, e, d.loc);
        }
        todo := todo - {e};
      }
      if !Excused(g, now, d) {
        DirectPieces(g, Padded(g, now), d.loc, pts);
      }
    }

    /** Follows the indirect edges into `from` that carry its object, on behalf of `owner`. */
    method BacktraceAlongIndirect(pts0: set<NodeId>, from: Item, ghost owner: Item, ghost bound: Assignment)
      returns (pts: set<NodeId>)
      requires Evaluating(owner, bound) && from.loc == owner.loc && from in now.noted
      requires g.stmts[owner.loc].Load? || from.cur == owner.cur
      modifies this
      ensures Evaluating(owner, bound) && Advances(g, old(now), now)
      ensures pts0 <= pts <= pts0 + IndirectFlow(g, bound, from.loc, from.cur)
      ensures Excused(g, now, owner) || IndirectFlow(g, Padded(g, now), from.loc, from.cur) <= pts
      ensures Spent() <= old(Spent())
      decreases Room(g, now), Unvisited(g, now), 2
    {
      hide Pending, Again, Settled, Grows, UpToDate, InRange, Room, IndirectFlow, Padded, Refines, Excused,
           Represents, WellFormed, Within, Proper;
      ghost var start := now;
      AdvancesReflexive(g, start);
      pts := pts0;
      if from.cur in g.untracked {
        IndirectUntracked(g, Padded(g, now), from.loc, from.cur);
        return;
      }
      var todo := set e | e in g.edges && e.dst == from.loc;
      while todo != {}
        invariant todo <= g.edges
        invariant Evaluating(owner, bound) && Advances(g, start, now) && from in now.noted
        invariant pts0 <= pts <= pts0 + IndirectFlow(g, bound, from.loc, from.cur)
        invariant Excused(g, now, owner) || CoversIndirect(g, now, from, todo, pts)
        invariant Spent() <= old(Spent())
        decreases todo
      {
        var e :| e in todo;
        if e.Indirect? && e.dst == from.loc && from.cur in e.guard {
          ghost var before, ptsBefore := now, pts;
          AdvanceLeavesLess(g, start, before);
          IndirectFeeds(g, e, from.cur, owner);
          pts := BackwardPropagate(pts, from, Item(from.cur, e.src), e, owner, bound);
          AdvancesTransitive(g, start, before, now);
          NotedGrows(g, before, now);
          IndirectStep(g, before, now, owner, from, e, todo, ptsBefore);
          IndirectPiece(g, bound, e, from.loc, from.cur);
        }
        todo := todo - {e};
      }
      if !Excused(g, now, owner) {
        IndirectPieces(g, Padded(g, now), from.loc, from.cur, pts);
      }
    }

    /** Queries the source of an edge and unions the answer in. */
    method BackwardPropagate(pts0: set<NodeId>, from: Item, y: Item, e: Edge, ghost owner: Item,
                             ghost bound: Assignment)
      returns (pts: set<NodeId>)
      requires Evaluating(owner, bound) && from.loc == owner.loc
      requires e in g.edges && IsItem(g, y) && FeedsAlong(g, e, y, owner)
      requires e.Indirect? ==> from in now.noted && y.cur == from.cur
      modifies this
      ensures Evaluating(owner, bound) && Advances(g, old(now), now)
      ensures pts == pts0 + At(now.pts, y) && y in now.visited
      ensures At(now.pts, y) <= At(bound, y) && At(now.pts, y) <= g.ids
      ensures Spent() <= old(Spent())
      decreases Room(g, now), Unvisited(g, now), 1
    {
      hide Pending, Again, Settled, UpToDate, InRange, Room, Padded, Solves;
      assert WellFormedEdge(g, e);
      ghost var start := now;
      AdvancesReflexive(g, start);
      if e.Indirect? {
        AddLoad(y, loadItem[from], loadVar[from], bound);
      }
      ghost var noted := now;
      AdvanceLeavesLess(g, start, noted);
      var found := FindPT(y, bound);
      AdvancesTransitive(g, start, noted, now);
      pts := pts0 + found;
    }

    /** Notes which load, and which of its objects, the item is asked for by. */
    method AddLoad(d: Item, load: Item, v: NodeId, ghost bound: Assignment)
      requires Running(bound) && v == d.cur
      modifies this`loadItem, this`loadVar, this`now
      ensures Running(bound)
      ensures now == old(now).(noted := old(now.noted) + {d})
      ensures Advances(g, old(now), now)
      ensures Spent() <= old(Spent())
    {
      hide Pending, Again, WellFormed, InRange, Within, CachesHold, IndexHolds, Proper, Advances;
      ProperAfterNoting(g, now, d);
      loadVar := loadVar[d := v];
      loadItem := loadItem[d := load];
      now := now.(noted := now.noted + {d});
    }

    // -------------------------------------------------------------- recomputation

    /** Unions `pts` into the cached set, and on change brings everything that it feeds up to date. */
    method UpdateCachedPointsTo(d: Item, pts: set<NodeId>, ghost bound: Assignment)
      requires Evaluating(d, bound) && pts <= At(bound, d) && pts <= g.ids
      requires Excused(g, now, d) || Flow(g, Padded(g, now), d) <= pts
      modifies this
      ensures Evaluating(d, bound) && Advances(g, old(now), now)
      ensures Excused(g, now, d) && pts <= At(now.pts, d)
      ensures old(now.exhausted) ==>
                forall f :: IsItem(g, f) ==>
                  At(now.pts, f) == At(old(now.pts), f) + if f == d then pts else {}
      ensures Spent() <= old(Spent())
      decreases Room(g, now), Unvisited(g, now), 4
    {
      hide Pending, Again, Settled, UpToDate, InRange, Room, Padded, Refines, WellFormed, Within, Flow, Represents;
      ghost var start := now;
      var changed := UnionPts(d, pts, bound);
      ghost var grown := now;
      if changed {
        RoomLess(g, start, grown, d);
        ReCompute(d, bound);
      } else {
        AdvancesReflexive(g, grown);
      }
      AdvancesAfterGrowth(g, start, grown, now, d);
      GrowthSettles(g, start, grown, now, d, pts);
    }

    method UnionPts(d: Item, pts: set<NodeId>, ghost bound: Assignment) returns (changed: bool)
      requires Running(bound) && IsItem(g, d) && pts <= At(bound, d) && pts <= g.ids
      modifies this`topLevelPts, this`addressTakenPts, this`now
      ensures Running(bound)
      ensures now == old(now).(pts := old(now.pts)[d := At(old(now.pts), d) + pts])
      ensures changed <==> At(now.pts, d) != At(old(now.pts), d)
      ensures Spent() <= old(Spent())
      ensures changed ==> Spent() + Again(g) <= old(Spent())
    {
      hide Pending, Again, WellFormed, InRange, LoadsHold, IndexHolds, Proper;
      assert At(now.pts, d) == PtsOf(d);
      var all := PtsOf(d) + pts;
      CachesUpdate(g, topLevelPts, addressTakenPts, now.pts, d, all);
      PtsGrow(g, ander, now, bound, d, all);
      PendingGrown(g, now.visited, now.pts, d, all);
      changed := all != PtsOf(d);
      if g.stmts[d.loc].TopLevel() {
        topLevelPts := topLevelPts[d := all];
      } else {
        addressTakenPts := addressTakenPts[d := all];
      }
      now := now.(pts := now.pts[d := all]);
    }

    /** Evaluates again every recorded item that an out-edge of the statement of `d` feeds. */
    method ReCompute(d: Item, ghost bound: Assignment)
      requires Running(bound) && IsItem(g, d) && now.recorded <= now.visited
      modifies this
      ensures Running(bound) && now.recorded <= now.visited && Advances(g, old(now), now)
      ensures forall f :: IsItem(g, f) && f in old(now.recorded) && Feeds(g, d, f) ==> Excused(g, now, f)
      ensures old(now.exhausted) ==> now.pts == old(now.pts)
      ensures Spent() <= old(Spent()) + Again(g)
      decreases Room(g, now), Items(g), 3
    {
      hide Pending, Again, Settled, InRange, Room, Padded, Excused, WellFormed, Within, Proper, Represents, UpToDate;
      RecordedAt(bound);
      ghost var start := now;
      AdvancesReflexive(g, start);
      var todo := set e | e in g.edges && e.src == d.loc;
      EdgesAgain(g, todo);
      while todo != {}
        invariant todo <= g.edges
        invariant Running(bound) && now.recorded <= now.visited && Advances(g, start, now)
        invariant start.exhausted ==> now.pts == start.pts
        invariant FedExcused(g, start, now, d, todo)
        invariant Spent() + Times(|todo|, |Items(g)|) <= old(Spent()) + Again(g)
        decreases todo
      {
        var e :| e in todo;
        ghost var before := now;
        AdvanceLeavesLess(g, start, before);
        RecordedAt(bound);
        ReComputeAlong(d, e, if e.dst in locToItems then locToItems[e.dst] else {}, bound);
        AdvancesTransitive(g, start, before, now);
        FedExcusedStep(g, start, before, now, d, todo, e);
        todo := todo - {e};
      }
    }

    lemma RecordedAt(bound: Assignment)
      requires Running(bound)
      ensures forall n :: n in locToItems ==> locToItems[n] <= now.recorded
      ensures forall f :: f in now.recorded ==> IsItem(g, f) && f.loc in locToItems && f in locToItems[f.loc]
    {
    }

    /** ... along one edge, for the items recorded at its target when the edge is reached. */
    method ReComputeAlong(d: Item, e: Edge, items: set<Item>, ghost bound: Assignment)
      requires Running(bound) && now.recorded <= now.visited
      requires e in g.edges && IsItem(g, d) && items <= now.recorded
      requires forall f :: f in items ==> IsItem(g, f)
      modifies this
      ensures Running(bound) && now.recorded <= now.visited && Advances(g, old(now), now)
      ensures forall f :: f in items && FeedsAlong(g, e, d, f) ==> Excused(g, now, f)
      ensures old(now.exhausted) ==> now.pts == old(now.pts)
      ensures Spent() <= old(Spent()) + |Items(g)|
      decreases Room(g, now), Items(g), 2
    {
      hide Pending, Again, Settled, InRange, Room, Padded, Excused, WellFormed, Within, Proper, Represents, UpToDate;
      ghost var start := now;
      AdvancesReflexive(g, start);
      var todo := items;
      ItemsCount(g, items);
      while todo != {}
        invariant todo <= items <= now.recorded
        invariant Running(bound) && now.recorded <= now.visited && Advances(g, start, now)
        invariant start.exhausted ==> now.pts == start.pts
        invariant forall f :: f in items && f !in todo && FeedsAlong(g, e, d, f) ==> Excused(g, now, f)
        invariant Spent() + |todo| <= old(Spent()) + |Items(g)|
        decreases todo
      {
        var f :| f in todo;
        todo := todo - {f};
        if e.src == d.loc && e.dst == f.loc && (e.Indirect? && !g.stmts[f.loc].Load? ==> f.cur == d.cur) {
          ghost var before := now;
          AdvanceLeavesLess(g, start, before);
          EvaluateAgain(f, bound);
          AdvancesTransitive(g, start, before, now);
          ExcusedStay(g, before, now, items);
        }
      }
    }

    method EvaluateAgain(f: Item, ghost bound: Assignment)
      requires Running(bound) && now.recorded <= now.visited && f in now.recorded && IsItem(g, f)
      modifies this
      ensures Running(bound) && now.recorded <= now.visited && Advances(g, old(now), now)
      ensures Excused(g, now, f)
      ensures old(now.exhausted) ==> now.pts == old(now.pts)
      ensures Spent() <= old(Spent()) + 1
      decreases Room(g, now), Items(g), 1
    {
      hide Pending, Again, Settled, InRange, Room, Padded, Excused, WellFormed, Within, Proper, UpToDate;
      ghost var start := now;
      ClearVisited(f, bound);
      ghost var cleared := now;
      var _ := FindPT(f, bound);
      AdvancesFromCleared(g, start, cleared, now, f);
    }

    method ClearVisited(f: Item, ghost bound: Assignment)
      requires Running(bound) && f in now.recorded && f in backwardVisited
      modifies this`backwardVisited, this`now
      ensures Running(bound) && Queryable(g, now, f)
      ensures now == old(now).(visited := old(now.visited) - {f})
      ensures Room(g, now) == Room(g, old(now)) && Unvisited(g, now) <= Items(g)
      ensures Spent() <= old(Spent()) + 1
    {
      hide Pending, Again, WellFormed, InRange, Within, CachesHold, LoadsHold, IndexHolds;
      PendingCleared(g, now.visited, now.pts, f);
      backwardVisited := backwardVisited - {f};
      now := now.(visited := now.visited - {f});
    }
  }
}
