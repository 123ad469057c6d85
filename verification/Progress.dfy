/** What one run of the demand-driven solver may do to its state, as a relation between
    snapshots: visited and recorded items only grow, cached sets only grow, and an item
    whose inputs changed has been evaluated again. */
module Progress {
  import opened Svfg

  /** `visited` are the items not to be evaluated again, `recorded` those entered in the
      per-statement index since the last reset, `pts` the cached sets, `exhausted` whether the
      query is out of budget, `givenUp` the items on which an earlier query ran out of budget,
      and `noted` the items for which the load that asks for them is known. */
  datatype Snapshot = Snapshot(
    visited: set<Item>,
    recorded: set<Item>,
    pts: Assignment,
    exhausted: bool,
    givenUp: set<Item>,
    noted: set<Item>)

  /** The cached sets, with every item that is not visited taken to be unknown, hence full. */
  ghost function Padded(g: Graph, s: Snapshot): Assignment {
    map d | d in Items(g) :: if d in s.visited then At(s.pts, d) else g.ids
  }

  /** The equation of `d` holds now, and everything it reads has been visited. */
  ghost predicate Settled(g: Graph, s: Snapshot, d: Item)
    requires IsItem(g, d)
  {
    Flow(g, Padded(g, s), d) <= At(s.pts, d)
  }

  /** Nothing is left to prove of the evaluation of `d`: a nested run has completed it, or no
      budget is left to complete it. */
  ghost predicate Excused(g: Graph, s: Snapshot, d: Item)
    requires IsItem(g, d)
  {
    s.exhausted || Settled(g, s, d)
  }

  /** No item that feeds `d` has changed. */
  ghost predicate Undisturbed(g: Graph, s: Snapshot, t: Snapshot, d: Item)
    requires IsItem(g, d)
  {
    forall f :: IsItem(g, f) && Feeds(g, f, d) ==> At(t.pts, f) == At(s.pts, f)
  }

  ghost predicate Grows(g: Graph, s: Snapshot, t: Snapshot) {
    && s.visited <= t.visited
    && s.recorded <= t.recorded
    && t.visited - s.visited <= t.recorded
    && (t.recorded - s.recorded) !! s.visited
    && (forall d :: IsItem(g, d) ==> At(s.pts, d) <= At(t.pts, d))
    && (s.exhausted ==> t.exhausted)
    && s.givenUp == t.givenUp
    && s.noted <= t.noted
  }

  /** Every recorded item was either left alone or has been brought up to date. */
  ghost predicate UpToDate(g: Graph, s: Snapshot, t: Snapshot) {
    forall d :: IsItem(g, d) && d in t.recorded ==>
      Settled(g, t, d) || (d in s.recorded && Undisturbed(g, s, t, d))
  }

  ghost predicate Advances(g: Graph, s: Snapshot, t: Snapshot) {
    Grows(g, s, t) && (!t.exhausted ==> UpToDate(g, s, t))
  }

  lemma AdvancesReflexive(g: Graph, s: Snapshot)
    requires WellFormed(g)
    ensures Advances(g, s, s)
  {
  }

  /** `t` knows at least what `s` knew about every feeder of `d`, and the same about those visited. */
  ghost predicate Refines(g: Graph, s: Snapshot, t: Snapshot, d: Item)
    requires IsItem(g, d)
  {
    && BelowOnFeeders(g, Padded(g, t), Padded(g, s), d)
    && (forall f :: IsItem(g, f) && Feeds(g, f, d) && f in s.visited ==>
          At(Padded(g, t), f) == At(Padded(g, s), f))
  }

  lemma UndisturbedRefines(g: Graph, s: Snapshot, t: Snapshot, d: Item)
    requires WellFormed(g) && IsItem(g, d)
    requires s.visited <= t.visited && Undisturbed(g, s, t, d)
    requires Proper(g, t)
    ensures Refines(g, s, t, d)
  {
    forall f | IsItem(g, f) && Feeds(g, f, d)
      ensures At(Padded(g, t), f) <= At(Padded(g, s), f)
      ensures f in s.visited ==> At(Padded(g, t), f) == At(Padded(g, s), f)
    {
      ItemsComplete(g, f);
    }
  }

  /** A settled item stays settled while nothing that feeds it changes. */
  lemma SettledStays(g: Graph, s: Snapshot, t: Snapshot, d: Item)
    requires WellFormed(g) && IsItem(g, d)
    requires s.visited <= t.visited && Undisturbed(g, s, t, d)
    requires Proper(g, t)
    requires At(s.pts, d) <= At(t.pts, d) && Settled(g, s, d)
    ensures Settled(g, t, d)
  {
    UndisturbedRefines(g, s, t, d);
    FlowMonotone(g, Padded(g, t), Padded(g, s), d);
  }

  /** A recorded item is settled after a run, or the run has not touched what it reads. */
  lemma SettledOrRefines(g: Graph, s: Snapshot, t: Snapshot, d: Item)
    requires WellFormed(g) && IsItem(g, d) && Advances(g, s, t) && !t.exhausted
    requires Proper(g, t)
    requires d in s.recorded
    ensures Settled(g, t, d) || (!Settled(g, s, d) && Refines(g, s, t, d))
  {
    if !Settled(g, t, d) {
      UndisturbedRefines(g, s, t, d);
      if Settled(g, s, d) {
        SettledStays(g, s, t, d);
      }
    }
  }

  lemma AdvancesTransitive(g: Graph, s: Snapshot, t: Snapshot, u: Snapshot)
    requires WellFormed(g) && Advances(g, s, t) && Advances(g, t, u)
    requires Proper(g, u)
    ensures Advances(g, s, u)
  {
    assert (u.recorded - s.recorded) !! s.visited;
    if !u.exhausted {
      forall d | IsItem(g, d) && d in u.recorded && !Settled(g, u, d)
        ensures d in s.recorded && Undisturbed(g, s, u, d)
      {
        if Settled(g, t, d) {
          SettledStays(g, t, u, d);
        }
      }
    }
  }

  /** Marking and recording an item before its evaluation. */
  lemma AdvancesFromMarked(g: Graph, s: Snapshot, t: Snapshot, u: Snapshot, d: Item)
    requires WellFormed(g) && d !in s.visited
    requires t == s.(visited := s.visited + {d}, recorded := s.recorded + {d}, exhausted := t.exhausted)
    requires s.exhausted ==> t.exhausted
    requires Advances(g, t, u)
    requires IsItem(g, d) && (!u.exhausted ==> Settled(g, u, d))
    ensures Advances(g, s, u)
  {
    assert (u.recorded - s.recorded) !! s.visited;
  }

  /** Taking an item back before evaluating it again. */
  lemma AdvancesFromCleared(g: Graph, s: Snapshot, t: Snapshot, u: Snapshot, d: Item)
    requires WellFormed(g) && IsItem(g, d) && d in s.visited && d in s.recorded
    requires t == s.(visited := s.visited - {d})
    requires Advances(g, t, u) && d in u.visited
    ensures Advances(g, s, u)
  {
    assert (u.recorded - s.recorded) !! s.visited;
    if !u.exhausted {
      forall f | IsItem(g, f) && f in u.recorded && !Settled(g, u, f)
        ensures f in s.recorded && Undisturbed(g, s, u, f)
      {
      }
    }
  }

  /** The cached set of `d` grew, and then everything fed by `d` was evaluated again. */
  lemma AdvancesAfterGrowth(g: Graph, s: Snapshot, t: Snapshot, u: Snapshot, d: Item)
    requires WellFormed(g) && IsItem(g, d) && Advances(g, t, u)
    requires Proper(g, u)
    requires t == s.(pts := t.pts)
    requires At(s.pts, d) <= At(t.pts, d)
    requires forall f :: IsItem(g, f) && f != d ==> At(t.pts, f) == At(s.pts, f)
    requires At(t.pts, d) != At(s.pts, d) ==>
               forall f :: IsItem(g, f) && f in t.recorded && Feeds(g, d, f) ==> Excused(g, u, f)
    ensures Advances(g, s, u)
  {
    if !u.exhausted {
      forall f | IsItem(g, f) && f in u.recorded && !Settled(g, u, f)
        ensures f in s.recorded && Undisturbed(g, s, u, f)
      {
      }
    }
  }

  /** A statement is queried for its own pointer, or for an object a load is looking for. */
  ghost predicate Queryable(g: Graph, s: Snapshot, d: Item) {
    IsItem(g, d) && (!g.stmts[d.loc].TopLevel() ==> d in s.noted)
  }

  /** A snapshot that talks about this graph only. */
  ghost predicate Proper(g: Graph, s: Snapshot) {
    && (forall d :: d in s.visited ==> IsItem(g, d))
    && (forall d :: d in s.recorded ==> Queryable(g, s, d))
    && (forall d :: d in s.pts ==> IsItem(g, d) && s.pts[d] <= g.ids)
    && s.givenUp <= s.visited
  }

  /** `bound` is a solution, and nothing outside of it has been cached. */
  ghost predicate Within(g: Graph, ander: Conservative, givenUp: set<Item>, pts: Assignment, bound: Assignment) {
    && Solves(g, ander, givenUp, bound)
    && (forall f :: f in bound ==> bound[f] <= g.ids)
    && Below(pts, bound)
  }

  lemma ProperAfterMark(g: Graph, s: Snapshot, d: Item)
    requires Proper(g, s) && Queryable(g, s, d)
    ensures Proper(g, s.(visited := s.visited + {d}, recorded := s.recorded + {d}))
  {
  }

  lemma ProperAfterExhaustion(g: Graph, s: Snapshot)
    requires Proper(g, s)
    ensures Proper(g, s.(exhausted := true))
  {
  }

  lemma ProperAfterNoting(g: Graph, s: Snapshot, d: Item)
    requires Proper(g, s)
    ensures Proper(g, s.(noted := s.noted + {d}))
    ensures Advances(g, s, s.(noted := s.noted + {d}))
  {
  }

  lemma PtsGrow(g: Graph, ander: Conservative, s: Snapshot, bound: Assignment, d: Item, all: set<NodeId>)
    requires Proper(g, s) && Within(g, ander, s.givenUp, s.pts, bound)
    requires IsItem(g, d) && all <= At(bound, d)
    ensures Proper(g, s.(pts := s.pts[d := all]))
    ensures Within(g, ander, s.givenUp, s.pts[d := all], bound)
  {
  }

  lemma FlowWithin(g: Graph, ander: Conservative, givenUp: set<Item>, pts: Assignment, bound: Assignment, d: Item)
    requires WellFormed(g) && Within(g, ander, givenUp, pts, bound) && IsItem(g, d) && d !in givenUp
    ensures Flow(g, bound, d) <= At(bound, d) && Flow(g, bound, d) <= g.ids
  {
    FlowBounded(g, bound, d);
    assert Required(g, ander, givenUp, bound, d) <= At(bound, d);
  }

  // ---------------------------------------------------------------- evaluating one item

  lemma ExcusedOrRefines(g: Graph, s: Snapshot, t: Snapshot, d: Item)
    requires WellFormed(g) && IsItem(g, d) && Advances(g, s, t) && Proper(g, t)
    requires d in s.recorded
    ensures Excused(g, t, d) || (!Excused(g, s, d) && Refines(g, s, t, d))
  {
    if !t.exhausted {
      SettledOrRefines(g, s, t, d);
    }
  }

  lemma PaddedVisited(g: Graph, s: Snapshot, d: Item)
    requires IsItem(g, d) && d in s.visited
    ensures At(Padded(g, s), d) == At(s.pts, d)
  {
    ItemsComplete(g, d);
  }

  lemma NotedGrows(g: Graph, s: Snapshot, t: Snapshot)
    requires Advances(g, s, t)
    ensures s.noted <= t.noted && s.visited <= t.visited && s.recorded <= t.recorded
  {
  }

  /** What has been collected for `d` covers the direct edges that are not in `todo`. */
  ghost predicate CoversDirect(g: Graph, s: Snapshot, d: Item, todo: set<Edge>, pts: set<NodeId>) {
    forall e :: e in g.edges && e.Direct? && e.dst == d.loc && e !in todo ==>
      At(Padded(g, s), TopItem(g, e.src)) <= pts
  }

  /** Taking in the answer for one more edge keeps the answers for the others, unless the query
      for it has made the evaluation of `d` superfluous. */
  lemma DirectStep(g: Graph, s: Snapshot, t: Snapshot, d: Item, e: Edge, todo: set<Edge>, pts: set<NodeId>)
    requires WellFormed(g) && IsItem(g, d) && Advances(g, s, t) && Proper(g, t)
    requires d in s.recorded && e in g.edges && e.Direct? && e.dst == d.loc
    requires Excused(g, s, d) || CoversDirect(g, s, d, todo, pts)
    requires TopItem(g, e.src) in t.visited
    ensures Excused(g, t, d) || CoversDirect(g, t, d, todo - {e}, pts + At(t.pts, TopItem(g, e.src)))
  {
    ExcusedOrRefines(g, s, t, d);
    if !Excused(g, t, d) {
      forall f | f in g.edges && f.Direct? && f.dst == d.loc && f !in todo - {e}
        ensures At(Padded(g, t), TopItem(g, f.src)) <= pts + At(t.pts, TopItem(g, e.src))
      {
        DirectFeeds(g, f, d);
        ItemsComplete(g, TopItem(g, f.src));
      }
    }
  }

  ghost predicate CoversIndirect(g: Graph, s: Snapshot, from: Item, todo: set<Edge>, pts: set<NodeId>) {
    forall e :: e in g.edges && e.Indirect? && e.dst == from.loc && from.cur in e.guard && e !in todo ==>
      At(Padded(g, s), Item(from.cur, e.src)) <= pts
  }

  lemma IndirectStep(g: Graph, s: Snapshot, t: Snapshot, d: Item, from: Item, e: Edge, todo: set<Edge>,
                     pts: set<NodeId>)
    requires WellFormed(g) && IsItem(g, d) && Advances(g, s, t) && Proper(g, t)
    requires d in s.recorded && from.loc == d.loc && (g.stmts[d.loc].Load? || from.cur == d.cur)
    requires e in g.edges && e.Indirect? && e.dst == d.loc && from.cur in e.guard
    requires Excused(g, s, d) || CoversIndirect(g, s, from, todo, pts)
    requires Item(from.cur, e.src) in t.visited
    ensures Excused(g, t, d) || CoversIndirect(g, t, from, todo - {e}, pts + At(t.pts, Item(from.cur, e.src)))
  {
    hide Advances, Proper, Excused, Refines, Padded, WellFormed, Feeds, FeedsAlong;
    ExcusedOrRefines(g, s, t, d);
    if !Excused(g, t, d) {
      forall f | f in g.edges && f.Indirect? && f.dst == from.loc && from.cur in f.guard && f !in todo - {e}
        ensures At(Padded(g, t), Item(from.cur, f.src)) <= pts + At(t.pts, Item(from.cur, e.src))
      {
        IndirectFeeds(g, f, from.cur, d);
        if f == e {
          PaddedVisited(g, t, Item(from.cur, e.src));
        } else {
          RefinesAt(g, s, t, d, Item(from.cur, f.src));
        }
      }
    }
  }

  lemma RefinesAt(g: Graph, s: Snapshot, t: Snapshot, d: Item, f: Item)
    requires IsItem(g, d) && IsItem(g, f) && Feeds(g, f, d) && Refines(g, s, t, d)
    ensures At(Padded(g, t), f) <= At(Padded(g, s), f)
  {
    hide Padded;
  }

  ghost predicate CoversLoad(g: Graph, s: Snapshot, d: Item, p: NodeId, objs: set<NodeId>, todo: set<NodeId>,
                             pts: set<NodeId>) {
    && At(Padded(g, s), DefItem(g, p)) <= objs
    && forall o :: o in objs - todo ==> IndirectFlow(g, Padded(g, s), d.loc, o) <= pts
  }

  lemma LoadStart(g: Graph, s: Snapshot, d: Item, p: NodeId, objs: set<NodeId>)
    requires At(Padded(g, s), DefItem(g, p)) <= objs
    ensures CoversLoad(g, s, d, p, objs, objs, {})
  {
  }

  lemma LoadPiece(g: Graph, x: Assignment, n: LocId, p: NodeId, o: NodeId)
    requires o in At(x, DefItem(g, p))
    ensures IndirectFlow(g, x, n, o) <= LoadFlow(g, x, n, p)
  {
  }

  lemma LoadComplete(g: Graph, s: Snapshot, d: Item, p: NodeId, objs: set<NodeId>, pts: set<NodeId>)
    requires CoversLoad(g, s, d, p, objs, {}, pts)
    ensures LoadFlow(g, Padded(g, s), d.loc, p) <= pts
  {
  }

  lemma LoadStep(g: Graph, s: Snapshot, t: Snapshot, d: Item, p: NodeId, objs: set<NodeId>, todo: set<NodeId>,
                 o: NodeId, pts: set<NodeId>, more: set<NodeId>)
    requires WellFormed(g) && IsItem(g, d) && Advances(g, s, t) && Proper(g, t)
    requires d in s.recorded && g.stmts[d.loc].Load? && p == g.stmts[d.loc].ptr
    requires Excused(g, s, d) || CoversLoad(g, s, d, p, objs, todo, pts)
    requires Excused(g, t, d) || IndirectFlow(g, Padded(g, t), d.loc, o) <= more
    requires pts <= more
    ensures Excused(g, t, d) || CoversLoad(g, t, d, p, objs, todo - {o}, more)
  {
    ExcusedOrRefines(g, s, t, d);
    if !Excused(g, t, d) {
      assert WellFormedStmt(g, d.loc);
      OperandFeeds(g, d, p);
      forall x | x in objs - (todo - {o})
        ensures IndirectFlow(g, Padded(g, t), d.loc, x) <= more
      {
        IndirectFlowMonotone(g, Padded(g, t), Padded(g, s), d, x);
      }
    }
  }

  /** `targets` is what the pointer of the store was found to point to; those not in `todo` have
      been handled. */
  ghost predicate CoversStore(g: Graph, s: Snapshot, d: Item, p: NodeId, q: NodeId, targets: set<NodeId>,
                              todo: set<NodeId>, pts: set<NodeId>) {
    && At(Padded(g, s), DefItem(g, p)) <= targets
    && (d.cur in targets - todo ==> At(Padded(g, s), DefItem(g, q)) <= pts)
    && (KeepsOld(g, d, targets, targets - todo) ==> IndirectFlow(g, Padded(g, s), d.loc, d.cur) <= pts)
  }

  /** Some handled target makes the old contents of the item's object survive the store. */
  ghost predicate KeepsOld(g: Graph, d: Item, targets: set<NodeId>, handled: set<NodeId>) {
    exists o :: o in handled && !(o == d.cur && StrongUpdate(g, targets))
  }

  lemma StoreStart(g: Graph, s: Snapshot, d: Item, p: NodeId, q: NodeId, targets: set<NodeId>)
    requires At(Padded(g, s), DefItem(g, p)) <= targets
    ensures CoversStore(g, s, d, p, q, targets, targets, {})
  {
  }

  lemma StoreStays(g: Graph, s: Snapshot, t: Snapshot, d: Item, p: NodeId, q: NodeId,
                   targets: set<NodeId>, todo: set<NodeId>, pts: set<NodeId>)
    requires WellFormed(g) && IsItem(g, d) && Advances(g, s, t) && Proper(g, t)
    requires d in s.recorded && g.stmts[d.loc] == Store(p, q)
    requires Excused(g, s, d) || CoversStore(g, s, d, p, q, targets, todo, pts)
    ensures Excused(g, t, d) || CoversStore(g, t, d, p, q, targets, todo, pts)
  {
    ExcusedOrRefines(g, s, t, d);
    if !Excused(g, t, d) {
      assert WellFormedStmt(g, d.loc);
      OperandFeeds(g, d, p);
      OperandFeeds(g, d, q);
      IndirectFlowMonotone(g, Padded(g, t), Padded(g, s), d, d.cur);
    }
  }

  lemma StoredValueStays(g: Graph, s: Snapshot, t: Snapshot, d: Item, p: NodeId, q: NodeId, pts: set<NodeId>)
    requires WellFormed(g) && IsItem(g, d) && Advances(g, s, t) && Proper(g, t)
    requires d in s.recorded && g.stmts[d.loc] == Store(p, q)
    requires Excused(g, s, d) || At(Padded(g, s), DefItem(g, q)) <= pts
    ensures Excused(g, t, d) || At(Padded(g, t), DefItem(g, q)) <= pts
  {
    ExcusedOrRefines(g, s, t, d);
    if !Excused(g, t, d) {
      assert WellFormedStmt(g, d.loc);
      OperandFeeds(g, d, q);
    }
  }

  lemma StoreStep(g: Graph, s: Snapshot, d: Item, p: NodeId, q: NodeId, targets: set<NodeId>, todo: set<NodeId>,
                  o: NodeId, pts: set<NodeId>, more: set<NodeId>)
    requires IsItem(g, d) && pts <= more
    requires Excused(g, s, d) || CoversStore(g, s, d, p, q, targets, todo, pts)
    requires o == d.cur ==> Excused(g, s, d) || At(Padded(g, s), DefItem(g, q)) <= more
    requires !(o == d.cur && StrongUpdate(g, targets)) ==>
               Excused(g, s, d) || IndirectFlow(g, Padded(g, s), d.loc, d.cur) <= more
    ensures Excused(g, s, d) || CoversStore(g, s, d, p, q, targets, todo - {o}, more)
  {
    if KeepsOld(g, d, targets, targets - (todo - {o})) && o == d.cur && StrongUpdate(g, targets) {
      var x :| x in targets - (todo - {o}) && !(x == d.cur && StrongUpdate(g, targets));
      assert x in targets - todo;
    }
  }

  /** Each piece that the loop over the targets adds belongs to the equation of the store. */
  lemma StorePieces(g: Graph, x: Assignment, d: Item, p: NodeId, q: NodeId, targets: set<NodeId>, o: NodeId)
    requires targets <= At(x, DefItem(g, p)) && o in targets
    ensures o == d.cur ==> At(x, DefItem(g, q)) <= StoreFlow(g, x, d, p, q)
    ensures !(o == d.cur && StrongUpdate(g, targets)) ==>
              IndirectFlow(g, x, d.loc, d.cur) <= StoreFlow(g, x, d, p, q)
  {
    StoreRuleMonotone(g, targets, At(x, DefItem(g, p)), d.cur);
  }

  /** ... and when all targets have been handled, nothing of it is missing. */
  lemma StoreComplete(g: Graph, s: Snapshot, d: Item, p: NodeId, q: NodeId, targets: set<NodeId>, pts: set<NodeId>)
    requires CoversStore(g, s, d, p, q, targets, {}, pts)
    ensures StoreFlow(g, Padded(g, s), d, p, q) <= pts
  {
    var now := At(Padded(g, s), DefItem(g, p));
    StoreRuleMonotone(g, now, targets, d.cur);
    if PassesThrough(g, now, d.cur) {
      var o :| o in targets;
      assert o in targets - {};
    }
  }

  /** The cached set of `d` grew to contain its equation. */
  lemma GrowthSettles(g: Graph, s: Snapshot, t: Snapshot, u: Snapshot, d: Item, pts: set<NodeId>)
    requires WellFormed(g) && IsItem(g, d) && d in s.recorded && Proper(g, t) && Proper(g, u)
    requires Excused(g, s, d) || Flow(g, Padded(g, s), d) <= pts
    requires t == s.(pts := t.pts)
    requires At(s.pts, d) + pts <= At(t.pts, d)
    requires forall f :: IsItem(g, f) && f != d ==> At(t.pts, f) == At(s.pts, f)
    requires Advances(g, t, u)
    requires At(t.pts, d) != At(s.pts, d) && Feeds(g, d, d) ==> Excused(g, u, d)
    ensures Excused(g, u, d)
  {
    if (At(t.pts, d) == At(s.pts, d) || !Feeds(g, d, d)) && !u.exhausted {
      assert Undisturbed(g, s, t, d);
      if Settled(g, s, d) {
        SettledStays(g, s, t, d);
      } else {
        UndisturbedRefines(g, s, t, d);
        FlowMonotone(g, Padded(g, t), Padded(g, s), d);
      }
      ExcusedOrRefines(g, t, u, d);
    }
  }

  lemma ExcusedStay(g: Graph, s: Snapshot, t: Snapshot, items: set<Item>)
    requires WellFormed(g) && Advances(g, s, t) && Proper(g, t) && items <= s.recorded
    requires forall f :: f in items ==> IsItem(g, f)
    ensures forall f :: f in items && Excused(g, s, f) ==> Excused(g, t, f)
  {
    forall f | f in items && Excused(g, s, f)
      ensures Excused(g, t, f)
    {
      ExcusedOrRefines(g, s, t, f);
    }
  }

  /** Everything that was recorded and that an edge handled so far feeds from `d` is up to date. */
  ghost predicate FedExcused(g: Graph, s: Snapshot, t: Snapshot, d: Item, todo: set<Edge>) {
    forall e, f :: e in g.edges && e !in todo && IsItem(g, f) && f in s.recorded && FeedsAlong(g, e, d, f) ==>
      Excused(g, t, f)
  }

  lemma FedExcusedStep(g: Graph, s: Snapshot, t: Snapshot, u: Snapshot, d: Item, todo: set<Edge>, e: Edge)
    requires WellFormed(g) && Advances(g, s, t) && Advances(g, t, u) && Proper(g, u)
    requires FedExcused(g, s, t, d, todo)
    requires forall f :: IsItem(g, f) && f in s.recorded && FeedsAlong(g, e, d, f) ==> Excused(g, u, f)
    ensures FedExcused(g, s, u, d, todo - {e})
  {
    forall x, f | x in g.edges && x !in todo - {e} && IsItem(g, f) && f in s.recorded && FeedsAlong(g, x, d, f)
      ensures Excused(g, u, f)
    {
      ExcusedOrRefines(g, t, u, f);
    }
  }

  /** What is left to find out: the room in the cached sets, and then the unvisited items. */
  ghost function Room(g: Graph, s: Snapshot): set<(Item, NodeId)> {
    set d, o | d in Items(g) && o in g.ids && o !in At(s.pts, d) :: (d, o)
  }

  ghost function Unvisited(g: Graph, s: Snapshot): set<Item> {
    Items(g) - s.visited
  }

  lemma AdvanceLeavesLess(g: Graph, s: Snapshot, t: Snapshot)
    requires Advances(g, s, t)
    ensures Room(g, t) <= Room(g, s) && Unvisited(g, t) <= Unvisited(g, s)
  {
    forall d | d in Items(g)
      ensures At(s.pts, d) <= At(t.pts, d)
    {
      ItemsComplete(g, d);
    }
  }

  lemma RoomLess(g: Graph, s: Snapshot, t: Snapshot, d: Item)
    requires IsItem(g, d) && Proper(g, t)
    requires At(s.pts, d) < At(t.pts, d)
    requires forall f :: IsItem(g, f) && f != d ==> At(t.pts, f) == At(s.pts, f)
    ensures Room(g, t) < Room(g, s)
  {
    ItemsComplete(g, d);
    var o :| o in At(t.pts, d) && o !in At(s.pts, d);
    assert (d, o) in Room(g, s) && (d, o) !in Room(g, t);
    forall f | f in Items(g)
      ensures At(s.pts, f) <= At(t.pts, f)
    {
      ItemsComplete(g, f);
    }
  }

  lemma UnvisitedLess(g: Graph, s: Snapshot, t: Snapshot, d: Item)
    requires IsItem(g, d) && d !in s.visited
    requires t.visited == s.visited + {d} && t.pts == s.pts
    ensures Room(g, t) == Room(g, s) && Unvisited(g, t) < Unvisited(g, s)
  {
    ItemsComplete(g, d);
    assert d in Unvisited(g, s);
  }

  /** Items that are settled among themselves have exactly their value in the least solution. */
  ghost predicate Closed(g: Graph, ander: Conservative, s: Snapshot) {
    forall d :: IsItem(g, d) && d in s.visited ==>
      if d in s.givenUp then Fallback(ander, d) <= At(s.pts, d) else Settled(g, s, d)
  }

  lemma {:induction false} ClosedIsLeast(g: Graph, ander: Conservative, s: Snapshot)
    requires WellFormed(g) && InRange(g, ander)
    requires Closed(g, ander, s)
    requires Below(s.pts, Least(g, ander, s.givenUp))
    ensures forall d :: IsItem(g, d) && d in s.visited ==>
              At(s.pts, d) == At(Least(g, ander, s.givenUp), d)
  {
    var givenUp := s.givenUp;
    var p := Padded(g, s);
    forall d | IsItem(g, d)
      ensures Required(g, ander, givenUp, p, d) <= At(p, d)
    {
      ItemsComplete(g, d);
      if d !in s.visited && d !in givenUp {
        FlowBounded(g, p, d);
      }
    }
    LeastBelow(g, ander, givenUp, p);
    forall d | IsItem(g, d) && d in s.visited
      ensures At(s.pts, d) == At(Least(g, ander, givenUp), d)
    {
      ItemsComplete(g, d);
      assert At(p, d) == At(s.pts, d);
    }
  }
}
