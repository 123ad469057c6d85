/** Inclusion-based points-to analysis by difference propagation with merging of copy cycles,
    as a state machine: every run keeps what justifies handing on differences only, and a run
    that has nothing left to hand on has computed the least solution. */
module WaveDiff {
  import opened PointsToData

  datatype Arc = Arc(src: NodeId, dst: NodeId)

  /** The constraints: `p` takes the address of `o`; copies; loads, from the pointer; stores, to
      the pointer. No copies are made through `untracked` objects. */
  datatype Program = Program(
    addrs: set<Arc>, copies: set<Arc>, loads: set<Arc>, stores: set<Arc>, untracked: set<NodeId>)

  ghost predicate LoadHolds(p: Program, s: PtsMap, a: Arc) {
    forall o :: o in Get(s, a.src) && o !in p.untracked ==> Get(s, o) <= Get(s, a.dst)
  }

  ghost predicate StoreHolds(p: Program, s: PtsMap, a: Arc) {
    forall o :: o in Get(s, a.dst) && o !in p.untracked ==> Get(s, a.src) <= Get(s, o)
  }

  ghost predicate Solves(p: Program, s: PtsMap) {
    && (forall a :: a in p.addrs ==> a.src in Get(s, a.dst))
    && (forall a :: a in p.copies ==> Get(s, a.src) <= Get(s, a.dst))
    && (forall a :: a in p.loads ==> LoadHolds(p, s, a))
    && (forall a :: a in p.stores ==> StoreHolds(p, s, a))
  }

  // ---------------------------------------------------------------- state and steps

  type Handled = map<Arc, set<NodeId>>

  function DoneAt(h: Handled, a: Arc): set<NodeId> {
    if a in h then h[a] else {}
  }

  /** `rep` maps merged nodes to their representatives; `copy`, `load` and `store` are the edges
      of the constraint graph; `loaded` and `stored` are the targets for which copy edges have
      been added on behalf of an edge. */
  datatype Wave = Wave(
    pts: PtsMap, propa: PtsMap, rep: map<NodeId, NodeId>,
    copy: set<Arc>, load: set<Arc>, store: set<Arc>, loaded: Handled, stored: Handled)

  function Rep(rep: map<NodeId, NodeId>, v: NodeId): NodeId {
    if v in rep then rep[v] else v
  }

  function Start(p: Program): Wave {
    Wave(map[], map[], map[], (set a | a in p.copies && a.src != a.dst), p.loads, p.stores, map[], map[])
  }

  datatype Step =
    | Address(addr: Arc)
    | Propagate(node: NodeId)
    | LoadTarget(edge: Arc, target: NodeId)
    | StoreTarget(edge: Arc, target: NodeId)
    | Merge(node: NodeId, into: NodeId)

  function Diff(w: Wave, v: NodeId): set<NodeId> {
    Get(w.pts, v) - Get(w.propa, v)
  }

  /** `more` flows along every copy edge out of `v`. */
  function FlowOut(w: Wave, v: NodeId, more: set<NodeId>): PtsMap {
    if more == {} then w.pts
    else (map x | x in w.pts.Keys + (set a | a in w.copy && a.src == v :: a.dst) ::
            Get(w.pts, x) + if Arc(v, x) in w.copy then more else {})
  }

  /** There is at most one copy edge between two nodes, and none from a node to itself. */
  function AddCopy(w: Wave, a: Arc): Wave {
    if a in w.copy || a.src == a.dst then w
    else w.(copy := w.copy + {a}, pts := AddTo(w.pts, a.dst, Get(w.pts, a.src)))
  }

  function Redirect(v: NodeId, r: NodeId, a: Arc): Arc {
    Arc(if a.src == v then r else a.src, if a.dst == v then r else a.dst)
  }

  function Touches(v: NodeId, a: Arc): bool {
    a.src == v || a.dst == v
  }

  /** The copy edges after merging `v` into `r`; those between the two disappear. */
  function RedirectCopies(v: NodeId, r: NodeId, arcs: set<Arc>): set<Arc> {
    set a | a in arcs && !(Touches(v, a) && Redirect(v, r, a) == Arc(r, r)) :: Redirect(v, r, a)
  }

  function RedirectAll(v: NodeId, r: NodeId, arcs: set<Arc>): set<Arc> {
    set a | a in arcs :: Redirect(v, r, a)
  }

  /** A redirected edge is a new edge, for which nothing has been handled. */
  function KeepHandled(v: NodeId, arcs: set<Arc>, h: Handled): Handled {
    map a | a in arcs && !Touches(v, a) && a in h :: h[a]
  }

  function MergeInto(w: Wave, v: NodeId, r: NodeId): Wave {
    Wave(
      AddTo(w.pts, r, Get(w.pts, v)),
      w.propa[r := Get(w.propa, r) * Get(w.propa, v)],
      (map x | x in w.rep.Keys + {v} :: if Rep(w.rep, x) == v then r else Rep(w.rep, x)),
      RedirectCopies(v, r, w.copy),
      RedirectAll(v, r, w.load),
      RedirectAll(v, r, w.store),
      KeepHandled(v, w.load, w.loaded),
      KeepHandled(v, w.store, w.stored))
  }

  /** A path along edges. */
  ghost predicate IsPath(arcs: set<Arc>, path: seq<NodeId>) {
    path != [] && forall i :: 0 <= i < |path| - 1 ==> Arc(path[i], path[i + 1]) in arcs
  }

  ghost predicate Connected(arcs: set<Arc>, v: NodeId, r: NodeId) {
    exists path :: IsPath(arcs, path) && path[0] == v && path[|path| - 1] == r
  }

  ghost predicate Enabled(p: Program, w: Wave, s: Step) {
    match s
    case Address(a) => a in p.addrs
    case Propagate(v) => Rep(w.rep, v) == v
    case LoadTarget(e, o) => e in w.load && o in Get(w.pts, e.src)
    case StoreTarget(e, o) => e in w.store && o in Get(w.pts, e.dst)
    case Merge(v, r) =>
      v != r && Rep(w.rep, v) == v && Rep(w.rep, r) == r && Connected(w.copy, v, r) && Connected(w.copy, r, v)
  }

  function Do(p: Program, w: Wave, s: Step): Wave {
    match s
    case Address(a) => w.(pts := AddTo(w.pts, Rep(w.rep, a.dst), {a.src}))
    case Propagate(v) => w.(pts := FlowOut(w, v, Diff(w, v)), propa := w.propa[v := Get(w.pts, v)])
    case LoadTarget(e, o) =>
      var w' := w.(loaded := w.loaded[e := DoneAt(w.loaded, e) + {o}]);
      if o in p.untracked then w' else AddCopy(w', Arc(Rep(w.rep, o), e.dst))
    case StoreTarget(e, o) =>
      var w' := w.(stored := w.stored[e := DoneAt(w.stored, e) + {o}]);
      if o in p.untracked then w' else AddCopy(w', Arc(e.src, Rep(w.rep, o)))
    case Merge(v, r) => MergeInto(w, v, r)
  }

  // ---------------------------------------------------------------- what every run keeps

  ghost predicate BetweenReps(w: Wave, arcs: set<Arc>) {
    forall a :: a in arcs ==> Rep(w.rep, a.src) == a.src && Rep(w.rep, a.dst) == a.dst
  }

  /** The two nodes are merged, or there is a copy edge between their representatives. */
  ghost predicate Linked(w: Wave, x: NodeId, y: NodeId) {
    Rep(w.rep, x) == Rep(w.rep, y) || Arc(Rep(w.rep, x), Rep(w.rep, y)) in w.copy
  }

  /** Every constraint has its edge in the graph, between representatives. */
  ghost predicate Represented(p: Program, w: Wave) {
    && (forall x :: Rep(w.rep, Rep(w.rep, x)) == Rep(w.rep, x))
    && BetweenReps(w, w.copy) && BetweenReps(w, w.load) && BetweenReps(w, w.store)
    && (forall a :: a in w.copy ==> a.src != a.dst)
    && (forall a :: a in p.copies ==> Linked(w, a.src, a.dst))
    && (forall a :: a in p.loads ==> Arc(Rep(w.rep, a.src), Rep(w.rep, a.dst)) in w.load)
    && (forall a :: a in p.stores ==> Arc(Rep(w.rep, a.src), Rep(w.rep, a.dst)) in w.store)
  }

  /** What counts as propagated by a node has arrived at each of its successors. */
  ghost predicate PropagatedArrived(w: Wave) {
    && (forall x :: Get(w.propa, x) <= Get(w.pts, x))
    && (forall a :: a in w.copy ==> Get(w.propa, a.src) <= Get(w.pts, a.dst))
  }

  /** For every handled target of a load or a store the copy edge is there. */
  ghost predicate HandledLinked(p: Program, w: Wave) {
    && (forall e, o :: e in w.load && o in DoneAt(w.loaded, e) && o !in p.untracked ==> Linked(w, o, e.dst))
    && (forall e, o :: e in w.store && o in DoneAt(w.stored, e) && o !in p.untracked ==> Linked(w, e.src, o))
  }

  ghost predicate Kept(p: Program, w: Wave) {
    Represented(p, w) && PropagatedArrived(w) && HandledLinked(p, w)
  }

  lemma StartKept(p: Program)
    ensures Kept(p, Start(p))
  {
  }

  lemma FlowOutAt(w: Wave, v: NodeId, more: set<NodeId>, x: NodeId)
    ensures Get(FlowOut(w, v, more), x) == Get(w.pts, x) + if Arc(v, x) in w.copy then more else {}
  {
  }

  /** Handing on the difference has the same effect as handing on the whole set. */
  lemma DifferenceIsEnough(p: Program, w: Wave, v: NodeId, x: NodeId)
    requires Kept(p, w)
    ensures Get(FlowOut(w, v, Diff(w, v)), x) == Get(FlowOut(w, v, Get(w.pts, v)), x)
  {
    FlowOutAt(w, v, Diff(w, v), x);
    FlowOutAt(w, v, Get(w.pts, v), x);
    if Arc(v, x) in w.copy {
      assert Get(w.propa, v) <= Get(w.pts, x);
    }
  }

  lemma PropagateKeeps(p: Program, w: Wave, v: NodeId)
    requires Kept(p, w) && Rep(w.rep, v) == v
    ensures Kept(p, Do(p, w, Propagate(v)))
  {
    var u := Do(p, w, Propagate(v));
    forall x
      ensures Get(w.pts, x) <= Get(u.pts, x)
      ensures Arc(v, x) in w.copy ==> Get(w.pts, v) <= Get(u.pts, x)
    {
      DifferenceIsEnough(p, w, v, x);
      FlowOutAt(w, v, Get(w.pts, v), x);
    }
  }

  lemma AddCopyKeeps(p: Program, w: Wave, a: Arc)
    requires Kept(p, w) && Rep(w.rep, a.src) == a.src && Rep(w.rep, a.dst) == a.dst
    ensures Kept(p, AddCopy(w, a)) && (a.src == a.dst || a in AddCopy(w, a).copy)
  {
  }

  lemma NoteLoaded(p: Program, w: Wave, e: Arc, o: NodeId)
    requires Kept(p, w) && e in w.load && (o in p.untracked || Linked(w, o, e.dst))
    ensures Kept(p, w.(loaded := w.loaded[e := DoneAt(w.loaded, e) + {o}]))
  {
    var u := w.(loaded := w.loaded[e := DoneAt(w.loaded, e) + {o}]);
    forall f, t | f in u.load && t in DoneAt(u.loaded, f) && t !in p.untracked
      ensures Linked(u, t, f.dst)
    {
      assert Linked(w, t, f.dst);
    }
    assert forall f, t :: f in w.store && t in DoneAt(w.stored, f) && t !in p.untracked ==> Linked(w, f.src, t);
    assert Represented(p, u);
  }

  lemma NoteStored(p: Program, w: Wave, e: Arc, o: NodeId)
    requires Kept(p, w) && e in w.store && (o in p.untracked || Linked(w, e.src, o))
    ensures Kept(p, w.(stored := w.stored[e := DoneAt(w.stored, e) + {o}]))
  {
    var u := w.(stored := w.stored[e := DoneAt(w.stored, e) + {o}]);
    forall f, t | f in u.store && t in DoneAt(u.stored, f) && t !in p.untracked
      ensures Linked(u, f.src, t)
    {
      assert Linked(w, f.src, t);
    }
    assert Represented(p, u);
  }

  lemma LoadKeeps(p: Program, w: Wave, e: Arc, o: NodeId)
    requires Kept(p, w) && e in w.load
    ensures Kept(p, Do(p, w, LoadTarget(e, o)))
  {
    if o in p.untracked {
      NoteLoaded(p, w, e, o);
    } else {
      var c := AddCopy(w, Arc(Rep(w.rep, o), e.dst));
      AddCopyKeeps(p, w, Arc(Rep(w.rep, o), e.dst));
      NoteLoaded(p, c, e, o);
      assert Do(p, w, LoadTarget(e, o)) == c.(loaded := c.loaded[e := DoneAt(c.loaded, e) + {o}]);
    }
  }

  lemma StoreKeeps(p: Program, w: Wave, e: Arc, o: NodeId)
    requires Kept(p, w) && e in w.store
    ensures Kept(p, Do(p, w, StoreTarget(e, o)))
  {
    if o in p.untracked {
      NoteStored(p, w, e, o);
    } else {
      var c := AddCopy(w, Arc(e.src, Rep(w.rep, o)));
      AddCopyKeeps(p, w, Arc(e.src, Rep(w.rep, o)));
      NoteStored(p, c, e, o);
      assert Do(p, w, StoreTarget(e, o)) == c.(stored := c.stored[e := DoneAt(c.stored, e) + {o}]);
    }
  }

  lemma MergedRep(w: Wave, v: NodeId, r: NodeId, x: NodeId)
    ensures Rep(MergeInto(w, v, r).rep, x) == if Rep(w.rep, x) == v then r else Rep(w.rep, x)
  {
  }

  lemma MergeRepresents(p: Program, w: Wave, v: NodeId, r: NodeId)
    requires Represented(p, w) && v != r && Rep(w.rep, v) == v && Rep(w.rep, r) == r
    ensures Represented(p, MergeInto(w, v, r))
    ensures forall x, y :: Linked(w, x, y) ==> Linked(MergeInto(w, v, r), x, y)
  {
    var u := MergeInto(w, v, r);
    forall x
      ensures Rep(u.rep, x) == if Rep(w.rep, x) == v then r else Rep(w.rep, x)
    {
      MergedRep(w, v, r, x);
    }
    forall x, y | Linked(w, x, y)
      ensures Linked(u, x, y)
    {
      var a := Arc(Rep(w.rep, x), Rep(w.rep, y));
      if a in w.copy && Rep(u.rep, x) != Rep(u.rep, y) {
        assert Redirect(v, r, a) in u.copy;
      }
    }
    forall a | a in p.loads
      ensures Arc(Rep(u.rep, a.src), Rep(u.rep, a.dst)) in u.load
    {
      assert Redirect(v, r, Arc(Rep(w.rep, a.src), Rep(w.rep, a.dst))) in u.load;
    }
    forall a | a in p.stores
      ensures Arc(Rep(u.rep, a.src), Rep(u.rep, a.dst)) in u.store
    {
      assert Redirect(v, r, Arc(Rep(w.rep, a.src), Rep(w.rep, a.dst))) in u.store;
    }
  }

  /** What has been handled for an edge that a merge does not touch stays handled; a redirected edge
      starts afresh. */
  lemma MergeHandled(w: Wave, v: NodeId, r: NodeId, a: Arc)
    requires v != r
    ensures var u := MergeInto(w, v, r);
            && (a in w.load && a.src != v && a.dst != v ==> DoneAt(u.loaded, a) == DoneAt(w.loaded, a))
            && (a in w.store && a.src != v && a.dst != v ==> DoneAt(u.stored, a) == DoneAt(w.stored, a))
            && (a !in w.load ==> DoneAt(u.loaded, a) == {}) && (a !in w.store ==> DoneAt(u.stored, a) == {})
  {
  }

  /** Cutting the propagated set of the representative to what both had propagated is what makes
      merging safe: the representative now has the successors of both. */
  lemma MergeArrived(w: Wave, v: NodeId, r: NodeId)
    requires PropagatedArrived(w)
    ensures PropagatedArrived(MergeInto(w, v, r))
  {
    var u := MergeInto(w, v, r);
    forall b | b in u.copy
      ensures Get(u.propa, b.src) <= Get(u.pts, b.dst)
    {
      var a :| a in w.copy && Redirect(v, r, a) == b;
      assert Get(w.propa, a.src) <= Get(w.pts, a.dst);
    }
  }

  lemma MergeKeeps(p: Program, w: Wave, v: NodeId, r: NodeId)
    requires Kept(p, w) && v != r && Rep(w.rep, v) == v && Rep(w.rep, r) == r
    ensures Kept(p, MergeInto(w, v, r))
  {
    MergeRepresents(p, w, v, r);
    MergeArrived(w, v, r);
  }

  lemma StepKeeps(p: Program, w: Wave, s: Step)
    requires Kept(p, w) && Enabled(p, w, s)
    ensures Kept(p, Do(p, w, s))
  {
    match s
    case Address(_) =>
    case Propagate(v) => PropagateKeeps(p, w, v);
    case LoadTarget(e, o) => LoadKeeps(p, w, e, o);
    case StoreTarget(e, o) => StoreKeeps(p, w, e, o);
    case Merge(v, r) => MergeKeeps(p, w, v, r);
  }

  // ---------------------------------------------------------------- never too much

  /** Nothing in the state goes beyond the solution `s`. */
  ghost predicate Below(p: Program, w: Wave, s: PtsMap) {
    && (forall x :: Get(w.pts, x) <= Get(s, x))
    && (forall x :: Get(s, Rep(w.rep, x)) == Get(s, x))
    && (forall a :: a in w.copy ==> Get(s, a.src) <= Get(s, a.dst))
    && (forall a :: a in w.load ==> LoadHolds(p, s, a))
    && (forall a :: a in w.store ==> StoreHolds(p, s, a))
  }

  lemma {:induction false} PathMonotone(arcs: set<Arc>, s: PtsMap, path: seq<NodeId>)
    requires IsPath(arcs, path) && forall a :: a in arcs ==> Get(s, a.src) <= Get(s, a.dst)
    ensures Get(s, path[0]) <= Get(s, path[|path| - 1])
  {
    if |path| > 1 {
      assert Arc(path[0], path[1]) in arcs;
      assert IsPath(arcs, path[1..]) by {
        forall i | 0 <= i < |path| - 2
          ensures Arc(path[1..][i], path[1..][i + 1]) in arcs
        {
          assert Arc(path[i + 1], path[i + 2]) in arcs;
        }
      }
      PathMonotone(arcs, s, path[1..]);
    }
  }

  /** Nodes on a common copy cycle have the same set in every solution. */
  lemma CycleEqual(p: Program, w: Wave, s: PtsMap, v: NodeId, r: NodeId)
    requires Below(p, w, s) && Connected(w.copy, v, r) && Connected(w.copy, r, v)
    ensures Get(s, v) == Get(s, r)
  {
    var there :| IsPath(w.copy, there) && there[0] == v && there[|there| - 1] == r;
    var back :| IsPath(w.copy, back) && back[0] == r && back[|back| - 1] == v;
    PathMonotone(w.copy, s, there);
    PathMonotone(w.copy, s, back);
  }

  lemma RedirectedHolds(p: Program, v: NodeId, r: NodeId, s: PtsMap, a: Arc)
    requires Get(s, v) == Get(s, r)
    ensures Get(s, Redirect(v, r, a).src) == Get(s, a.src) && Get(s, Redirect(v, r, a).dst) == Get(s, a.dst)
    ensures LoadHolds(p, s, a) ==> LoadHolds(p, s, Redirect(v, r, a))
    ensures StoreHolds(p, s, a) ==> StoreHolds(p, s, Redirect(v, r, a))
  {
  }

  lemma MergeBelow(p: Program, w: Wave, v: NodeId, r: NodeId, s: PtsMap)
    requires Below(p, w, s) && Get(s, v) == Get(s, r)
    ensures Below(p, MergeInto(w, v, r), s)
  {
    hide LoadHolds, StoreHolds;
    var u := MergeInto(w, v, r);
    forall x
      ensures Get(s, Rep(u.rep, x)) == Get(s, x)
    {
      MergedRep(w, v, r, x);
      assert Get(s, Rep(w.rep, x)) == Get(s, x);
    }
    forall b | b in u.load
      ensures LoadHolds(p, s, b)
    {
      var a :| a in w.load && Redirect(v, r, a) == b;
      RedirectedHolds(p, v, r, s, a);
    }
    forall b | b in u.store
      ensures StoreHolds(p, s, b)
    {
      var a :| a in w.store && Redirect(v, r, a) == b;
      RedirectedHolds(p, v, r, s, a);
    }
    forall b | b in u.copy
      ensures Get(s, b.src) <= Get(s, b.dst)
    {
      var a :| a in w.copy && Redirect(v, r, a) == b;
      RedirectedHolds(p, v, r, s, a);
    }
  }

  lemma PropagateBelow(p: Program, w: Wave, v: NodeId, s: PtsMap)
    requires Below(p, w, s)
    ensures Below(p, Do(p, w, Propagate(v)), s)
  {
    forall x
      ensures Get(FlowOut(w, v, Diff(w, v)), x) <= Get(s, x)
    {
      FlowOutAt(w, v, Diff(w, v), x);
      if Arc(v, x) in w.copy {
        assert Get(s, v) <= Get(s, x);
      }
    }
  }

  lemma AddCopyBelow(p: Program, w: Wave, a: Arc, s: PtsMap)
    requires Below(p, w, s) && Get(s, a.src) <= Get(s, a.dst)
    ensures Below(p, AddCopy(w, a), s)
  {
  }

  lemma TargetBelow(p: Program, w: Wave, step: Step, s: PtsMap)
    requires Enabled(p, w, step) && (step.LoadTarget? || step.StoreTarget?) && Below(p, w, s)
    ensures Below(p, Do(p, w, step), s)
  {
    var o := step.target;
    assert Get(s, Rep(w.rep, o)) == Get(s, o);
    if step.LoadTarget? {
      var w' := w.(loaded := w.loaded[step.edge := DoneAt(w.loaded, step.edge) + {o}]);
      assert Below(p, w', s);
      if o !in p.untracked {
        assert LoadHolds(p, s, step.edge);
        AddCopyBelow(p, w', Arc(Rep(w.rep, o), step.edge.dst), s);
      }
    } else {
      var w' := w.(stored := w.stored[step.edge := DoneAt(w.stored, step.edge) + {o}]);
      assert Below(p, w', s);
      if o !in p.untracked {
        assert StoreHolds(p, s, step.edge);
        AddCopyBelow(p, w', Arc(step.edge.src, Rep(w.rep, o)), s);
      }
    }
  }

  lemma StepBelow(p: Program, w: Wave, s: Step, sol: PtsMap)
    requires Enabled(p, w, s) && Solves(p, sol) && Below(p, w, sol)
    ensures Below(p, Do(p, w, s), sol)
  {
    match s
    case Address(a) =>
      assert Get(sol, Rep(w.rep, a.dst)) == Get(sol, a.dst);
    case Propagate(v) =>
      PropagateBelow(p, w, v, sol);
    case LoadTarget(_, _) =>
      TargetBelow(p, w, s, sol);
    case StoreTarget(_, _) =>
      TargetBelow(p, w, s, sol);
    case Merge(v, r) =>
      CycleEqual(p, w, sol, v, r);
      MergeBelow(p, w, v, r, sol);
  }

  // ---------------------------------------------------------------- runs

  function Run(p: Program, w: Wave, steps: seq<Step>): Wave
    decreases |steps|
  {
    if steps == [] then w else Run(p, Do(p, w, steps[0]), steps[1..])
  }

  ghost predicate CanRun(p: Program, w: Wave, steps: seq<Step>)
    decreases |steps|
  {
    steps == [] || (Enabled(p, w, steps[0]) && CanRun(p, Do(p, w, steps[0]), steps[1..]))
  }

  lemma {:induction false} RunKeeps(p: Program, w: Wave, steps: seq<Step>)
    requires Kept(p, w) && CanRun(p, w, steps)
    ensures Kept(p, Run(p, w, steps))
    decreases |steps|
  {
    if steps != [] {
      StepKeeps(p, w, steps[0]);
      RunKeeps(p, Do(p, w, steps[0]), steps[1..]);
    }
  }

  lemma {:induction false} RunBelow(p: Program, w: Wave, steps: seq<Step>, sol: PtsMap)
    requires Kept(p, w) && CanRun(p, w, steps) && Solves(p, sol) && Below(p, w, sol)
    ensures Below(p, Run(p, w, steps), sol)
    decreases |steps|
  {
    if steps != [] {
      StepKeeps(p, w, steps[0]);
      StepBelow(p, w, steps[0], sol);
      RunBelow(p, Do(p, w, steps[0]), steps[1..], sol);
    }
  }

  /** All addresses taken have been entered and no difference is left to hand on. */
  ghost predicate Propagated(p: Program, w: Wave) {
    && (forall a :: a in p.addrs ==> a.src in Get(w.pts, Rep(w.rep, a.dst)))
    && (forall a :: a in w.copy ==> Get(w.pts, a.src) <= Get(w.propa, a.src))
  }

  /** All targets of the loads and stores through `v` have been handled. */
  ghost predicate AllHandled(w: Wave, v: NodeId) {
    && (forall e :: e in w.load && e.src == v ==> Get(w.pts, v) <= DoneAt(w.loaded, e))
    && (forall e :: e in w.store && e.dst == v ==> Get(w.pts, v) <= DoneAt(w.stored, e))
  }

  ghost predicate Served(p: Program, w: Wave, v: NodeId, o: NodeId) {
    && (forall e :: e in w.load && e.src == v ==> Linked(w, o, e.dst))
    && (forall e :: e in w.store && e.dst == v ==> Linked(w, e.src, o))
  }

  /** A load or a store through `v` has a target without its copy edge. */
  ghost predicate Starving(p: Program, w: Wave, v: NodeId) {
    exists o :: o in Get(w.pts, v) && o !in p.untracked && !Served(p, w, v, o)
  }

  lemma HandledNotStarving(p: Program, w: Wave, v: NodeId)
    requires Kept(p, w) && AllHandled(w, v)
    ensures !Starving(p, w, v)
  {
  }

  /** The points-to sets that the state stands for. */
  function Answer(w: Wave): PtsMap {
    map x | x in w.pts.Keys + w.rep.Keys :: Get(w.pts, Rep(w.rep, x))
  }

  lemma AnswerAt(w: Wave, x: NodeId)
    ensures Get(Answer(w), x) == Get(w.pts, Rep(w.rep, x))
  {
  }

  lemma LinkedArrived(p: Program, w: Wave, x: NodeId, y: NodeId)
    requires Kept(p, w) && Propagated(p, w) && Linked(w, x, y)
    ensures Get(Answer(w), x) <= Get(Answer(w), y)
  {
    AnswerAt(w, x);
    AnswerAt(w, y);
    if Rep(w.rep, x) != Rep(w.rep, y) {
      var a := Arc(Rep(w.rep, x), Rep(w.rep, y));
      assert Get(w.propa, a.src) <= Get(w.pts, a.dst);
    }
  }

  lemma FinishedSolves(p: Program, w: Wave)
    requires Kept(p, w) && Propagated(p, w) && forall v :: !Starving(p, w, v)
    ensures Solves(p, Answer(w))
  {
    var s := Answer(w);
    forall a | a in p.addrs
      ensures a.src in Get(s, a.dst)
    {
      AnswerAt(w, a.dst);
    }
    forall a | a in p.copies
      ensures Get(s, a.src) <= Get(s, a.dst)
    {
      LinkedArrived(p, w, a.src, a.dst);
    }
    forall a, o | a in p.loads && o in Get(s, a.src) && o !in p.untracked
      ensures Get(s, o) <= Get(s, a.dst)
    {
      var e := Arc(Rep(w.rep, a.src), Rep(w.rep, a.dst));
      AnswerAt(w, a.src);
      assert e in w.load && !Starving(p, w, e.src);
      assert Served(p, w, e.src, o);
      LinkedArrived(p, w, o, e.dst);
      AnswerAt(w, a.dst);
      AnswerAt(w, e.dst);
    }
    forall a, o | a in p.stores && o in Get(s, a.dst) && o !in p.untracked
      ensures Get(s, a.src) <= Get(s, o)
    {
      var e := Arc(Rep(w.rep, a.src), Rep(w.rep, a.dst));
      AnswerAt(w, a.dst);
      assert e in w.store && !Starving(p, w, e.dst);
      assert Served(p, w, e.dst, o);
      LinkedArrived(p, w, e.src, o);
      AnswerAt(w, a.src);
      AnswerAt(w, e.src);
    }
  }

  lemma StartBelow(p: Program, sol: PtsMap)
    requires Solves(p, sol)
    ensures Below(p, Start(p), sol)
  {
  }

  /** A run of any steps in any order that has handed on every difference and handled every target
      has computed the least solution. */
  lemma FinishedIsLeast(p: Program, steps: seq<Step>)
    requires CanRun(p, Start(p), steps)
    requires Propagated(p, Run(p, Start(p), steps)) && forall v :: !Starving(p, Run(p, Start(p), steps), v)
    ensures Solves(p, Answer(Run(p, Start(p), steps)))
    ensures forall sol, x :: Solves(p, sol) ==> Get(Answer(Run(p, Start(p), steps)), x) <= Get(sol, x)
  {
    var w := Run(p, Start(p), steps);
    StartKept(p);
    RunKeeps(p, Start(p), steps);
    FinishedSolves(p, w);
    forall sol, x | Solves(p, sol)
      ensures Get(Answer(w), x) <= Get(sol, x)
    {
      StartBelow(p, sol);
      RunBelow(p, Start(p), steps, sol);
      AnswerAt(w, x);
      assert Get(w.pts, Rep(w.rep, x)) <= Get(sol, Rep(w.rep, x));
    }
  }
}
