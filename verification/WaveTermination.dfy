/** That the driver of the difference propagation stops: handling a target either adds a copy edge,
    between finitely many nodes, or leaves all sets as they are. */
module WaveTermination {
  import opened FiniteSets
  import opened PointsToData
  import opened WaveDiff
  import opened WaveDriver

  // ---------------------------------------------------------------- what asks for another round

  ghost function Arcs(p: Program): set<Arc> {
    set x, y | x in Nodes(p) && y in Nodes(p) :: Arc(x, y)
  }

  ghost function Reps(p: Program, w: Wave): set<NodeId> {
    set x | x in Nodes(p) && Rep(w.rep, x) == x
  }

  /** Twice the copy edges that can still be added, and whether one asks for another round. */
  ghost function Asks(p: Program, d: Driver): nat {
    2 * |Arcs(p) - d.wave.copy| + if d.again then 1 else 0
  }

  lemma MergeReps(p: Program, w: Wave, v: NodeId, r: NodeId)
    requires Within(p, w) && Enabled(p, w, Merge(v, r))
    ensures |Reps(p, MergeInto(w, v, r))| < |Reps(p, w)|
  {
    hide Nodes;
    var u := MergeInto(w, v, r);
    MergeWithin(p, w, v, r);
    forall x
      ensures Rep(u.rep, x) == if Rep(w.rep, x) == v then r else Rep(w.rep, x)
    {
      MergedRep(w, v, r, x);
    }
    assert v in Reps(p, w) && v !in Reps(p, u);
    SmallerSet(Reps(p, u), Reps(p, w));
  }

  lemma NewCopy(p: Program, w: Wave, s: Step)
    requires Within(p, w) && Enabled(p, w, s) && (s.LoadTarget? || s.StoreTarget?)
    requires Do(p, w, s).copy != w.copy
    ensures |Arcs(p) - Do(p, w, s).copy| < |Arcs(p) - w.copy|
  {
    hide Nodes, Within, Arcs, Enabled;
    var u := Do(p, w, s);
    StepWithin(p, w, s);
    var a := if s.LoadTarget? then Arc(Rep(w.rep, s.target), s.edge.dst) else Arc(s.edge.src, Rep(w.rep, s.target));
    assert u.copy == w.copy + {a} && a !in w.copy;
    ArcWithin(p, u, a);
    SmallerSet(Arcs(p) - u.copy, Arcs(p) - w.copy);
  }

  lemma ArcWithin(p: Program, w: Wave, a: Arc)
    requires Within(p, w) && a in w.copy
    ensures a in Arcs(p)
  {
    hide Nodes;
  }

  // ---------------------------------------------------------------- targets left to handle

  ghost function Unhandled(p: Program, h: Handled, arcs: set<Arc>): set<(Arc, NodeId)> {
    set e, o | e in arcs && o in Nodes(p) && o !in DoneAt(h, e) :: (e, o)
  }

  ghost function Left(p: Program, w: Wave): nat {
    |Unhandled(p, w.loaded, w.load)| + |Unhandled(p, w.stored, w.store)|
  }

  lemma NoteLeft(p: Program, h: Handled, arcs: set<Arc>, e: Arc, o: NodeId)
    requires e in arcs && o in Nodes(p) && o !in DoneAt(h, e)
    ensures |Unhandled(p, h[e := DoneAt(h, e) + {o}], arcs)| < |Unhandled(p, h, arcs)|
  {
    hide Nodes;
    var less, all := Unhandled(p, h[e := DoneAt(h, e) + {o}], arcs), Unhandled(p, h, arcs);
    assert (e, o) in all && (e, o) !in less;
    forall x | x in less
      ensures x in all
    {
      assert x.1 !in DoneAt(h[e := DoneAt(h, e) + {o}], x.0);
    }
    SmallerSet(less, all);
  }

  lemma AddCopyKeepsRest(w: Wave, a: Arc)
    ensures var u := AddCopy(w, a);
            u.load == w.load && u.store == w.store && u.loaded == w.loaded && u.stored == w.stored
  {
  }

  /** What handling a target does to the notes. */
  lemma LoadNotes(p: Program, w: Wave, e: Arc, o: NodeId)
    ensures var u := Do(p, w, LoadTarget(e, o));
            && u.load == w.load && u.store == w.store && u.stored == w.stored
            && u.loaded == w.loaded[e := DoneAt(w.loaded, e) + {o}]
  {
    hide AddCopy, DoneAt, Rep;
    AddCopyKeepsRest(w.(loaded := w.loaded[e := DoneAt(w.loaded, e) + {o}]), Arc(Rep(w.rep, o), e.dst));
  }

  lemma StoreNotes(p: Program, w: Wave, e: Arc, o: NodeId)
    ensures var u := Do(p, w, StoreTarget(e, o));
            && u.load == w.load && u.store == w.store && u.loaded == w.loaded
            && u.stored == w.stored[e := DoneAt(w.stored, e) + {o}]
  {
    hide AddCopy, DoneAt, Rep;
    AddCopyKeepsRest(w.(stored := w.stored[e := DoneAt(w.stored, e) + {o}]), Arc(e.src, Rep(w.rep, o)));
  }

  lemma TargetLeft(p: Program, d: Driver, s: Step)
    requires Within(p, d.wave) && d.phase.Handling? && CanAct(p, d, Act(s)) && Do(p, d.wave, s).copy == d.wave.copy
    ensures Left(p, Do(p, d.wave, s)) < Left(p, d.wave)
    ensures Changed(d.wave, Do(p, d.wave, s)) == {}
  {
    hide Nodes, Unhandled, Do;
    var w := d.wave;
    OldCopyQuiet(p, w, s);
    assert s.target in Nodes(p);
    if s.LoadTarget? {
      LoadNotes(p, w, s.edge, s.target);
      NoteLeft(p, w.loaded, w.load, s.edge, s.target);
    } else {
      StoreNotes(p, w, s.edge, s.target);
      NoteLeft(p, w.stored, w.store, s.edge, s.target);
    }
  }

  // ---------------------------------------------------------------- the measure

  function Stage(phase: Phase): nat {
    match phase
    case Entering(_) => 3
    case Merging => 2
    case Sweeping(_, _) => 1
    case _ => 0
  }

  /** What is left to do in a stage before a node's loads and stores are looked at. */
  function Todo(d: Driver): nat {
    match d.phase
    case Entering(todo) => 2 * |todo|
    case Sweeping(order, k) => if k <= |order| then |order| - k else 0
    case _ => 2 * |d.work| + if d.phase.Handling? then 1 else 0
  }

  /** `n` comes before `d` in the lexicographic order of: representatives, copy edges to add, stage,
      what the stage has left to do, targets left to handle. */
  ghost predicate Nearer(p: Program, n: Driver, d: Driver) {
    || |Reps(p, n.wave)| < |Reps(p, d.wave)|
    || (|Reps(p, n.wave)| == |Reps(p, d.wave)| && Asks(p, n) < Asks(p, d))
    || (|Reps(p, n.wave)| == |Reps(p, d.wave)| && Asks(p, n) == Asks(p, d) && NearerInRound(p, n, d))
  }

  ghost predicate NearerInRound(p: Program, n: Driver, d: Driver) {
    || Stage(n.phase) < Stage(d.phase)
    || (Stage(n.phase) == Stage(d.phase) && Todo(n) < Todo(d))
    || (Stage(n.phase) == Stage(d.phase) && Todo(n) == Todo(d) && Left(p, n.wave) < Left(p, d.wave))
  }

  lemma SameReps(p: Program, w: Wave, u: Wave)
    requires u.rep == w.rep
    ensures Reps(p, u) == Reps(p, w)
  {
  }

  lemma AddressNearer(p: Program, d: Driver, s: Step)
    requires d.phase.Entering? && CanAct(p, d, Act(s))
    ensures Nearer(p, Next(p, d, Act(s)), d)
  {
    hide Nodes, Reps, Arcs, Left;
    var n := Next(p, d, Act(s));
    SameReps(p, d.wave, n.wave);
    SmallerSet(d.phase.todo - {s.addr}, d.phase.todo);
  }

  lemma PropagateNearer(p: Program, d: Driver, s: Step)
    requires d.phase.Sweeping? && CanAct(p, d, Act(s))
    ensures Nearer(p, Next(p, d, Act(s)), d)
  {
    hide Nodes, Reps, Arcs, Left, FlowOut;
    SameReps(p, d.wave, Next(p, d, Act(s)).wave);
  }

  lemma TargetNearer(p: Program, d: Driver, s: Step)
    requires Within(p, d.wave) && d.phase.Handling? && CanAct(p, d, Act(s))
    ensures Nearer(p, Next(p, d, Act(s)), d)
  {
    hide Nodes, Reps, Arcs, Left, Within, Do, Fits, Enabled;
    var n := Next(p, d, Act(s));
    TargetIs(p, d, s);
    SameReps(p, d.wave, n.wave);
    if n.wave.copy != d.wave.copy {
      NewCopy(p, d.wave, s);
    } else {
      TargetLeft(p, d, s);
      assert n.work == d.work;
    }
  }

  lemma TargetIs(p: Program, d: Driver, s: Step)
    requires d.phase.Handling? && CanAct(p, d, Act(s))
    ensures (s.LoadTarget? || s.StoreTarget?) && Enabled(p, d.wave, s) && Do(p, d.wave, s).rep == d.wave.rep
  {
  }

  lemma MergeNearer(p: Program, d: Driver, s: Step)
    requires Within(p, d.wave) && d.phase == Merging && CanAct(p, d, Act(s))
    ensures Nearer(p, Next(p, d, Act(s)), d)
  {
    hide Nodes, Reps, Arcs, Left, Within, MergeInto;
    MergeReps(p, d.wave, s.node, s.into);
  }

  /** Every action of the driver brings it nearer to its end. */
  lemma ActNearer(p: Program, d: Driver, a: Action)
    requires Sound(p, d) && CanAct(p, d, a)
    ensures Nearer(p, Next(p, d, a), d)
  {
    hide Nodes, Reps, Arcs, Left, Kept, Within, Topological, AllHandled;
    match a
    case Act(s) =>
      match d.phase {
        case Entering(_) => AddressNearer(p, d, s);
        case Merging => MergeNearer(p, d, s);
        case Sweeping(_, _) => PropagateNearer(p, d, s);
        case Handling(_) => TargetNearer(p, d, s);
      }
    case Pop(v) =>
      SmallerSet(d.work - {v}, d.work);
    case _ =>
  }

  // ---------------------------------------------------------------- the driver stops

  /** The driver after `n` of the given actions. */
  function Driven(p: Program, acts: nat -> Action, n: nat): Driver {
    if n == 0 then Begin(p) else Next(p, Driven(p, acts, n - 1), acts(n - 1))
  }

  lemma {:induction false} StopsFrom(p: Program, acts: nat -> Action, n: nat) returns (k: nat)
    requires Sound(p, Driven(p, acts, n))
    ensures n <= k && !CanAct(p, Driven(p, acts, k), acts(k))
    ensures Sound(p, Driven(p, acts, k))
    decreases |Reps(p, Driven(p, acts, n).wave)|, Asks(p, Driven(p, acts, n)), Stage(Driven(p, acts, n).phase),
              Todo(Driven(p, acts, n)), Left(p, Driven(p, acts, n).wave)
  {
    hide Reps, Asks, Stage, Todo, Left, Sound, CanAct, Next;
    k := n;
    var d := Driven(p, acts, n);
    if CanAct(p, d, acts(n)) {
      ActSound(p, d, acts(n));
      ActNearer(p, d, acts(n));
      assert Driven(p, acts, n + 1) == Next(p, d, acts(n));
      k := StopsFrom(p, acts, n + 1);
    }
  }

  /** No run of the driver goes on for ever. */
  lemma DriverStops(p: Program, acts: nat -> Action)
    ensures exists k: nat :: !CanAct(p, Driven(p, acts, k), acts(k))
  {
    hide CanAct;
    BeginSound(p);
    var k := StopsFrom(p, acts, 0);
  }

  // ---------------------------------------------------------------- a topological order

  ghost function Before(arcs: set<Arc>, s: set<NodeId>, x: NodeId): set<NodeId> {
    set y | y in s && Connected(arcs, y, x)
  }

  /** No two nodes lie on a cycle. */
  ghost predicate NoCycle(arcs: set<Arc>, s: set<NodeId>) {
    forall x, y :: x in s && y in s && x != y && Connected(arcs, x, y) ==> !Connected(arcs, y, x)
  }

  lemma ConnectedStep(arcs: set<Arc>, z: NodeId, y: NodeId, x: NodeId)
    requires Connected(arcs, z, y) && Arc(y, x) in arcs
    ensures Connected(arcs, z, x)
  {
    var path :| IsPath(arcs, path) && path[0] == z && path[|path| - 1] == y;
    var longer := path + [x];
    assert IsPath(arcs, longer) && longer[0] == z && longer[|longer| - 1] == x;
  }

  lemma ConnectedSelf(arcs: set<Arc>, x: NodeId)
    ensures Connected(arcs, x, x)
  {
    assert IsPath(arcs, [x]) && [x][0] == x;
  }

  /** Going back along edges ends at a node without an edge into it. */
  lemma {:induction false} Source(arcs: set<Arc>, s: set<NodeId>, x: NodeId) returns (m: NodeId)
    requires x in s && NoCycle(arcs, s)
    ensures m in s && forall y :: y in s && y != m ==> Arc(y, m) !in arcs
    decreases |Before(arcs, s, x)|
  {
    hide Connected;
    m := x;
    if y :| y in s && y != x && Arc(y, x) in arcs {
      ConnectedSelf(arcs, x);
      ConnectedSelf(arcs, y);
      ConnectedStep(arcs, y, y, x);
      forall z | z in Before(arcs, s, y)
        ensures z in Before(arcs, s, x)
      {
        ConnectedStep(arcs, z, y, x);
      }
      assert x in Before(arcs, s, x) && x !in Before(arcs, s, y);
      SmallerSet(Before(arcs, s, y), Before(arcs, s, x));
      m := Source(arcs, s, y);
    }
  }

  lemma {:induction false} Ordered(arcs: set<Arc>, s: set<NodeId>) returns (order: seq<NodeId>)
    requires NoCycle(arcs, s)
    ensures forall x :: x in order <==> x in s
    ensures forall i, j :: 0 <= i < j < |order| ==> Arc(order[j], order[i]) !in arcs && order[i] != order[j]
    decreases s
  {
    hide Connected;
    order := [];
    if x :| x in s {
      var m := Source(arcs, s, x);
      var rest := Ordered(arcs, s - {m});
      order := [m] + rest;
      forall i, j | 0 <= i < j < |order|
        ensures Arc(order[j], order[i]) !in arcs && order[i] != order[j]
      {
        assert order[j] == rest[j - 1] && rest[j - 1] in s - {m};
        assert i > 0 ==> order[i] == rest[i - 1];
      }
    }
  }

  /** Once no cycle is left to merge, there is a topological order. */
  lemma OrderExists(p: Program, w: Wave) returns (order: seq<NodeId>)
    requires forall v, r :: !Enabled(p, w, Merge(v, r))
    ensures Topological(p, w, order)
  {
    hide Connected, Nodes;
    var s := Reps(p, w);
    forall x, y | x in s && y in s && x != y && Connected(w.copy, x, y)
      ensures !Connected(w.copy, y, x)
    {
      assert !Enabled(p, w, Merge(x, y));
    }
    order := Ordered(w.copy, s);
    assert forall i :: 0 <= i < |order| ==> order[i] in s;
  }

  lemma NodeNotStuck(p: Program, d: Driver, v: NodeId)
    requires d.phase == Handling(v)
    ensures exists a :: CanAct(p, d, a)
  {
    var w := d.wave;
    if AllHandled(w, v) {
      assert CanAct(p, d, EndNode);
    } else if e :| e in w.load && e.src == v && !(Get(w.pts, v) <= DoneAt(w.loaded, e)) {
      var o :| o in Get(w.pts, v) && o !in DoneAt(w.loaded, e);
      assert CanAct(p, d, Act(LoadTarget(e, o)));
    } else {
      var e :| e in w.store && e.dst == v && !(Get(w.pts, v) <= DoneAt(w.stored, e));
      var o :| o in Get(w.pts, v) && o !in DoneAt(w.stored, e);
      assert CanAct(p, d, Act(StoreTarget(e, o)));
    }
  }

  lemma MergingNotStuck(p: Program, d: Driver)
    requires d.phase == Merging
    ensures exists a :: CanAct(p, d, a)
  {
    hide Enabled, Topological;
    if v, r :| Enabled(p, d.wave, Merge(v, r)) {
      assert CanAct(p, d, Act(Merge(v, r)));
    } else {
      var order := OrderExists(p, d.wave);
      assert CanAct(p, d, Sweep(order));
    }
  }

  /** ... and where it cannot go on, it has stopped as it should. */
  lemma StuckIsStopped(p: Program, d: Driver)
    requires Sound(p, d)
    ensures Stopped(d) <==> forall a :: !CanAct(p, d, a)
  {
    hide Kept, Within, Entered, NothingLeft, Swept, AllHandled;
    if Stopped(d) {
    } else {
      match d.phase
      case Entering(todo) =>
        if x :| x in todo {
          assert CanAct(p, d, Act(Address(x)));
        } else {
          assert todo == {};
          assert CanAct(p, d, StartRound);
        }
      case Merging => MergingNotStuck(p, d);
      case Sweeping(order, k) =>
        assert CanAct(p, d, if k < |order| then Act(Propagate(order[k])) else EndSweep);
      case Popping =>
        if v :| v in d.work {
          assert CanAct(p, d, Pop(v));
        } else {
          assert d.work == {};
          assert CanAct(p, d, StartRound);
        }
      case Handling(v) => NodeNotStuck(p, d, v);
    }
  }
}
