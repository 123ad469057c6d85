/** The driver of the difference propagation: the addresses are entered, and then every round merges
    copy cycles, sweeps over the nodes in topological order to hand on differences, and handles
    the loads and stores of the nodes in a worklist, until a round has added no copy edge. */
module WaveDriver {
  import opened PointsToData
  import opened WaveDiff

  /** What the driver is doing: entering the addresses in `todo`, merging cycles, about to hand on
      the difference of `order[at]`, taking nodes off the worklist, or handling the loads and
      stores through one. */
  datatype Phase =
    | Entering(todo: set<Arc>)
    | Merging
    | Sweeping(order: seq<NodeId>, at: nat)
    | Popping
    | Handling(node: NodeId)

  /** `work` is the worklist, `again` asks for another round. */
  datatype Driver = Driver(wave: Wave, work: set<NodeId>, again: bool, phase: Phase)

  datatype Action =
    | Act(step: Step)
    | StartRound
    | Sweep(order: seq<NodeId>)
    | EndSweep
    | Pop(node: NodeId)
    | EndNode

  function Begin(p: Program): Driver {
    Driver(Start(p), {}, false, Entering(p.addrs))
  }

  function Nodes(p: Program): set<NodeId> {
    var arcs := p.addrs + p.copies + p.loads + p.stores;
    (set a | a in arcs :: a.src) + set a | a in arcs :: a.dst
  }

  /** `order` lists all representatives, and no copy edge leads back in it. */
  ghost predicate Topological(p: Program, w: Wave, order: seq<NodeId>) {
    && (forall x :: x in Nodes(p) && Rep(w.rep, x) == x ==> x in order)
    && (forall i :: 0 <= i < |order| ==> Rep(w.rep, order[i]) == order[i])
    && (forall i, j :: 0 <= i < j < |order| ==> Arc(order[j], order[i]) !in w.copy && order[i] != order[j])
  }

  /** The nodes whose set a step has made larger. */
  function Changed(w: Wave, u: Wave): set<NodeId> {
    set x | x in u.pts && Get(u.pts, x) != Get(w.pts, x)
  }

  /** Every step puts the nodes it changes into the worklist, except that merging does not: it
      only renames what is in the worklist. */
  function Push(w: Wave, u: Wave, s: Step, work: set<NodeId>): set<NodeId> {
    match s
    case Merge(v, r) => set x | x in work :: if x == v then r else x
    case _ => work + Changed(w, u)
  }

  /** The steps of each phase. A load or a store is handled for targets that are new to it. */
  ghost predicate Fits(d: Driver, s: Step) {
    match d.phase
    case Entering(todo) => s.Address? && s.addr in todo
    case Merging => s.Merge?
    case Sweeping(order, k) => k < |order| && s == Propagate(order[k])
    case Popping => false
    case Handling(v) =>
      || (s.LoadTarget? && s.edge.src == v && s.target !in DoneAt(d.wave.loaded, s.edge))
      || (s.StoreTarget? && s.edge.dst == v && s.target !in DoneAt(d.wave.stored, s.edge))
  }

  /** A node is done with when its loads and stores have been handled, or when handling them has put
      it back into the worklist. */
  ghost predicate CanAct(p: Program, d: Driver, a: Action) {
    match a
    case Act(s) => Fits(d, s) && Enabled(p, d.wave, s)
    case StartRound => d.phase == Entering({}) || (d.phase == Popping && d.work == {} && d.again)
    case Sweep(order) => d.phase == Merging && Topological(p, d.wave, order)
    case EndSweep => d.phase.Sweeping? && d.phase.at == |d.phase.order|
    case Pop(v) => d.phase == Popping && v in d.work
    case EndNode => d.phase.Handling? && (AllHandled(d.wave, d.phase.node) || d.phase.node in d.work)
  }

  function After(phase: Phase, s: Step): Phase {
    match phase
    case Entering(todo) => if s.Address? then Entering(todo - {s.addr}) else phase
    case Sweeping(order, k) => Sweeping(order, k + 1)
    case _ => phase
  }

  function Next(p: Program, d: Driver, a: Action): Driver {
    match a
    case Act(s) =>
      var u := Do(p, d.wave, s);
      Driver(u, Push(d.wave, u, s, d.work), d.again || (!s.Merge? && u.copy != d.wave.copy), After(d.phase, s))
    case StartRound => d.(again := false, phase := Merging)
    case Sweep(order) => d.(phase := Sweeping(order, 0))
    case EndSweep => d.(phase := Popping)
    case Pop(v) => d.(work := d.work - {v}, phase := Handling(v))
    case EndNode => d.(phase := Popping)
  }

  function Drive(p: Program, d: Driver, actions: seq<Action>): Driver
    decreases |actions|
  {
    if actions == [] then d else Drive(p, Next(p, d, actions[0]), actions[1..])
  }

  ghost predicate CanDrive(p: Program, d: Driver, actions: seq<Action>)
    decreases |actions|
  {
    actions == [] || (CanAct(p, d, actions[0]) && CanDrive(p, Next(p, d, actions[0]), actions[1..]))
  }

  /** The last round is over. */
  predicate Stopped(d: Driver) {
    d.phase == Popping && d.work == {} && !d.again
  }

  // ---------------------------------------------------------------- when the result is complete

  /** Whatever still needs work is in the worklist or is being handled. */
  ghost predicate Covered(p: Program, d: Driver) {
    forall v :: Starving(p, d.wave, v) ==> v in d.work || d.phase == Handling(v)
  }

  /** A merge that leaves its representative with unserved targets outside of the worklist. */
  ghost predicate LosesWork(p: Program, d: Driver, a: Action) {
    && a.Act? && a.step.Merge?
    && Starving(p, MergeInto(d.wave, a.step.node, a.step.into), a.step.into)
    && a.step.node !in d.work && a.step.into !in d.work
  }

  lemma EdgesStay(p: Program, w: Wave, s: Step)
    requires !s.Merge?
    ensures Do(p, w, s).rep == w.rep && Do(p, w, s).load == w.load && Do(p, w, s).store == w.store
    ensures w.copy <= Do(p, w, s).copy
  {
    hide AddTo, FlowOut, MergeInto, DoneAt, Rep;
    match s
    case Address(_) =>
    case Propagate(_) =>
    case LoadTarget(_, _) =>
    case StoreTarget(_, _) =>
  }

  lemma ServedStays(p: Program, w: Wave, u: Wave, v: NodeId, o: NodeId)
    requires u.rep == w.rep && u.load == w.load && u.store == w.store && w.copy <= u.copy
    requires Served(p, w, v, o)
    ensures Served(p, u, v, o)
  {
    forall e | e in u.load && e.src == v
      ensures Linked(u, o, e.dst)
    {
      assert Linked(w, o, e.dst);
    }
    forall e | e in u.store && e.dst == v
      ensures Linked(u, e.src, o)
    {
      assert Linked(w, e.src, o);
    }
  }

  lemma NewlyStarving(p: Program, w: Wave, s: Step, v: NodeId)
    requires !s.Merge? && Starving(p, Do(p, w, s), v) && !Starving(p, w, v)
    ensures v in Changed(w, Do(p, w, s))
  {
    hide Do;
    EdgesStay(p, w, s);
    var u := Do(p, w, s);
    var o :| o in Get(u.pts, v) && o !in p.untracked && !Served(p, u, v, o);
    if o in Get(w.pts, v) {
      ServedStays(p, w, u, v, o);
    }
  }

  lemma MergeServes(p: Program, w: Wave, v: NodeId, r: NodeId, x: NodeId, o: NodeId)
    requires Represented(p, w) && v != r && Rep(w.rep, v) == v && Rep(w.rep, r) == r
    requires x != v && x != r && Served(p, w, x, o)
    ensures Served(p, MergeInto(w, v, r), x, o)
  {
    var u := MergeInto(w, v, r);
    MergeRepresents(p, w, v, r);
    forall b | b in u.load && b.src == x
      ensures Linked(u, o, b.dst)
    {
      var a :| a in w.load && Redirect(v, r, a) == b;
      assert Linked(w, o, a.dst);
      MergedRep(w, v, r, a.dst);
      MergedRep(w, v, r, b.dst);
    }
    forall b | b in u.store && b.dst == x
      ensures Linked(u, b.src, o)
    {
      var a :| a in w.store && Redirect(v, r, a) == b;
      assert Linked(w, a.src, o);
      MergedRep(w, v, r, a.src);
      MergedRep(w, v, r, b.src);
    }
  }

  lemma MergeStarves(p: Program, w: Wave, v: NodeId, r: NodeId, x: NodeId)
    requires Represented(p, w) && v != r && Rep(w.rep, v) == v && Rep(w.rep, r) == r
    requires Starving(p, MergeInto(w, v, r), x) && x != r
    ensures Starving(p, w, x) && x != v
  {
    var u := MergeInto(w, v, r);
    var o :| o in Get(u.pts, x) && o !in p.untracked && !Served(p, u, x, o);
    if x == v {
      assert forall b :: b in u.load || b in u.store ==> b.src != v && b.dst != v;
    } else if Served(p, w, x, o) {
      MergeServes(p, w, v, r, x, o);
    }
  }

  /** The worklist keeps covering what needs work, except in exactly one situation. */
  lemma CoveredUnlessLost(p: Program, d: Driver, a: Action)
    requires Kept(p, d.wave) && Covered(p, d) && CanAct(p, d, a)
    ensures Covered(p, Next(p, d, a)) <==> !LosesWork(p, d, a)
  {
    hide Do, Starving, MergeInto, Kept, AllHandled, Changed, Topological;
    var n := Next(p, d, a);
    match a
    case Act(s) =>
      if s.Merge? {
        MergeCovered(p, d, s.node, s.into);
      } else {
        forall x | Starving(p, n.wave, x)
          ensures x in n.work || n.phase == Handling(x)
        {
          if !Starving(p, d.wave, x) {
            NewlyStarving(p, d.wave, s, x);
          }
        }
      }
    case EndNode =>
      if AllHandled(d.wave, d.phase.node) {
        HandledNotStarving(p, d.wave, d.phase.node);
      }
    case _ =>
  }

  lemma MergeCovered(p: Program, d: Driver, v: NodeId, r: NodeId)
    requires Kept(p, d.wave) && Covered(p, d) && d.phase == Merging && Enabled(p, d.wave, Merge(v, r))
    ensures Covered(p, Next(p, d, Act(Merge(v, r)))) <==> !LosesWork(p, d, Act(Merge(v, r)))
  {
    hide Starving, MergeInto;
    var n := Next(p, d, Act(Merge(v, r)));
    forall x | Starving(p, n.wave, x) && x != r
      ensures x in n.work
    {
      MergeStarves(p, d.wave, v, r, x);
    }
    assert r in n.work <==> v in d.work || r in d.work;
  }

  ghost predicate NeverLosesWork(p: Program, d: Driver, actions: seq<Action>)
    decreases |actions|
  {
    actions == [] || (!LosesWork(p, d, actions[0]) && NeverLosesWork(p, Next(p, d, actions[0]), actions[1..]))
  }

  // ---------------------------------------------------------------- what the phases establish

  /** All addresses have been entered but for those in `todo`. */
  ghost predicate Entered(p: Program, w: Wave, todo: set<Arc>) {
    forall a :: a in p.addrs && a !in todo ==> a.src in Get(w.pts, Rep(w.rep, a.dst))
  }

  /** No copy edge has a difference left to hand on. */
  ghost predicate NothingLeft(w: Wave) {
    forall a :: a in w.copy ==> Get(w.pts, a.src) <= Get(w.propa, a.src)
  }

  /** The first `k` nodes of the order have none. */
  ghost predicate Swept(w: Wave, order: seq<NodeId>, k: nat) {
    forall i :: 0 <= i < k && i < |order| ==> Get(w.pts, order[i]) <= Get(w.propa, order[i])
  }

  /** Each phase leaves behind what the next one needs. In the last one, sets grow only with a new
      copy edge, which asks for another round. */
  ghost predicate OnCourse(p: Program, d: Driver) {
    && Entered(p, d.wave, if d.phase.Entering? then d.phase.todo else {})
    && match d.phase
       case Entering(todo) => todo <= p.addrs
       case Sweeping(order, k) => k <= |order| && Topological(p, d.wave, order) && Swept(d.wave, order, k)
       case Popping => d.again || NothingLeft(d.wave)
       case Handling(_) => d.again || NothingLeft(d.wave)
       case _ => true
  }

  /** No answer ever shrinks. */
  lemma AnswersGrow(p: Program, w: Wave, s: Step, x: NodeId)
    requires Enabled(p, w, s)
    ensures Get(w.pts, Rep(w.rep, x)) <= Get(Do(p, w, s).pts, Rep(Do(p, w, s).rep, x))
  {
    match s
    case Merge(v, r) => MergedRep(w, v, r, x);
    case Propagate(v) => FlowOutAt(w, v, Diff(w, v), Rep(w.rep, x));
    case _ =>
  }

  /** The state speaks of the program's nodes only. */
  ghost predicate Within(p: Program, w: Wave) {
    && (forall x, o :: o in Get(w.pts, x) ==> o in Nodes(p))
    && (forall a :: a in w.copy || a in w.load || a in w.store ==> a.src in Nodes(p) && a.dst in Nodes(p))
    && (forall x :: x in Nodes(p) ==> Rep(w.rep, x) in Nodes(p))
  }

  lemma StartWithin(p: Program)
    ensures Within(p, Start(p))
  {
  }

  lemma ConnectedEnds(arcs: set<Arc>, v: NodeId, r: NodeId) returns (a: Arc)
    requires Connected(arcs, v, r) && v != r
    ensures a in arcs && a.src == v
  {
    var path :| IsPath(arcs, path) && path[0] == v && path[|path| - 1] == r;
    a := Arc(path[0], path[1]);
  }

  lemma MergeWithin(p: Program, w: Wave, v: NodeId, r: NodeId)
    requires Within(p, w) && Enabled(p, w, Merge(v, r))
    ensures Within(p, MergeInto(w, v, r)) && v in Nodes(p) && r in Nodes(p)
  {
    hide Nodes;
    var a := ConnectedEnds(w.copy, v, r);
    var b := ConnectedEnds(w.copy, r, v);
    forall x
      ensures Rep(MergeInto(w, v, r).rep, x) == if Rep(w.rep, x) == v then r else Rep(w.rep, x)
    {
      MergedRep(w, v, r, x);
    }
  }

  lemma PropagateWithin(p: Program, w: Wave, v: NodeId)
    requires Within(p, w)
    ensures Within(p, Do(p, w, Propagate(v)))
  {
    hide Nodes, FlowOut;
    forall x
      ensures Get(Do(p, w, Propagate(v)).pts, x) <= Get(w.pts, x) + Diff(w, v)
    {
      FlowOutAt(w, v, Diff(w, v), x);
    }
  }

  lemma AddCopyWithin(p: Program, w: Wave, a: Arc)
    requires Within(p, w) && a.src in Nodes(p) && a.dst in Nodes(p)
    ensures Within(p, AddCopy(w, a))
  {
    hide Nodes;
  }

  lemma TargetWithin(p: Program, w: Wave, s: Step)
    requires Within(p, w) && Enabled(p, w, s) && (s.LoadTarget? || s.StoreTarget?)
    ensures Within(p, Do(p, w, s))
  {
    hide Nodes, AddCopy;
    assert s.target in Nodes(p) && Rep(w.rep, s.target) in Nodes(p);
    if s.LoadTarget? {
      AddCopyWithin(p, w.(loaded := w.loaded[s.edge := DoneAt(w.loaded, s.edge) + {s.target}]),
        Arc(Rep(w.rep, s.target), s.edge.dst));
    } else {
      AddCopyWithin(p, w.(stored := w.stored[s.edge := DoneAt(w.stored, s.edge) + {s.target}]),
        Arc(s.edge.src, Rep(w.rep, s.target)));
    }
  }

  lemma StepWithin(p: Program, w: Wave, s: Step)
    requires Within(p, w) && Enabled(p, w, s)
    ensures Within(p, Do(p, w, s))
  {
    hide MergeInto, FlowOut, AddCopy;
    match s
    case Address(a) =>
      assert a.src in Nodes(p);
    case Propagate(v) =>
      PropagateWithin(p, w, v);
    case Merge(v, r) =>
      MergeWithin(p, w, v, r);
    case _ =>
      TargetWithin(p, w, s);
  }

  lemma SweepKeeps(p: Program, w: Wave, order: seq<NodeId>, k: nat)
    requires k < |order| && Topological(p, w, order) && Swept(w, order, k)
    ensures Topological(p, Do(p, w, Propagate(order[k])), order) && Swept(Do(p, w, Propagate(order[k])), order, k + 1)
  {
    var v, u := order[k], Do(p, w, Propagate(order[k]));
    forall i | 0 <= i < k + 1
      ensures Get(u.pts, order[i]) <= Get(u.propa, order[i])
    {
      FlowOutAt(w, v, Diff(w, v), order[i]);
      assert i < k ==> Arc(order[k], order[i]) !in w.copy && order[i] != order[k];
    }
  }

  lemma SweptHandsOn(p: Program, w: Wave, order: seq<NodeId>)
    requires Within(p, w) && Kept(p, w) && Topological(p, w, order) && Swept(w, order, |order|)
    ensures NothingLeft(w)
  {
    hide Nodes;
    forall a | a in w.copy
      ensures Get(w.pts, a.src) <= Get(w.propa, a.src)
    {
      assert a.src in order;
      var i :| 0 <= i < |order| && order[i] == a.src;
    }
  }

  /** Handling a target without a new copy edge changes no set. */
  lemma OldCopyQuiet(p: Program, w: Wave, s: Step)
    requires (s.LoadTarget? || s.StoreTarget?) && Do(p, w, s).copy == w.copy
    ensures Do(p, w, s).pts == w.pts && Do(p, w, s).propa == w.propa
  {
  }

  lemma EnteredStays(p: Program, w: Wave, s: Step, todo: set<Arc>)
    requires Enabled(p, w, s) && Entered(p, w, todo)
    ensures Entered(p, Do(p, w, s), todo)
    ensures s.Address? ==> Entered(p, Do(p, w, s), todo - {s.addr})
  {
    hide Do;
    forall a | a in p.addrs && a !in todo
      ensures a.src in Get(Do(p, w, s).pts, Rep(Do(p, w, s).rep, a.dst))
    {
      AnswersGrow(p, w, s, a.dst);
    }
    if s.Address? {
      AddressEnters(p, w, s.addr);
    }
  }

  lemma AddressEnters(p: Program, w: Wave, a: Arc)
    ensures a.src in Get(Do(p, w, Address(a)).pts, Rep(Do(p, w, Address(a)).rep, a.dst))
  {
  }

  lemma StepOnCourse(p: Program, d: Driver, s: Step)
    requires Within(p, d.wave) && OnCourse(p, d) && CanAct(p, d, Act(s))
    ensures OnCourse(p, Next(p, d, Act(s)))
  {
    hide Do, Enabled, Entered, Within, Topological, Swept, NothingLeft, Changed, Push;
    match d.phase
    case Entering(todo) =>
      EnteredStays(p, d.wave, s, todo);
    case Merging =>
      EnteredStays(p, d.wave, s, {});
    case Sweeping(order, k) =>
      EnteredStays(p, d.wave, s, {});
      SweepKeeps(p, d.wave, order, k);
    case Handling(v) =>
      EnteredStays(p, d.wave, s, {});
      if Do(p, d.wave, s).copy == d.wave.copy {
        OldCopyQuiet(p, d.wave, s);
        StillHandedOn(d.wave, Do(p, d.wave, s));
      }
  }

  lemma StillHandedOn(w: Wave, u: Wave)
    requires u.pts == w.pts && u.propa == w.propa && u.copy == w.copy
    ensures NothingLeft(w) ==> NothingLeft(u)
  {
  }

  lemma StaysOnCourse(p: Program, d: Driver, a: Action)
    requires Within(p, d.wave) && Kept(p, d.wave) && OnCourse(p, d) && CanAct(p, d, a)
    ensures OnCourse(p, Next(p, d, a))
  {
    hide Do, Enabled, Entered, Within, Kept, Topological, NothingLeft, Nodes;
    match a
    case Act(s) =>
      StepOnCourse(p, d, s);
    case EndSweep =>
      SweptHandsOn(p, d.wave, d.phase.order);
    case _ =>
  }

  // ---------------------------------------------------------------- whole runs

  ghost predicate Sound(p: Program, d: Driver) {
    Kept(p, d.wave) && Within(p, d.wave) && OnCourse(p, d)
  }

  lemma ActSound(p: Program, d: Driver, a: Action)
    requires Sound(p, d) && CanAct(p, d, a)
    ensures Sound(p, Next(p, d, a))
  {
    hide Kept, Within, OnCourse, Do, Enabled, Fits;
    StaysOnCourse(p, d, a);
    if a.Act? {
      ActEnabled(p, d, a.step);
      StepKeeps(p, d.wave, a.step);
      StepWithin(p, d.wave, a.step);
    }
  }

  lemma ActEnabled(p: Program, d: Driver, s: Step)
    requires CanAct(p, d, Act(s))
    ensures Enabled(p, d.wave, s)
  {
  }

  lemma BeginSound(p: Program)
    ensures Sound(p, Begin(p)) && Covered(p, Begin(p))
  {
    StartKept(p);
    StartWithin(p);
  }

  /** Every run of the driver is on course: before it pops, all differences have been handed on. */
  lemma {:induction false} DriveSound(p: Program, d: Driver, actions: seq<Action>)
    requires Sound(p, d) && CanDrive(p, d, actions)
    ensures Sound(p, Drive(p, d, actions))
    decreases |actions|
  {
    hide Sound, CanAct, Next;
    if actions != [] {
      ActSound(p, d, actions[0]);
      DriveSound(p, Next(p, d, actions[0]), actions[1..]);
    }
  }

  lemma {:induction false} DriveCovered(p: Program, d: Driver, actions: seq<Action>)
    requires Sound(p, d) && Covered(p, d)
    requires CanDrive(p, d, actions) && NeverLosesWork(p, d, actions)
    ensures Covered(p, Drive(p, d, actions))
    decreases |actions|
  {
    hide CanAct, Next, Covered, LosesWork, Kept, Within, OnCourse;
    if actions != [] {
      CoveredUnlessLost(p, d, actions[0]);
      ActSound(p, d, actions[0]);
      DriveCovered(p, Next(p, d, actions[0]), actions[1..]);
    }
  }

  /** The driver's state without its worklist goes through a run of the state machine. */
  function StepsOf(actions: seq<Action>): seq<Step> {
    if actions == [] then []
    else (if actions[0].Act? then [actions[0].step] else []) + StepsOf(actions[1..])
  }

  lemma NextWave(p: Program, d: Driver, a: Action)
    requires CanAct(p, d, a)
    ensures a.Act? ==> Enabled(p, d.wave, a.step)
    ensures Next(p, d, a).wave == if a.Act? then Do(p, d.wave, a.step) else d.wave
  {
  }

  lemma {:induction false} DriveIsRun(p: Program, d: Driver, actions: seq<Action>)
    requires CanDrive(p, d, actions)
    ensures CanRun(p, d.wave, StepsOf(actions))
    ensures Drive(p, d, actions).wave == Run(p, d.wave, StepsOf(actions))
    decreases |actions|
  {
    hide CanAct, Next, Do, Enabled;
    if actions != [] {
      NextWave(p, d, actions[0]);
      DriveIsRun(p, Next(p, d, actions[0]), actions[1..]);
      var rest := StepsOf(actions[1..]);
      if actions[0].Act? {
        assert StepsOf(actions)[0] == actions[0].step && StepsOf(actions)[1..] == rest;
      } else {
        assert StepsOf(actions) == rest;
      }
    }
  }

  lemma StoppedPropagated(p: Program, d: Driver)
    requires Sound(p, d) && Stopped(d)
    ensures Propagated(p, d.wave)
    ensures Covered(p, d) ==> forall v :: !Starving(p, d.wave, v)
  {
    hide Starving;
  }

  /** A run of the driver that stops, and in which no merge loses work, ends in the least solution. */
  lemma DriverIsExact(p: Program, actions: seq<Action>)
    requires CanDrive(p, Begin(p), actions) && NeverLosesWork(p, Begin(p), actions)
    requires Stopped(Drive(p, Begin(p), actions))
    ensures var answer := Answer(Drive(p, Begin(p), actions).wave);
            Solves(p, answer) && forall sol, x :: Solves(p, sol) ==> Get(answer, x) <= Get(sol, x)
  {
    hide Sound, Covered, Propagated, Starving, Solves, Begin;
    BeginSound(p);
    BeginWave(p);
    DriveIsRun(p, Begin(p), actions);
    DriveSound(p, Begin(p), actions);
    DriveCovered(p, Begin(p), actions);
    StoppedPropagated(p, Drive(p, Begin(p), actions));
    FinishedIsLeast(p, StepsOf(actions));
  }

  lemma BeginWave(p: Program)
    ensures Begin(p).wave == Start(p)
  {
  }
}
