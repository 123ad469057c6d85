/** A program on which the driver of the difference propagation loses work: the copy cycle that closes
    in the first round is merged in the second, and a load through it is never carried out. */
module WaveCorners {
  import opened PointsToData
  import opened WaveDiff
  import opened WaveDriver

  // ---------------------------------------------------------------- reachable drivers

  ghost predicate Reaches(p: Program, d: Driver) {
    exists actions :: CanDrive(p, Begin(p), actions) && Drive(p, Begin(p), actions) == d
  }

  lemma {:induction false} DriveOneMore(p: Program, d: Driver, actions: seq<Action>, a: Action)
    requires CanDrive(p, d, actions) && CanAct(p, Drive(p, d, actions), a)
    ensures CanDrive(p, d, actions + [a])
    ensures Drive(p, d, actions + [a]) == Next(p, Drive(p, d, actions), a)
    decreases |actions|
  {
    hide CanAct, Next;
    if actions == [] {
      assert [] + [a] == [a] && [a][1..] == [];
      assert Drive(p, Next(p, d, a), []) == Next(p, d, a);
    } else {
      DriveOneMore(p, Next(p, d, actions[0]), actions[1..], a);
      assert (actions + [a])[1..] == actions[1..] + [a];
    }
  }

  lemma ReachesNext(p: Program, d: Driver, a: Action)
    requires Reaches(p, d) && CanAct(p, d, a)
    ensures Reaches(p, Next(p, d, a))
  {
    hide CanAct, Next;
    var actions :| CanDrive(p, Begin(p), actions) && Drive(p, Begin(p), actions) == d;
    DriveOneMore(p, Begin(p), actions, a);
  }

  lemma ReachesBegin(p: Program)
    ensures Reaches(p, Begin(p))
  {
    assert CanDrive(p, Begin(p), []) && Drive(p, Begin(p), []) == Begin(p);
  }

  // ---------------------------------------------------------------- what most actions do

  /** Entering an address where there was none. */
  lemma AddressReached(p: Program, d: Driver, todo: set<Arc>, a: Arc, pts: PtsMap)
    requires Reaches(p, d) && d.phase == Entering(todo) && a in todo && a in p.addrs
    requires d.wave.rep == map[] && a.dst !in d.wave.pts && pts == d.wave.pts[a.dst := {a.src}]
    ensures Reaches(p, d.(wave := d.wave.(pts := pts), work := d.work + {a.dst}, phase := Entering(todo - {a})))
  {
    hide Reaches;
    ReachesNext(p, d, Act(Address(a)));
    var u := Do(p, d.wave, Address(a));
    assert {} + {a.src} == {a.src};
    assert Changed(d.wave, u) == {a.dst};
  }

  ghost predicate Quiet(w: Wave, v: NodeId) {
    Rep(w.rep, v) == v && (Diff(w, v) == {} || forall a :: a in w.copy ==> a.src != v)
  }

  /** Handing on a difference that is empty or goes nowhere. */
  lemma QuietReached(p: Program, d: Driver, order: seq<NodeId>, k: nat)
    requires Reaches(p, d) && d.phase == Sweeping(order, k) && k < |order| && Quiet(d.wave, order[k])
    ensures var v := order[k];
            Reaches(p, d.(wave := d.wave.(propa := d.wave.propa[v := Get(d.wave.pts, v)]),
              phase := Sweeping(order, k + 1)))
  {
    hide Reaches;
    var w, v := d.wave, order[k];
    var u := w.(propa := w.propa[v := Get(w.pts, v)]);
    ReachesNext(p, d, Act(Propagate(v)));
    assert (set a | a in w.copy && a.src == v :: a.dst) == {} || Diff(w, v) == {};
    forall x | x in w.pts && Diff(w, v) != {}
      ensures Get(w.pts, x) + (if Arc(v, x) in w.copy then Diff(w, v) else {}) == w.pts[x]
    {
    }
    assert FlowOut(w, v, Diff(w, v)) == w.pts;
    assert Changed(w, u) == {} && d.work + {} == d.work;
    assert Do(p, w, Propagate(v)) == u;
  }

  /** The rest of a sweep over quiet nodes: all they have counts as propagated. */
  lemma {:induction false} SweepReached(p: Program, d: Driver, order: seq<NodeId>, k: nat) returns (m: PtsMap)
    requires Reaches(p, d) && d.phase == Sweeping(order, k) && k <= |order|
    requires forall i :: k <= i < |order| ==> Quiet(d.wave, order[i])
    requires forall i, j :: 0 <= i < j < |order| ==> order[i] != order[j]
    ensures Reaches(p, d.(wave := d.wave.(propa := m), phase := Popping))
    ensures forall x :: Get(m, x) == if x in order[k..] then Get(d.wave.pts, x) else Get(d.wave.propa, x)
    decreases |order| - k
  {
    hide Reaches;
    if k == |order| {
      m := d.wave.propa;
      ReachesNext(p, d, EndSweep);
    } else {
      var v := order[k];
      var n := d.(wave := d.wave.(propa := d.wave.propa[v := Get(d.wave.pts, v)]), phase := Sweeping(order, k + 1));
      QuietReached(p, d, order, k);
      forall i | k + 1 <= i < |order|
        ensures Quiet(n.wave, order[i])
      {
        assert Quiet(d.wave, order[i]) && order[i] != v;
      }
      m := SweepReached(p, n, order, k + 1);
      assert order[k..] == [v] + order[k + 1..];
    }
  }

  lemma TargetReached(p: Program, d: Driver, s: Step, u: Wave, more: set<NodeId>)
    requires Reaches(p, d) && d.phase.Handling? && CanAct(p, d, Act(s)) && u == Do(p, d.wave, s)
    requires (s.LoadTarget? || s.StoreTarget?) && u.copy != d.wave.copy && more == Changed(d.wave, u)
    ensures Reaches(p, Driver(u, d.work + more, true, d.phase))
  {
    hide Reaches, Do, CanAct, Changed;
    ReachesNext(p, d, Act(s));
  }

  /** A node without loads and stores through it is taken off the worklist. */
  lemma IdleReached(p: Program, d: Driver, v: NodeId)
    requires Reaches(p, d) && d.phase == Popping && v in d.work
    requires forall e :: e in d.wave.load ==> e.src != v
    requires forall e :: e in d.wave.store ==> e.dst != v
    ensures Reaches(p, d.(work := d.work - {v}))
  {
    hide Reaches;
    ReachesNext(p, d, Pop(v));
    ReachesNext(p, d.(work := d.work - {v}, phase := Handling(v)), EndNode);
  }

  lemma MergeReached(p: Program, w: Wave, u: Wave, v: NodeId, r: NodeId, there: seq<NodeId>, back: seq<NodeId>)
    requires Reaches(p, Driver(w, {}, false, Merging)) && MergeInto(w, v, r) == u
    requires v != r && Rep(w.rep, v) == v && Rep(w.rep, r) == r
    requires IsPath(w.copy, there) && there[0] == v && there[|there| - 1] == r
    requires IsPath(w.copy, back) && back[0] == r && back[|back| - 1] == v
    ensures Reaches(p, Driver(u, {}, false, Merging))
  {
    hide Reaches, MergeInto;
    ReachesNext(p, Driver(w, {}, false, Merging), Act(Merge(v, r)));
    assert Push(w, u, Merge(v, r), {}) == {};
  }

  // ---------------------------------------------------------------- the program

  /** 4 = &1; 8 = &5; 9 = &7; 2 = *4; 6 = *2; *8 = 9; *4 = 3, where 3 is a copy of 8 or 2. */
  const LOSSY: Program := Program(
    {Arc(1, 4), Arc(5, 8), Arc(7, 9)}, {Arc(8, 3), Arc(2, 3)}, {Arc(4, 2), Arc(2, 6)}, {Arc(3, 4), Arc(9, 8)}, {})

  const P0: PtsMap := map[4 := {1}, 8 := {5}, 9 := {7}]

  lemma EnteredReached()
    ensures Reaches(LOSSY, Driver(Start(LOSSY).(pts := P0), {4, 8, 9}, false, Entering({})))
  {
    hide Reaches;
    ReachesBegin(LOSSY);
    var d := Begin(LOSSY);
    AddressReached(LOSSY, d, LOSSY.addrs, Arc(1, 4), map[4 := {1}]);
    assert LOSSY.addrs - {Arc(1, 4)} == {Arc(5, 8), Arc(7, 9)} && {} + {4} == {4};
    var d1 := Driver(Start(LOSSY).(pts := map[4 := {1}]), {4}, false, Entering({Arc(5, 8), Arc(7, 9)}));
    AddressReached(LOSSY, d1, {Arc(5, 8), Arc(7, 9)}, Arc(5, 8), map[4 := {1}, 8 := {5}]);
    var d2 := Driver(Start(LOSSY).(pts := map[4 := {1}, 8 := {5}]), {4, 8}, false, Entering({Arc(7, 9)}));
    assert {Arc(5, 8), Arc(7, 9)} - {Arc(5, 8)} == {Arc(7, 9)} && {4} + {8} == {4, 8};
    AddressReached(LOSSY, d2, {Arc(7, 9)}, Arc(7, 9), P0);
    assert {Arc(7, 9)} - {Arc(7, 9)} == {} && {4, 8} + {9} == {4, 8, 9};
  }

  const FIRST: seq<NodeId> := [8, 1, 2, 3, 4, 5, 6, 7, 9]

  lemma LossyNodes(x: NodeId)
    ensures x in Nodes(LOSSY) ==> 1 <= x <= 9
  {
  }

  /** An order is topological if the positions in it say so. */
  lemma ByPosition(p: Program, w: Wave, order: seq<NodeId>, at: map<NodeId, nat>)
    requires forall i :: 0 <= i < |order| ==> order[i] in at && at[order[i]] == i && Rep(w.rep, order[i]) == order[i]
    requires forall a :: a in w.copy ==> a.src in at && a.dst in at && at[a.src] < at[a.dst]
    requires forall x :: x in Nodes(p) && Rep(w.rep, x) == x ==> x in order
    ensures Topological(p, w, order)
  {
    hide Nodes, Rep;
  }

  lemma FirstOrder()
    ensures Topological(LOSSY, Start(LOSSY).(pts := P0), FIRST)
  {
    hide Nodes, Topological;
    forall x | x in Nodes(LOSSY)
      ensures x in FIRST
    {
      LossyNodes(x);
      assert FIRST == [8, 1, 2, 3, 4, 5, 6, 7, 9];
    }
    ByPosition(LOSSY, Start(LOSSY).(pts := P0), FIRST,
      map[8 := 0, 1 := 1, 2 := 2, 3 := 3, 4 := 4, 5 := 5, 6 := 6, 7 := 7, 9 := 8]);
  }

  const P1: PtsMap := map[4 := {1}, 8 := {5}, 9 := {7}, 3 := {5}]

  lemma FirstStarted()
    ensures Reaches(LOSSY, Driver(Start(LOSSY).(pts := P0), {4, 8, 9}, false, Sweeping(FIRST, 0)))
  {
    hide Reaches, Topological;
    EnteredReached();
    FirstOrder();
    var w := Start(LOSSY).(pts := P0);
    ReachesNext(LOSSY, Driver(w, {4, 8, 9}, false, Entering({})), StartRound);
    ReachesNext(LOSSY, Driver(w, {4, 8, 9}, false, Merging), Sweep(FIRST));
  }

  lemma FirstQuiet()
    ensures forall i :: 1 <= i < |FIRST| ==> Quiet(Start(LOSSY).(pts := P1, propa := map[8 := {5}]), FIRST[i])
  {
    var w := Start(LOSSY).(pts := P1, propa := map[8 := {5}]);
    forall v | v != 8
      ensures Quiet(w, v)
    {
      if v == 2 {
        assert Diff(w, 2) == {};
      }
    }
  }

  /** 8 hands 5 on to 3, and nobody else has anything to hand on. */
  lemma FirstSwept() returns (m: PtsMap)
    ensures Reaches(LOSSY, Driver(Start(LOSSY).(pts := P1, propa := m), {3, 4, 8, 9}, false, Popping))
    ensures forall x :: Get(m, x) == Get(P1, x)
  {
    hide Reaches, Quiet;
    FirstStarted();
    FirstHandedOn();
    FirstQuiet();
    var w := Start(LOSSY).(pts := P1, propa := map[8 := {5}]);
    m := SweepReached(LOSSY, Driver(w, {3, 4, 8, 9}, false, Sweeping(FIRST, 1)), FIRST, 1);
  }

  lemma EightFlows()
    ensures var w := Start(LOSSY).(pts := P0);
            Diff(w, 8) == {5} && FlowOut(w, 8, {5}) == P1
  {
    var w := Start(LOSSY).(pts := P0);
    assert (set a | a in w.copy && a.src == 8 :: a.dst) == {3} by {
      assert Arc(8, 3) in w.copy;
    }
    var f := FlowOut(w, 8, {5});
    assert f.Keys == P1.Keys;
    forall x | x in P1
      ensures f[x] == P1[x]
    {
      FlowOutAt(w, 8, {5}, x);
      assert Arc(8, x) in w.copy <==> x == 3;
      assert Get(P0, x) == if x == 3 then {} else P1[x];
    }
  }

  lemma ThreeChanges()
    ensures var w := Start(LOSSY).(pts := P0); Changed(w, w.(pts := P1, propa := map[8 := {5}])) == {3}
  {
    assert Get(P1, 3) == {5} && Get(P0, 3) == {};
    assert forall x :: x != 3 ==> Get(P1, x) == Get(P0, x);
  }

  lemma FirstHandedOn()
    requires Reaches(LOSSY, Driver(Start(LOSSY).(pts := P0), {4, 8, 9}, false, Sweeping(FIRST, 0)))
    ensures Reaches(LOSSY, Driver(Start(LOSSY).(pts := P1, propa := map[8 := {5}]), {3, 4, 8, 9}, false,
                      Sweeping(FIRST, 1)))
  {
    hide Reaches, FlowOut, Diff, Changed;
    var w := Start(LOSSY).(pts := P0);
    EightFlows();
    ThreeChanges();
    assert w.propa[8 := {5}] == map[8 := {5}] && Get(w.pts, 8) == {5};
    ReachesNext(LOSSY, Driver(w, {4, 8, 9}, false, Sweeping(FIRST, 0)), Act(Propagate(8)));
    assert {4, 8, 9} + {3} == {3, 4, 8, 9};
  }

  // ---------------------------------------------------------------- the loads and stores of the first round

  function Swept1(m: PtsMap): Wave {
    Start(LOSSY).(pts := P1, propa := m)
  }

  /** The load from 4 has linked 1 and 2, */
  function Loaded(m: PtsMap): Wave {
    Swept1(m).(pts := P1[2 := {}], copy := {Arc(8, 3), Arc(2, 3), Arc(1, 2)}, loaded := map[Arc(4, 2) := {1}])
  }

  /** the store to 4 has linked 3 and 1, which closes a cycle, */
  function Closed(m: PtsMap): Wave {
    Loaded(m).(pts := P1[2 := {}][1 := {5}], copy := {Arc(8, 3), Arc(2, 3), Arc(1, 2), Arc(3, 1)},
      stored := map[Arc(3, 4) := {1}])
  }

  /** and the store to 8 has linked 9 and 5. */
  function Stored(m: PtsMap): Wave {
    Closed(m).(pts := P1[2 := {}][1 := {5}][5 := {7}], copy := {Arc(8, 3), Arc(2, 3), Arc(1, 2), Arc(3, 1), Arc(9, 5)},
      stored := map[Arc(3, 4) := {1}, Arc(9, 8) := {5}])
  }

  lemma LoadDone(m: PtsMap)
    ensures Do(LOSSY, Swept1(m), LoadTarget(Arc(4, 2), 1)) == Loaded(m)
    ensures Changed(Swept1(m), Loaded(m)) == {}
  {
    assert {} + {1} == {1} && map[][Arc(4, 2) := {1}] == map[Arc(4, 2) := {1}];
    assert {Arc(8, 3), Arc(2, 3)} + {Arc(1, 2)} == Loaded(m).copy;
    assert Get(P1, 2) + Get(P1, 1) == {};
  }

  lemma FirstStoreDone(m: PtsMap)
    ensures Do(LOSSY, Loaded(m), StoreTarget(Arc(3, 4), 1)) == Closed(m)
    ensures Changed(Loaded(m), Closed(m)) == {1}
  {
    assert {} + {1} == {1} && {} + {5} == {5} && map[][Arc(3, 4) := {1}] == map[Arc(3, 4) := {1}];
    assert Loaded(m).copy + {Arc(3, 1)} == Closed(m).copy;
  }

  lemma SecondStoreDone(m: PtsMap)
    ensures Do(LOSSY, Closed(m), StoreTarget(Arc(9, 8), 5)) == Stored(m)
    ensures Changed(Closed(m), Stored(m)) == {5}
  {
    assert {} + {5} == {5} && {} + {7} == {7};
    assert Closed(m).stored[Arc(9, 8) := {5}] == Stored(m).stored;
    assert Closed(m).copy + {Arc(9, 5)} == Stored(m).copy;
  }

  lemma FourHandled() returns (m: PtsMap)
    ensures Reaches(LOSSY, Driver(Closed(m), {1, 3, 8, 9}, true, Popping))
    ensures forall x :: Get(m, x) == Get(P1, x)
  {
    hide Reaches, Do, Changed;
    m := FirstSwept();
    ReachesNext(LOSSY, Driver(Swept1(m), {3, 4, 8, 9}, false, Popping), Pop(4));
    assert {3, 4, 8, 9} - {4} == {3, 8, 9};
    LoadDone(m);
    TargetReached(LOSSY, Driver(Swept1(m), {3, 8, 9}, false, Handling(4)), LoadTarget(Arc(4, 2), 1), Loaded(m), {});
    assert {3, 8, 9} + {} == {3, 8, 9};
    FirstStoreDone(m);
    TargetReached(LOSSY, Driver(Loaded(m), {3, 8, 9}, true, Handling(4)), StoreTarget(Arc(3, 4), 1), Closed(m), {1});
    assert {3, 8, 9} + {1} == {1, 3, 8, 9};
    ReachesNext(LOSSY, Driver(Closed(m), {1, 3, 8, 9}, true, Handling(4)), EndNode);
  }

  lemma EightHandled() returns (m: PtsMap)
    ensures Reaches(LOSSY, Driver(Stored(m), {1, 3, 5, 9}, true, Popping))
    ensures forall x :: Get(m, x) == Get(P1, x)
  {
    hide Reaches, Do, Changed;
    m := FourHandled();
    ReachesNext(LOSSY, Driver(Closed(m), {1, 3, 8, 9}, true, Popping), Pop(8));
    assert {1, 3, 8, 9} - {8} == {1, 3, 9};
    SecondStoreDone(m);
    TargetReached(LOSSY, Driver(Closed(m), {1, 3, 9}, true, Handling(8)), StoreTarget(Arc(9, 8), 5), Stored(m), {5});
    assert {1, 3, 9} + {5} == {1, 3, 5, 9};
    ReachesNext(LOSSY, Driver(Stored(m), {1, 3, 5, 9}, true, Handling(8)), EndNode);
  }

  lemma FirstRoundOver() returns (m: PtsMap)
    ensures Reaches(LOSSY, Driver(Stored(m), {}, false, Merging))
    ensures forall x :: Get(m, x) == Get(P1, x)
  {
    hide Reaches;
    m := EightHandled();
    var w := Stored(m);
    IdleReached(LOSSY, Driver(w, {1, 3, 5, 9}, true, Popping), 9);
    assert {1, 3, 5, 9} - {9} == {1, 3, 5} && {1, 3, 5} - {3} == {1, 5} && {1, 5} - {1} == {5} && {5} - {5} == {};
    IdleReached(LOSSY, Driver(w, {1, 3, 5}, true, Popping), 3);
    IdleReached(LOSSY, Driver(w, {1, 5}, true, Popping), 1);
    IdleReached(LOSSY, Driver(w, {5}, true, Popping), 5);
    ReachesNext(LOSSY, Driver(w, {}, true, Popping), StartRound);
  }

  // ---------------------------------------------------------------- the merges of the second round

  function Merged(m: PtsMap, n: PtsMap): Wave {
    Wave(Stored(m).pts, n, map[2 := 1], {Arc(8, 3), Arc(1, 3), Arc(3, 1), Arc(9, 5)},
      {Arc(4, 1), Arc(1, 6)}, {Arc(3, 4), Arc(9, 8)}, map[], Stored(m).stored)
  }

  function Collapsed(m: PtsMap, n: PtsMap): Wave {
    Wave(Stored(m).pts, n, map[2 := 1, 3 := 1], {Arc(8, 1), Arc(9, 5)},
      {Arc(4, 1), Arc(1, 6)}, {Arc(1, 4), Arc(9, 8)}, map[], map[Arc(9, 8) := {5}])
  }

  lemma FirstMergeMaps(m: PtsMap, n: PtsMap)
    requires n == m[1 := Get(m, 1) * Get(m, 2)]
    ensures var u, v := MergeInto(Stored(m), 2, 1), Merged(m, n);
            u.pts == v.pts && u.propa == v.propa
  {
    hide RedirectCopies, RedirectAll, KeepHandled, Rep;
    assert {5} + {} == {5};
  }

  lemma FirstMergeReps(m: PtsMap, n: PtsMap)
    ensures MergeInto(Stored(m), 2, 1).rep == Merged(m, n).rep
  {
    hide RedirectCopies, RedirectAll, KeepHandled, AddTo;
  }

  lemma FirstMergeNotes(m: PtsMap, n: PtsMap)
    ensures var u, v := MergeInto(Stored(m), 2, 1), Merged(m, n);
            u.loaded == v.loaded && u.stored == v.stored
  {
    hide RedirectCopies, RedirectAll, AddTo, Rep;
  }

  lemma FirstMergeCopies(m: PtsMap)
    ensures RedirectCopies(2, 1, Stored(m).copy) == {Arc(8, 3), Arc(1, 3), Arc(3, 1), Arc(9, 5)}
  {
    assert Redirect(2, 1, Arc(8, 3)) == Arc(8, 3) && Redirect(2, 1, Arc(2, 3)) == Arc(1, 3);
    assert Redirect(2, 1, Arc(3, 1)) == Arc(3, 1) && Redirect(2, 1, Arc(9, 5)) == Arc(9, 5);
  }

  lemma FirstMergeLoads()
    ensures RedirectAll(2, 1, LOSSY.loads) == {Arc(4, 1), Arc(1, 6)}
    ensures RedirectAll(2, 1, LOSSY.stores) == {Arc(3, 4), Arc(9, 8)}
  {
    assert Redirect(2, 1, Arc(4, 2)) == Arc(4, 1) && Redirect(2, 1, Arc(2, 6)) == Arc(1, 6);
    assert Redirect(2, 1, Arc(3, 4)) == Arc(3, 4) && Redirect(2, 1, Arc(9, 8)) == Arc(9, 8);
  }

  lemma FirstMerge(m: PtsMap, n: PtsMap)
    requires n == m[1 := Get(m, 1) * Get(m, 2)]
    ensures MergeInto(Stored(m), 2, 1) == Merged(m, n)
  {
    hide RedirectCopies, RedirectAll, KeepHandled, AddTo, Rep;
    FirstMergeMaps(m, n);
    FirstMergeReps(m, n);
    FirstMergeNotes(m, n);
    FirstMergeCopies(m);
    FirstMergeLoads();
  }

  lemma SecondMergeMaps(m: PtsMap, n: PtsMap, k: PtsMap)
    requires k == n[1 := Get(n, 1) * Get(n, 3)]
    ensures var u, v := MergeInto(Merged(m, n), 3, 1), Collapsed(m, k);
            u.pts == v.pts && u.propa == v.propa
  {
    hide RedirectCopies, RedirectAll, KeepHandled, Rep;
    assert {5} + {5} == {5};
  }

  lemma SecondMergeReps(m: PtsMap, n: PtsMap, k: PtsMap)
    ensures MergeInto(Merged(m, n), 3, 1).rep == Collapsed(m, k).rep
  {
    hide RedirectCopies, RedirectAll, KeepHandled, AddTo;
  }

  lemma SecondMergeNotes(m: PtsMap, n: PtsMap, k: PtsMap)
    ensures var u, v := MergeInto(Merged(m, n), 3, 1), Collapsed(m, k);
            u.loaded == v.loaded && u.stored == v.stored
  {
    hide RedirectCopies, RedirectAll, AddTo, Rep;
  }

  lemma SecondMergeCopies(m: PtsMap, n: PtsMap)
    ensures RedirectCopies(3, 1, Merged(m, n).copy) == {Arc(8, 1), Arc(9, 5)}
  {
    assert Redirect(3, 1, Arc(8, 3)) == Arc(8, 1) && Redirect(3, 1, Arc(9, 5)) == Arc(9, 5);
  }

  lemma SecondMergeLoads(m: PtsMap, n: PtsMap)
    ensures RedirectAll(3, 1, Merged(m, n).load) == {Arc(4, 1), Arc(1, 6)}
    ensures RedirectAll(3, 1, Merged(m, n).store) == {Arc(1, 4), Arc(9, 8)}
  {
    assert Redirect(3, 1, Arc(4, 1)) == Arc(4, 1) && Redirect(3, 1, Arc(1, 6)) == Arc(1, 6);
    assert Redirect(3, 1, Arc(3, 4)) == Arc(1, 4) && Redirect(3, 1, Arc(9, 8)) == Arc(9, 8);
  }

  lemma SecondMerge(m: PtsMap, n: PtsMap, k: PtsMap)
    requires k == n[1 := Get(n, 1) * Get(n, 3)]
    ensures MergeInto(Merged(m, n), 3, 1) == Collapsed(m, k)
  {
    hide RedirectCopies, RedirectAll, KeepHandled, AddTo, Rep;
    SecondMergeMaps(m, n, k);
    SecondMergeReps(m, n, k);
    SecondMergeNotes(m, n, k);
    SecondMergeCopies(m, n);
    SecondMergeLoads(m, n);
  }

  lemma CollapsedReached() returns (m: PtsMap, k: PtsMap)
    ensures Reaches(LOSSY, Driver(Collapsed(m, k), {}, false, Merging))
    ensures Get(k, 1) == {} && forall x :: x != 1 ==> Get(k, x) == Get(P1, x)
  {
    hide Reaches, MergeInto;
    m := FirstRoundOver();
    var n := m[1 := Get(m, 1) * Get(m, 2)];
    FirstMerge(m, n);
    MergeReached(LOSSY, Stored(m), Merged(m, n), 2, 1, [2, 3, 1], [1, 2]);
    k := n[1 := Get(n, 1) * Get(n, 3)];
    SecondMerge(m, n, k);
    MergeReached(LOSSY, Merged(m, n), Collapsed(m, k), 3, 1, [3, 1], [1, 3]);
  }

  const SECOND: seq<NodeId> := [8, 9, 1, 4, 5, 6, 7]

  const PLACES: map<NodeId, nat> := map[8 := 0, 9 := 1, 1 := 2, 4 := 3, 5 := 4, 6 := 5, 7 := 6]

  lemma SecondPlaces(i: nat)
    requires i < |SECOND|
    ensures SECOND[i] in PLACES && PLACES[SECOND[i]] == i && SECOND[i] != 2 && SECOND[i] != 3
  {
  }

  lemma SecondOrder(m: PtsMap, k: PtsMap)
    ensures Topological(LOSSY, Collapsed(m, k), SECOND)
  {
    hide Nodes, Topological;
    forall x | x in Nodes(LOSSY) && x != 2 && x != 3
      ensures x in SECOND
    {
      LossyNodes(x);
      assert SECOND == [8, 9, 1, 4, 5, 6, 7];
    }
    forall i | 0 <= i < |SECOND|
      ensures SECOND[i] in PLACES && PLACES[SECOND[i]] == i && Rep(Collapsed(m, k).rep, SECOND[i]) == SECOND[i]
    {
      SecondPlaces(i);
    }
    ByPosition(LOSSY, Collapsed(m, k), SECOND, PLACES);
  }

  lemma SecondQuiet(m: PtsMap, k: PtsMap)
    requires forall x :: x != 1 ==> Get(k, x) == Get(P1, x)
    ensures forall i :: 0 <= i < |SECOND| ==> Quiet(Collapsed(m, k), SECOND[i])
  {
    var w := Collapsed(m, k);
    forall v | v in {1, 4, 5, 6, 7}
      ensures Quiet(w, v)
    {
    }
    assert Diff(w, 8) == {} && Diff(w, 9) == {};
  }

  /** In the second round, nothing is left to hand on along an edge, and nothing is in the worklist. */
  lemma SecondRoundOver() returns (d: Driver)
    ensures Reaches(LOSSY, d) && Stopped(d)
    ensures exists m, k :: d.wave == Collapsed(m, k)
  {
    hide Reaches, Topological;
    var m, k := CollapsedReached();
    var w := Collapsed(m, k);
    SecondOrder(m, k);
    ReachesNext(LOSSY, Driver(w, {}, false, Merging), Sweep(SECOND));
    SecondQuiet(m, k);
    var q := SweepReached(LOSSY, Driver(w, {}, false, Sweeping(SECOND, 0)), SECOND, 0);
    d := Driver(Collapsed(m, q), {}, false, Popping);
    assert w.(propa := q) == Collapsed(m, q);
  }

  /** The driver can stop with a load that was never carried out: the first round has put 5 into 3 and 1,
      the second merges both with 2 without putting anything into the worklist, and so the load
      from 2 never gets to know about 5. */
  lemma MergeCanLoseWork()
    ensures exists d :: Reaches(LOSSY, d) && Stopped(d) && !Solves(LOSSY, Answer(d.wave))
  {
    hide Reaches;
    var d := SecondRoundOver();
    LoadForgotten(d.wave);
  }

  lemma LoadForgotten(w: Wave)
    requires exists m, k :: w == Collapsed(m, k)
    ensures !Solves(LOSSY, Answer(w))
  {
    var answer := Answer(w);
    AnswerAt(w, 2);
    AnswerAt(w, 5);
    AnswerAt(w, 6);
    assert 5 in Get(answer, 2) && 7 in Get(answer, 5) && 7 !in Get(answer, 6);
    assert !LoadHolds(LOSSY, answer, Arc(2, 6));
  }
}
