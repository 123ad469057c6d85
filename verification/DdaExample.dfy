/** A program on which a strong update decides: `p = &a; q = &b; r = &c; *p = r; *p = q; x = *p`. */
module DdaExample {
  import opened DdaBudget
  import opened DdaQueries
  import opened DdaSolver
  import opened Progress
  import opened Svfg

  const P: NodeId := 0
  const Q: NodeId := 1
  const R: NodeId := 2
  const X: NodeId := 3
  const A: NodeId := 4
  const B: NodeId := 5
  const C: NodeId := 6

  const STMTS: map<LocId, Stmt> :=
    map[0 := Addr(P, A), 1 := Addr(Q, B), 2 := Addr(R, C), 3 := Store(P, R), 4 := Store(P, Q), 5 := Load(X, P)]

  const EDGES: set<Edge> := {
    Direct(0, 3), Direct(2, 3), Direct(0, 4), Direct(1, 4), Direct(0, 5), Indirect(3, 4, {A}), Indirect(4, 5, {A})}

  const PROGRAM: Graph := Graph({P, Q, R, X, A, B, C}, STMTS, map[P := 0, Q := 1, R := 2, X := 5], EDGES, {}, {})

  /** What an analysis without an order of statements finds. */
  const ANDER: Conservative := map[P := {A}, Q := {B}, R := {C}, X := {B, C}, A := {B, C}]

  /** The exact values: after the second store, `a` holds the address of `b` alone. */
  const EXACT: Assignment := map[
    Item(P, 0) := {A}, Item(Q, 1) := {B}, Item(R, 2) := {C}, Item(A, 3) := {C}, Item(A, 4) := {B}, Item(X, 5) := {B}]

  lemma ProgramWellFormed()
    ensures WellFormed(PROGRAM)
  {
    forall e | e in EDGES
      ensures WellFormedEdge(PROGRAM, e)
    {
    }
    forall n | n in STMTS
      ensures WellFormedStmt(PROGRAM, n)
    {
    }
  }

  /** What flows into an object at a statement comes along the one indirect edge, if there is one. */
  lemma Inflow(x: Assignment, n: LocId, o: NodeId)
    ensures n == 4 && o == A ==> IndirectFlow(PROGRAM, x, n, o) == At(x, Item(A, 3))
    ensures n == 5 && o == A ==> IndirectFlow(PROGRAM, x, n, o) == At(x, Item(A, 4))
    ensures n == 3 || o != A ==> IndirectFlow(PROGRAM, x, n, o) == {}
  {
    if n == 4 && o == A {
      IndirectPiece(PROGRAM, x, Indirect(3, 4, {A}), n, o);
    }
    if n == 5 && o == A {
      IndirectPiece(PROGRAM, x, Indirect(4, 5, {A}), n, o);
    }
  }

  lemma ObjectIsStrong()
    ensures StrongUpdate(PROGRAM, {A}) && !PassesThrough(PROGRAM, {A}, A)
  {
    assert A in {A} && A !in PROGRAM.weak;
  }

  /** In `x`, `p` points to `a`, and the values that are stored and loaded are passed on. */
  ghost predicate PassedOn(x: Assignment) {
    && At(x, Item(P, 0)) == {A} && B in At(x, Item(Q, 1)) && C in At(x, Item(R, 2))
    && At(x, Item(R, 2)) <= At(x, Item(A, 3)) && At(x, Item(Q, 1)) <= At(x, Item(A, 4)) <= At(x, Item(X, 5))
  }

  lemma StoresSolved(x: Assignment, d: Item)
    requires PassedOn(x) && IsItem(PROGRAM, d) && 3 <= d.loc <= 4
    ensures Flow(PROGRAM, x, d) <= At(x, d)
  {
    hide IndirectFlow, StrongUpdate, PassesThrough;
    ObjectIsStrong();
    Inflow(x, d.loc, d.cur);
  }

  lemma LoadSolved(x: Assignment)
    requires PassedOn(x)
    ensures Flow(PROGRAM, x, Item(X, 5)) <= At(x, Item(X, 5))
  {
    hide IndirectFlow;
    Inflow(x, 5, A);
    assert LoadFlow(PROGRAM, x, 5, P) <= At(x, Item(A, 4));
  }

  lemma SolvesIf(x: Assignment)
    requires PassedOn(x)
    ensures Solves(PROGRAM, ANDER, {}, x)
  {
    hide IndirectFlow, StoreFlow, LoadFlow;
    forall d | IsItem(PROGRAM, d)
      ensures Required(PROGRAM, ANDER, {}, x, d) <= At(x, d)
    {
      if 3 <= d.loc <= 4 {
        StoresSolved(x, d);
      } else if d.loc == 5 {
        LoadSolved(x);
      }
    }
  }

  lemma ConservativeIsSound()
    ensures Sound(PROGRAM, ANDER)
  {
    var f := FallbackAssignment(PROGRAM, ANDER);
    ItemsComplete(PROGRAM, Item(P, 0));
    ItemsComplete(PROGRAM, Item(Q, 1));
    ItemsComplete(PROGRAM, Item(R, 2));
    ItemsComplete(PROGRAM, Item(A, 3));
    ItemsComplete(PROGRAM, Item(A, 4));
    ItemsComplete(PROGRAM, Item(X, 5));
    SolvesIf(f);
  }

  /** The least solution has the strong update: `x` gets the address of `b` and not that of `c`. */
  lemma LeastHasB()
    requires WellFormed(PROGRAM) && InRange(PROGRAM, ANDER)
    ensures At(Least(PROGRAM, ANDER, {}), Item(X, 5)) == {B}
  {
    hide WellFormed, InRange, Solves, Least, Items, IsItem;
    var l := Least(PROGRAM, ANDER, {});
    SolvesIf(EXACT);
    LeastBelow(PROGRAM, ANDER, {}, EXACT);
    LeastSolves(PROGRAM, ANDER, {});
    LeastContains(l);
    assert At(EXACT, Item(X, 5)) == {B};
  }

  lemma LeastContains(l: Assignment)
    requires Solves(PROGRAM, ANDER, {}, l)
    ensures B in At(l, Item(X, 5))
  {
    assert A in Required(PROGRAM, ANDER, {}, l, Item(P, 0));
    assert B in Required(PROGRAM, ANDER, {}, l, Item(Q, 1));
    assert B in Required(PROGRAM, ANDER, {}, l, Item(A, 4));
    Inflow(l, 5, A);
    assert B in Required(PROGRAM, ANDER, {}, l, Item(X, 5));
  }

  lemma Answers()
    ensures WellFormed(PROGRAM) && Sound(PROGRAM, ANDER)
    ensures IsItem(PROGRAM, Item(X, 5)) && STMTS[5].TopLevel()
    ensures At(Least(PROGRAM, ANDER, {}), Item(X, 5)) == {B}
    ensures At(Least(PROGRAM, ANDER, {} + {Item(X, 5)}), Item(X, 5)) == {B, C}
  {
    ProgramWellFormed();
    ConservativeIsSound();
    SoundInRange(PROGRAM, ANDER);
    LeastHasB();
    var given: set<Item> := {} + {Item(X, 5)};
    FallbackBounds(PROGRAM, ANDER, given, Item(X, 5));
  }

  /** Asks a new solver what `x` may point to. */
  method AskForX(maxBudget: nat) returns (pts: set<NodeId>, exact: bool)
    ensures pts == if exact then {B} else {B, C}
    ensures Enough(PROGRAM) <= maxBudget ==> exact
  {
    hide WellFormed, Sound, Proper, Resting, CachesHold, IndexHolds, LoadsHold, Least, Flow, Items, IsItem, Enough;
    Answers();
    var solver := new Solver(PROGRAM, ANDER, maxBudget);
    pts := solver.ComputePts(Item(X, 5));
    exact := !solver.outOfBudgetQuery;
    assert solver.now.givenUp == if exact then {} else {} + {Item(X, 5)};
  }
}
