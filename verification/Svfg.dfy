/** The sparse value-flow graph that the demand-driven solver walks, the equation
    of each statement on it, and the least solution of those equations. */
module Svfg {

  /** Variables and objects share one identifier space. */
  type NodeId = nat

  /** Identifier of a statement of the graph. */
  type LocId = nat

  datatype Stmt =
    | Addr(lhs: NodeId, obj: NodeId)
    | Copy(lhs: NodeId)
    | Gep(lhs: NodeId, field: map<NodeId, NodeId>)
    | Load(lhs: NodeId, ptr: NodeId)
    | Store(ptr: NodeId, value: NodeId)
    | MemRegion
  {
    predicate TopLevel() {
      !Store? && !MemRegion?
    }
  }

  datatype Edge =
    | Direct(src: LocId, dst: LocId)
    | Indirect(src: LocId, dst: LocId, guard: set<NodeId>)

  /** What a query asks for: the variable or object `cur` as seen at statement `loc`. */
  datatype Item = Item(cur: NodeId, loc: LocId)

  /** A value for every item; an item that is absent has the empty set. */
  type Assignment = map<Item, set<NodeId>>

  /** `untracked` are the constant and the non-pointer objects; `weak` are the objects that
      never take a strong update: heap, array, field-insensitive and recursive locals. */
  datatype Graph = Graph(
    ids: set<NodeId>,
    stmts: map<LocId, Stmt>,
    def: map<NodeId, LocId>,
    edges: set<Edge>,
    untracked: set<NodeId>,
    weak: set<NodeId>)

  function At(x: Assignment, d: Item): set<NodeId> {
    if d in x then x[d] else {}
  }

  ghost predicate Below(x: Assignment, y: Assignment) {
    forall d :: d in x ==> x[d] <= At(y, d)
  }

  /** Pointer `v` is defined by a top-level statement with a direct edge to `n`. */
  ghost predicate DefinedFor(g: Graph, v: NodeId, n: LocId) {
    && v in g.def
    && g.def[v] in g.stmts
    && g.stmts[g.def[v]].TopLevel()
    && g.stmts[g.def[v]].lhs == v
    && Direct(g.def[v], n) in g.edges
  }

  ghost predicate WellFormedEdge(g: Graph, e: Edge) {
    && e.src in g.stmts
    && e.dst in g.stmts
    && (e.Direct? <==> g.stmts[e.src].TopLevel())
    && (e.Indirect? ==> e.guard <= g.ids)
  }

  ghost predicate WellFormedStmt(g: Graph, n: LocId)
    requires n in g.stmts
  {
    var s := g.stmts[n];
    && (s.TopLevel() ==> s.lhs in g.ids)
    && (s.Addr? ==> s.obj in g.ids)
    && (s.Gep? ==> forall o :: o in s.field ==> s.field[o] in g.ids)
    && (s.Load? ==> DefinedFor(g, s.ptr, n))
    && (s.Store? ==> DefinedFor(g, s.ptr, n) && DefinedFor(g, s.value, n))
  }

  /** What the construction of the graph guarantees: definitions are unique, a direct edge
      leaves a top-level statement and an indirect edge a store or a memory region. */
  ghost predicate WellFormed(g: Graph) {
    && (forall e {:trigger WellFormedEdge(g, e)} :: e in g.edges ==> WellFormedEdge(g, e))
    && (forall n {:trigger WellFormedStmt(g, n)} :: n in g.stmts ==> WellFormedStmt(g, n))
  }

  predicate IsItem(g: Graph, d: Item) {
    && d.loc in g.stmts
    && d.cur in g.ids
    && (g.stmts[d.loc].TopLevel() ==> d.cur == g.stmts[d.loc].lhs)
  }

  ghost function Items(g: Graph): set<Item> {
    set n, v | n in g.stmts && v in g.ids && IsItem(g, Item(v, n)) :: Item(v, n)
  }

  /** The item of the pointer that a top-level statement defines. */
  function TopItem(g: Graph, n: LocId): Item {
    Item(if n in g.stmts && g.stmts[n].TopLevel() then g.stmts[n].lhs else 0, n)
  }

  /** The item of a pointer at its definition. */
  function DefItem(g: Graph, v: NodeId): Item {
    Item(v, if v in g.def then g.def[v] else 0)
  }

  /** A changed value of `y` may matter to `d`: the walk along out-edges reaches `d` from `y`. */
  predicate FeedsAlong(g: Graph, e: Edge, y: Item, d: Item)
    requires d.loc in g.stmts
  {
    && e.src == y.loc
    && e.dst == d.loc
    && (e.Indirect? && !g.stmts[d.loc].Load? ==> d.cur == y.cur)
  }

  ghost predicate Feeds(g: Graph, y: Item, d: Item)
    requires d.loc in g.stmts
  {
    exists e :: e in g.edges && FeedsAlong(g, e, y, d)
  }

  // ---------------------------------------------------------------- equations

  ghost function DirectFlow(g: Graph, x: Assignment, n: LocId): set<NodeId> {
    set e, t | e in g.edges && e.Direct? && e.dst == n && t in At(x, TopItem(g, e.src)) :: t
  }

  ghost function IndirectFlow(g: Graph, x: Assignment, n: LocId, o: NodeId): set<NodeId> {
    if o in g.untracked then {}
    else set e, t | e in g.edges && e.Indirect? && e.dst == n && o in e.guard && t in At(x, Item(o, e.src)) :: t
  }

  function FieldOf(field: map<NodeId, NodeId>, o: NodeId): NodeId {
    if o in field then field[o] else o
  }

  function GepPts(field: map<NodeId, NodeId>, pts: set<NodeId>): set<NodeId> {
    set o | o in pts :: FieldOf(field, o)
  }

  /** A store overwrites its only target if that target stands for one concrete object. */
  predicate StrongUpdate(g: Graph, targets: set<NodeId>) {
    exists o :: o in targets && targets == {o} && o !in g.weak
  }

  /** The old contents of `o` survive a store through a pointer to `targets`. */
  predicate PassesThrough(g: Graph, targets: set<NodeId>, o: NodeId) {
    targets != {} && !(o in targets && StrongUpdate(g, targets))
  }

  ghost function StoreFlow(g: Graph, x: Assignment, d: Item, p: NodeId, q: NodeId): set<NodeId> {
    var targets := At(x, DefItem(g, p));
    (if d.cur in targets then At(x, DefItem(g, q)) else {})
    + (if PassesThrough(g, targets, d.cur) then IndirectFlow(g, x, d.loc, d.cur) else {})
  }

  ghost function LoadFlow(g: Graph, x: Assignment, n: LocId, p: NodeId): set<NodeId> {
    set o, t | o in At(x, DefItem(g, p)) && t in IndirectFlow(g, x, n, o) :: t
  }

  /** The right-hand side of the equation of item `d`. */
  ghost function Flow(g: Graph, x: Assignment, d: Item): set<NodeId>
    requires d.loc in g.stmts
  {
    match g.stmts[d.loc]
    case Addr(_, o) => {o}
    case Copy(_) => DirectFlow(g, x, d.loc)
    case Gep(_, field) => GepPts(field, DirectFlow(g, x, d.loc))
    case Load(_, p) => LoadFlow(g, x, d.loc, p)
    case Store(p, q) => StoreFlow(g, x, d, p, q)
    case MemRegion => IndirectFlow(g, x, d.loc, d.cur)
  }

  /** One edge at a time: a piece of the flow into `n` ... */
  lemma DirectPiece(g: Graph, x: Assignment, e: Edge, n: LocId)
    requires e in g.edges && e.Direct? && e.dst == n
    ensures At(x, TopItem(g, e.src)) <= DirectFlow(g, x, n)
  {
  }

  /** ... and all of it. */
  lemma DirectPieces(g: Graph, x: Assignment, n: LocId, bound: set<NodeId>)
    requires forall e :: e in g.edges && e.Direct? && e.dst == n ==> At(x, TopItem(g, e.src)) <= bound
    ensures DirectFlow(g, x, n) <= bound
  {
  }

  lemma IndirectPiece(g: Graph, x: Assignment, e: Edge, n: LocId, o: NodeId)
    requires e in g.edges && e.Indirect? && e.dst == n && o in e.guard && o !in g.untracked
    ensures At(x, Item(o, e.src)) <= IndirectFlow(g, x, n, o)
  {
  }

  lemma IndirectUntracked(g: Graph, x: Assignment, n: LocId, o: NodeId)
    requires o in g.untracked
    ensures IndirectFlow(g, x, n, o) == {}
  {
  }

  lemma IndirectPieces(g: Graph, x: Assignment, n: LocId, o: NodeId, bound: set<NodeId>)
    requires forall e :: e in g.edges && e.Indirect? && e.dst == n && o in e.guard ==>
               At(x, Item(o, e.src)) <= bound
    ensures IndirectFlow(g, x, n, o) <= bound
  {
  }

  // ---------------------------------------------------------------- monotonicity

  /** `y` is at least `x` on every item whose change the solver would propagate to `d`. */
  ghost predicate BelowOnFeeders(g: Graph, x: Assignment, y: Assignment, d: Item)
    requires d.loc in g.stmts
  {
    forall f :: IsItem(g, f) && Feeds(g, f, d) ==> At(x, f) <= At(y, f)
  }

  lemma DirectFeeds(g: Graph, e: Edge, d: Item)
    requires WellFormed(g) && d.loc in g.stmts && e in g.edges && e.Direct? && e.dst == d.loc
    ensures IsItem(g, TopItem(g, e.src)) && FeedsAlong(g, e, TopItem(g, e.src), d)
    ensures Feeds(g, TopItem(g, e.src), d)
  {
    assert WellFormedEdge(g, e) && WellFormedStmt(g, e.src);
    assert FeedsAlong(g, e, TopItem(g, e.src), d);
  }

  lemma IndirectFeeds(g: Graph, e: Edge, o: NodeId, d: Item)
    requires WellFormed(g) && d.loc in g.stmts && e in g.edges && e.Indirect? && e.dst == d.loc
    requires o in e.guard && (g.stmts[d.loc].Load? || o == d.cur)
    ensures IsItem(g, Item(o, e.src)) && FeedsAlong(g, e, Item(o, e.src), d)
    ensures Feeds(g, Item(o, e.src), d)
  {
    assert WellFormedEdge(g, e);
    assert FeedsAlong(g, e, Item(o, e.src), d);
  }

  lemma DirectFlowMonotone(g: Graph, x: Assignment, y: Assignment, d: Item)
    requires WellFormed(g) && IsItem(g, d) && BelowOnFeeders(g, x, y, d)
    ensures DirectFlow(g, x, d.loc) <= DirectFlow(g, y, d.loc)
  {
    forall e | e in g.edges && e.Direct? && e.dst == d.loc
      ensures At(x, TopItem(g, e.src)) <= At(y, TopItem(g, e.src))
    {
      DirectFeeds(g, e, d);
    }
  }

  lemma IndirectFlowMonotone(g: Graph, x: Assignment, y: Assignment, d: Item, o: NodeId)
    requires WellFormed(g) && IsItem(g, d) && BelowOnFeeders(g, x, y, d)
    requires g.stmts[d.loc].Load? || o == d.cur
    ensures IndirectFlow(g, x, d.loc, o) <= IndirectFlow(g, y, d.loc, o)
  {
    forall e | e in g.edges && e.Indirect? && e.dst == d.loc && o in e.guard
      ensures At(x, Item(o, e.src)) <= At(y, Item(o, e.src))
    {
      IndirectFeeds(g, e, o, d);
    }
  }

  lemma OperandFeeds(g: Graph, d: Item, v: NodeId)
    requires WellFormed(g) && d.loc in g.stmts && DefinedFor(g, v, d.loc)
    ensures IsItem(g, DefItem(g, v)) && Feeds(g, DefItem(g, v), d)
  {
    assert WellFormedStmt(g, g.def[v]);
    assert FeedsAlong(g, Direct(g.def[v], d.loc), DefItem(g, v), d);
  }

  /** Once the old contents pass through, they pass through for every larger target set; and a
      larger target set that stops them must write the new contents to the same object. */
  lemma StoreRuleMonotone(g: Graph, small: set<NodeId>, large: set<NodeId>, o: NodeId)
    requires small <= large
    ensures PassesThrough(g, small, o) ==> PassesThrough(g, large, o)
    ensures o in small ==> o in large
  {
    if small != {} && StrongUpdate(g, large) {
      assert small == large;
    }
  }

  /** The equation of `d` is monotone, and only in the items the solver propagates to it. */
  lemma FlowMonotone(g: Graph, x: Assignment, y: Assignment, d: Item)
    requires WellFormed(g) && IsItem(g, d) && BelowOnFeeders(g, x, y, d)
    ensures Flow(g, x, d) <= Flow(g, y, d)
  {
    assert WellFormedStmt(g, d.loc);
    match g.stmts[d.loc]
    case Addr(_, _) =>
    case Copy(_) =>
      DirectFlowMonotone(g, x, y, d);
    case Gep(_, field) =>
      DirectFlowMonotone(g, x, y, d);
    case Load(_, p) =>
      OperandFeeds(g, d, p);
      forall o | o in At(x, DefItem(g, p))
        ensures IndirectFlow(g, x, d.loc, o) <= IndirectFlow(g, y, d.loc, o)
      {
        IndirectFlowMonotone(g, x, y, d, o);
      }
    case Store(p, q) =>
      OperandFeeds(g, d, p);
      OperandFeeds(g, d, q);
      StoreRuleMonotone(g, At(x, DefItem(g, p)), At(y, DefItem(g, p)), d.cur);
      IndirectFlowMonotone(g, x, y, d, d.cur);
    case MemRegion =>
      IndirectFlowMonotone(g, x, y, d, d.cur);
  }

  lemma FlowBounded(g: Graph, x: Assignment, d: Item)
    requires WellFormed(g) && IsItem(g, d)
    requires forall f :: f in x ==> x[f] <= g.ids
    ensures Flow(g, x, d) <= g.ids
  {
    assert WellFormedStmt(g, d.loc);
  }

  // ---------------------------------------------------------------- least solution

  /** Conservative points-to sets of a whole-program analysis, by variable. */
  type Conservative = map<NodeId, set<NodeId>>

  function Fallback(ander: Conservative, d: Item): set<NodeId> {
    if d.cur in ander then ander[d.cur] else {}
  }

  /** What the value of `d` has to contain: its equation, or, once the solver has given up on
      `d`, the conservative set. */
  ghost function Required(g: Graph, ander: Conservative, givenUp: set<Item>, x: Assignment, d: Item): set<NodeId>
    requires d.loc in g.stmts
  {
    if d in givenUp then Fallback(ander, d) else Flow(g, x, d)
  }

  ghost predicate Solves(g: Graph, ander: Conservative, givenUp: set<Item>, x: Assignment) {
    forall d {:trigger Required(g, ander, givenUp, x, d)} ::
      IsItem(g, d) ==> Required(g, ander, givenUp, x, d) <= At(x, d)
  }

  /** The intersection of all solutions. */
  ghost function Least(g: Graph, ander: Conservative, givenUp: set<Item>): Assignment {
    map d | d in Items(g) ::
      set o | o in g.ids && forall x: Assignment :: Solves(g, ander, givenUp, x) ==> o in At(x, d)
  }

  lemma LeastBelow(g: Graph, ander: Conservative, givenUp: set<Item>, x: Assignment)
    requires WellFormed(g) && Solves(g, ander, givenUp, x)
    ensures Below(Least(g, ander, givenUp), x)
  {
  }

  lemma ItemsComplete(g: Graph, d: Item)
    ensures IsItem(g, d) <==> d in Items(g)
  {
    if IsItem(g, d) {
      assert d == Item(d.cur, d.loc);
    }
  }

  /** The conservative analysis speaks of the objects of the graph only. */
  ghost predicate InRange(g: Graph, ander: Conservative) {
    forall v :: v in ander ==> ander[v] <= g.ids
  }

  /** The intersection of all solutions is itself a solution. */
  lemma {:induction false} LeastSolves(g: Graph, ander: Conservative, givenUp: set<Item>)
    requires WellFormed(g) && InRange(g, ander)
    ensures Solves(g, ander, givenUp, Least(g, ander, givenUp))
  {
    var l := Least(g, ander, givenUp);
    forall d | IsItem(g, d)
      ensures Required(g, ander, givenUp, l, d) <= At(l, d)
    {
      ItemsComplete(g, d);
      FlowBounded(g, l, d);
      forall x: Assignment, o | Solves(g, ander, givenUp, x) && o in Required(g, ander, givenUp, l, d)
        ensures o in At(x, d)
      {
        assert Required(g, ander, givenUp, x, d) <= At(x, d);
        LeastBelow(g, ander, givenUp, x);
        FlowMonotone(g, l, x, d);
      }
    }
  }

  /** The conservative analysis read as an assignment of items. */
  ghost function FallbackAssignment(g: Graph, ander: Conservative): Assignment {
    map d | d in Items(g) :: Fallback(ander, d)
  }

  /** The conservative analysis over-approximates every equation, as a flow-insensitive
      solution of the same program does. */
  ghost predicate Sound(g: Graph, ander: Conservative) {
    InRange(g, ander) && Solves(g, ander, {}, FallbackAssignment(g, ander))
  }

  lemma SoundInRange(g: Graph, ander: Conservative)
    requires Sound(g, ander)
    ensures InRange(g, ander)
  {
  }

  lemma FallbackSolves(g: Graph, ander: Conservative, givenUp: set<Item>)
    requires WellFormed(g) && Sound(g, ander)
    ensures Solves(g, ander, givenUp, FallbackAssignment(g, ander))
  {
    forall d | IsItem(g, d)
      ensures Required(g, ander, givenUp, FallbackAssignment(g, ander), d)
           <= At(FallbackAssignment(g, ander), d)
    {
      ItemsComplete(g, d);
      assert Required(g, ander, {}, FallbackAssignment(g, ander), d) <= At(FallbackAssignment(g, ander), d);
    }
  }

  ghost function Meet(g: Graph, x: Assignment, y: Assignment): Assignment {
    map d | d in Items(g) :: At(x, d) * At(y, d)
  }

  /** Giving up on more items can only make the least solution larger. */
  lemma {:induction false} LeastGrows(g: Graph, ander: Conservative, few: set<Item>, many: set<Item>)
    requires WellFormed(g) && Sound(g, ander) && few <= many
    ensures Below(Least(g, ander, few), Least(g, ander, many))
  {
    var a := FallbackAssignment(g, ander);
    FallbackSolves(g, ander, few);
    forall x: Assignment | Solves(g, ander, many, x)
      ensures Below(Least(g, ander, few), x)
    {
      var m := Meet(g, x, a);
      forall d | IsItem(g, d)
        ensures Required(g, ander, few, m, d) <= At(m, d)
      {
        ItemsComplete(g, d);
        assert Required(g, ander, many, x, d) <= At(x, d);
        assert Required(g, ander, few, a, d) <= At(a, d);
        assert Required(g, ander, {}, a, d) <= At(a, d);
        MeetOnFeeders(g, x, a, d);
        FlowMonotone(g, m, x, d);
        FlowMonotone(g, m, a, d);
      }
      LeastBelow(g, ander, few, m);
    }
  }

  lemma MeetOnFeeders(g: Graph, x: Assignment, y: Assignment, d: Item)
    requires WellFormed(g) && IsItem(g, d)
    ensures BelowOnFeeders(g, Meet(g, x, y), x, d)
    ensures BelowOnFeeders(g, Meet(g, x, y), y, d)
  {
    forall f | IsItem(g, f)
      ensures At(Meet(g, x, y), f) == At(x, f) * At(y, f)
    {
      ItemsComplete(g, f);
    }
  }
}
