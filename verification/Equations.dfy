/** What the least solution holds at each kind of statement, spelled out. */
module Equations {
  import opened Svfg

  /** The least solution solves every equation exactly. */
  lemma {:induction false} LeastIsExact(g: Graph, ander: Conservative, givenUp: set<Item>, d: Item)
    requires WellFormed(g) && InRange(g, ander) && IsItem(g, d)
    ensures At(Least(g, ander, givenUp), d) == Required(g, ander, givenUp, Least(g, ander, givenUp), d)
  {
    hide WellFormed, Flow, Fallback;
    var l := Least(g, ander, givenUp);
    LeastSolves(g, ander, givenUp);
    var x := map f | f in Items(g) && f.loc in g.stmts :: Required(g, ander, givenUp, l, f);
    forall f | IsItem(g, f)
      ensures f in x && At(x, f) <= At(l, f)
    {
      ItemsComplete(g, f);
      assert Required(g, ander, givenUp, l, f) <= At(l, f);
    }
    forall f | IsItem(g, f)
      ensures Required(g, ander, givenUp, x, f) <= At(x, f)
    {
      FlowMonotone(g, x, l, f);
    }
    LeastBelow(g, ander, givenUp, x);
    ItemsComplete(g, d);
    assert Required(g, ander, givenUp, l, d) <= At(l, d);
  }

  /** An item that was given up holds the conservative set of its variable or object, whatever its statement. */
  lemma GivenUpValue(g: Graph, ander: Conservative, givenUp: set<Item>, d: Item)
    requires WellFormed(g) && InRange(g, ander) && IsItem(g, d) && d in givenUp
    ensures d.cur in ander ==> At(Least(g, ander, givenUp), d) == ander[d.cur]
    ensures d.cur !in ander ==> At(Least(g, ander, givenUp), d) == {}
  {
    hide WellFormed, Least, Flow;
    LeastIsExact(g, ander, givenUp, d);
  }

  /** `t` comes to statement `n` along a direct edge, from the pointer that the statement before defines. */
  ghost predicate ComesDirect(g: Graph, x: Assignment, n: LocId, t: NodeId) {
    exists e :: e in g.edges && e.Direct? && e.dst == n && e.src in g.stmts && g.stmts[e.src].TopLevel() &&
                t in At(x, Item(g.stmts[e.src].lhs, e.src))
  }

  /** `t` comes to statement `n` as a content of the tracked object `o`. */
  ghost predicate ComesIn(g: Graph, x: Assignment, n: LocId, o: NodeId, t: NodeId) {
    o !in g.untracked &&
    exists e :: e in g.edges && e.Indirect? && e.dst == n && o in e.guard && t in At(x, Item(o, e.src))
  }

  lemma DirectIff(g: Graph, x: Assignment, n: LocId, t: NodeId)
    requires WellFormed(g)
    ensures t in DirectFlow(g, x, n) <==> ComesDirect(g, x, n, t)
  {
    forall e | e in g.edges && e.Direct?
      ensures e.src in g.stmts && g.stmts[e.src].TopLevel()
      ensures TopItem(g, e.src) == Item(g.stmts[e.src].lhs, e.src)
    {
      assert WellFormedEdge(g, e);
    }
  }

  lemma IndirectIff(g: Graph, x: Assignment, n: LocId, o: NodeId, t: NodeId)
    ensures t in IndirectFlow(g, x, n, o) <==> ComesIn(g, x, n, o, t)
  {
  }

  /** The address of an object, a copy, the field of what comes in, a join of memory. */
  lemma PlainValues(g: Graph, ander: Conservative, givenUp: set<Item>, d: Item, t: NodeId)
    requires WellFormed(g) && InRange(g, ander) && IsItem(g, d) && d !in givenUp
    ensures var s, x := g.stmts[d.loc], Least(g, ander, givenUp);
            && (s.Addr? ==> (t in At(x, d) <==> t == s.obj))
            && (s.Copy? ==> (t in At(x, d) <==> ComesDirect(g, x, d.loc, t)))
            && (s.Gep? ==> (t in At(x, d) <==>
                  exists o :: ComesDirect(g, x, d.loc, o) && t == if o in s.field then s.field[o] else o))
            && (s.MemRegion? ==> (t in At(x, d) <==> ComesIn(g, x, d.loc, d.cur, t)))
  {
    hide WellFormed, Least, DirectFlow, IndirectFlow, ComesDirect, ComesIn;
    var x := Least(g, ander, givenUp);
    LeastIsExact(g, ander, givenUp, d);
    forall o
      ensures o in DirectFlow(g, x, d.loc) <==> ComesDirect(g, x, d.loc, o)
    {
      DirectIff(g, x, d.loc, o);
    }
    IndirectIff(g, x, d.loc, d.cur, t);
  }

  /** A load gets the contents of every tracked object that its pointer may target. */
  lemma LoadValue(g: Graph, ander: Conservative, givenUp: set<Item>, d: Item, t: NodeId)
    requires WellFormed(g) && InRange(g, ander) && IsItem(g, d) && d !in givenUp && g.stmts[d.loc].Load?
    ensures var p, x := g.stmts[d.loc].ptr, Least(g, ander, givenUp);
            p in g.def &&
            (t in At(x, d) <==> exists o :: o in At(x, Item(p, g.def[p])) && ComesIn(g, x, d.loc, o, t))
  {
    hide Least, IndirectFlow, ComesIn;
    var x := Least(g, ander, givenUp);
    assert WellFormedStmt(g, d.loc);
    LeastIsExact(g, ander, givenUp, d);
    forall o
      ensures t in IndirectFlow(g, x, d.loc, o) <==> ComesIn(g, x, d.loc, o, t)
    {
      IndirectIff(g, x, d.loc, o, t);
    }
  }

  /** After a store through `p`, the object of `d` holds what was stored, if `p` may target it, and what
      it held before, unless `p` targets nothing, or nothing but this one concrete object. */
  lemma StoreValue(g: Graph, ander: Conservative, givenUp: set<Item>, d: Item, t: NodeId)
    requires WellFormed(g) && InRange(g, ander) && IsItem(g, d) && d !in givenUp && g.stmts[d.loc].Store?
    ensures var s, x := g.stmts[d.loc], Least(g, ander, givenUp);
            && s.ptr in g.def && s.value in g.def
            && var targets := At(x, Item(s.ptr, g.def[s.ptr]));
            t in At(x, d) <==>
              || (d.cur in targets && t in At(x, Item(s.value, g.def[s.value])))
              || (targets != {} && !(targets == {d.cur} && d.cur !in g.weak) && ComesIn(g, x, d.loc, d.cur, t))
  {
    hide Least, IndirectFlow, ComesIn;
    var x := Least(g, ander, givenUp);
    assert WellFormedStmt(g, d.loc);
    LeastIsExact(g, ander, givenUp, d);
    IndirectIff(g, x, d.loc, d.cur, t);
    StrongIff(g, At(x, DefItem(g, g.stmts[d.loc].ptr)), d.cur);
  }

  lemma StrongIff(g: Graph, targets: set<NodeId>, o: NodeId)
    ensures PassesThrough(g, targets, o) <==> targets != {} && !(targets == {o} && o !in g.weak)
  {
    if targets == {o} && o !in g.weak {
      assert o in targets;
    }
  }

  /** A store through a pointer to one object that stands for several keeps everything that comes in ... */
  lemma WeakUpdateKeeps(g: Graph, ander: Conservative, givenUp: set<Item>, d: Item, e: Edge)
    requires WellFormed(g) && InRange(g, ander) && IsItem(g, d) && d !in givenUp && g.stmts[d.loc].Store?
    requires d.cur in g.weak && d.cur !in g.untracked
    requires e in g.edges && e.Indirect? && e.dst == d.loc && d.cur in e.guard
    ensures var p, x := g.stmts[d.loc].ptr, Least(g, ander, givenUp);
            p in g.def && (At(x, Item(p, g.def[p])) == {d.cur} ==> At(x, Item(d.cur, e.src)) <= At(x, d))
  {
    hide Least;
    var p, x := g.stmts[d.loc].ptr, Least(g, ander, givenUp);
    StoreValue(g, ander, givenUp, d, d.cur);
    forall t | t in At(x, Item(d.cur, e.src))
      ensures ComesIn(g, x, d.loc, d.cur, t)
    {
    }
    forall t
      ensures At(x, Item(p, g.def[p])) == {d.cur} && t in At(x, Item(d.cur, e.src)) ==> t in At(x, d)
    {
      StoreValue(g, ander, givenUp, d, t);
    }
  }

  /** ... and through a pointer to one concrete object, nothing. */
  lemma StrongUpdateReplaces(g: Graph, ander: Conservative, givenUp: set<Item>, d: Item)
    requires WellFormed(g) && InRange(g, ander) && IsItem(g, d) && d !in givenUp && g.stmts[d.loc].Store?
    requires d.cur !in g.weak
    ensures var s, x := g.stmts[d.loc], Least(g, ander, givenUp);
            && s.ptr in g.def && s.value in g.def
            && (At(x, Item(s.ptr, g.def[s.ptr])) == {d.cur} ==> At(x, d) == At(x, Item(s.value, g.def[s.value])))
  {
    hide Least, ComesIn;
    StoreValue(g, ander, givenUp, d, d.cur);
    var s, x := g.stmts[d.loc], Least(g, ander, givenUp);
    forall t
      ensures At(x, Item(s.ptr, g.def[s.ptr])) == {d.cur} ==>
                (t in At(x, d) <==> t in At(x, Item(s.value, g.def[s.value])))
    {
      StoreValue(g, ander, givenUp, d, t);
    }
  }
}
