/** Graph traversal by a queue that refuses what it already holds but keeps no record of what it
    has visited. */
module CflTraversal {
  import opened Paths
  import opened Worklists

  /** `done` lists the processed items in order. */
  datatype State = State(work: seq<Node>, done: seq<Node>)

  function Visit(g: Graph, s: State): State
    requires s.work != []
  {
    State(PushAll(s.work[1..], Succ(g, s.work[0])), s.done + [s.work[0]])
  }

  /** The state after `n` rounds of a traversal from `source`. */
  function Rounds(g: Graph, source: Node, n: nat): State {
    if n == 0 then State([source], [])
    else
      var s := Rounds(g, source, n - 1);
      if s.work == [] then s else Visit(g, s)
  }

  ghost predicate Terminates(g: Graph, source: Node) {
    exists n :: Rounds(g, source, n).work == []
  }

  /** Everything that is queued or processed is reachable, and what a processed item leads to is
      queued or processed. */
  ghost predicate Sound(g: Graph, source: Node, s: State) {
    && (forall x :: x in s.work || x in s.done ==> Reaches(g, source, x))
    && (source in s.work || source in s.done)
    && (forall x, t :: x in s.done && t in Succ(g, x) ==> t in s.work || t in s.done)
  }

  lemma VisitSound(g: Graph, source: Node, s: State)
    requires s.work != [] && Sound(g, source, s)
    ensures Sound(g, source, Visit(g, s))
  {
    var n := s.work[0];
    var u := Visit(g, s);
    forall x
      ensures x in u.work <==> x in s.work[1..] || x in Succ(g, n)
      ensures x in Succ(g, n) ==> Reaches(g, source, x)
    {
      PushAllMembers(s.work[1..], Succ(g, n), x);
      if x in Succ(g, n) {
        StepReaches(g, source, n, x);
      }
    }
    assert forall x :: x in s.work <==> x == n || x in s.work[1..];
  }

  lemma {:induction false} RoundsSound(g: Graph, source: Node, n: nat)
    ensures Sound(g, source, Rounds(g, source, n))
  {
    if n > 0 {
      RoundsSound(g, source, n - 1);
      var s := Rounds(g, source, n - 1);
      if s.work != [] {
        VisitSound(g, source, s);
      }
    }
  }

  lemma {:induction false} PathProcessed(g: Graph, source: Node, s: State, p: seq<Node>)
    requires Sound(g, source, s) && s.work == [] && IsPath(g, p) && p[0] in s.done
    ensures p[|p| - 1] in s.done
    decreases |p|
  {
    if |p| > 1 {
      assert p[0 + 1] in Succ(g, p[0]);
      var q := p[1..];
      forall i | 0 <= i < |q| - 1
        ensures q[i + 1] in Succ(g, q[i])
      {
        assert p[(i + 1) + 1] in Succ(g, p[i + 1]);
      }
      PathProcessed(g, source, s, q);
    }
  }

  /** A traversal that ends has processed exactly what its source can reach. */
  lemma EndedIsReachable(g: Graph, source: Node, s: State, x: Node)
    requires Sound(g, source, s) && s.work == []
    ensures x in s.done <==> Reaches(g, source, x)
  {
    if Leads(g, source, x) {
      var p :| PathFromTo(g, p, source, x) && |p| > 1;
      PathProcessed(g, source, s, p);
    }
  }

  // ---------------------------------------------------------------- termination

  /** All that is queued lies in the part of the graph that the source can reach. */
  ghost predicate Within(g: Graph, source: Node, work: seq<Node>) {
    forall x :: x in work ==> x in ReachablePart(g, source)
  }

  ghost function Measure(g: Graph, source: Node, work: seq<Node>): nat
    requires Closed(g) && CycleFree(g, source) && Within(g, source, work)
  {
    PartIsAcyclic(g, source);
    Total(ReachablePart(g, source), work)
  }

  lemma {:induction false} PushAllWeighs(h: Graph, work: seq<Node>, ns: seq<Node>)
    requires Closed(h) && Acyclic(h)
    requires (forall x :: x in work ==> x in h) && (forall x :: x in ns ==> x in h)
    ensures forall x :: x in PushAll(work, ns) ==> x in h
    ensures Total(h, PushAll(work, ns)) <= Total(h, work) + Total(h, ns)
    decreases |ns|
  {
    if ns != [] {
      if ns[0] !in work {
        TotalConcat(h, work, [ns[0]]);
        assert Total(h, [ns[0]]) == Weight(h, ns[0]) + Total(h, []);
      }
      PushAllWeighs(h, Push(work, ns[0]), ns[1..]);
    }
  }

  /** Visiting an item takes away one more than what its successors weigh. */
  lemma VisitLighter(g: Graph, source: Node, s: State)
    requires Closed(g) && CycleFree(g, source) && s.work != [] && Within(g, source, s.work)
    ensures Within(g, source, Visit(g, s).work)
    ensures Measure(g, source, Visit(g, s).work) < Measure(g, source, s.work)
  {
    PartIsAcyclic(g, source);
    var h := ReachablePart(g, source);
    var n := s.work[0];
    assert h[n] == Succ(g, n) && forall t :: t in h[n] ==> t in h;
    SuccessorsWeigh(h, n, h[n]);
    PushAllWeighs(h, s.work[1..], h[n]);
  }

  lemma {:induction false} EndsWithin(g: Graph, source: Node, n: nat)
    requires Closed(g) && CycleFree(g, source) && Within(g, source, Rounds(g, source, n).work)
    ensures Terminates(g, source)
    decreases Measure(g, source, Rounds(g, source, n).work)
  {
    var s := Rounds(g, source, n);
    if s.work != [] {
      VisitLighter(g, source, s);
      assert Rounds(g, source, n + 1) == Visit(g, s);
      EndsWithin(g, source, n + 1);
    }
  }

  /** Something queued still leads to the node on the cycle. */
  ghost predicate Fed(g: Graph, m: Node, work: seq<Node>) {
    exists x :: x in work && Reaches(g, x, m)
  }

  lemma VisitFeeds(g: Graph, m: Node, s: State)
    requires Leads(g, m, m) && s.work != [] && Fed(g, m, s.work)
    ensures Fed(g, m, Visit(g, s).work)
  {
    var x :| x in s.work && Reaches(g, x, m);
    var t;
    if x == s.work[0] {
      t := LeadsFirst(g, x, m);
    } else {
      t := x;
      assert t in s.work[1..];
    }
    PushAllMembers(s.work[1..], Succ(g, s.work[0]), t);
  }

  lemma {:induction false} NeverEnds(g: Graph, source: Node, m: Node, n: nat)
    requires Reaches(g, source, m) && Leads(g, m, m)
    ensures Fed(g, m, Rounds(g, source, n).work)
  {
    if n == 0 {
      assert source in Rounds(g, source, 0).work;
    } else {
      NeverEnds(g, source, m, n - 1);
      VisitFeeds(g, m, Rounds(g, source, n - 1));
    }
  }

  /** A traversal ends exactly when its source reaches no cycle. */
  lemma TerminatesIffCycleFree(g: Graph, source: Node)
    requires Closed(g) && source in g
    ensures Terminates(g, source) <==> CycleFree(g, source)
  {
    if CycleFree(g, source) {
      assert Rounds(g, source, 0).work == [source];
      EndsWithin(g, source, 0);
    } else {
      var m :| Reaches(g, source, m) && Leads(g, m, m);
      forall n
        ensures Rounds(g, source, n).work != []
      {
        NeverEnds(g, source, m, n);
      }
    }
  }

  // ---------------------------------------------------------------- the solver

  /** The worklist algorithm on a graph with its inverse. */
  class CflSolver {
    const graph: Graph
    const inverse: Graph
    var worklist: seq<Node>

    constructor (graph: Graph, inverse: Graph)
      requires Reversed(graph, inverse)
      ensures this.graph == graph && this.inverse == inverse && worklist == []
    {
      this.graph, this.inverse, this.worklist := graph, inverse, [];
    }

    method PushIntoWorklist(n: Node) returns (pushed: bool)
      modifies this`worklist
      ensures worklist == Push(old(worklist), n) && pushed == (n !in old(worklist))
    {
      pushed := n !in worklist;
      if pushed {
        worklist := worklist + [n];
      }
    }

    method PopFromWorklist() returns (n: Node)
      requires worklist != []
      modifies this`worklist
      ensures n == old(worklist)[0] && worklist == old(worklist)[1..]
    {
      n := worklist[0];
      worklist := worklist[1..];
    }

    method Propagate(children: seq<Node>)
      modifies this`worklist
      ensures worklist == PushAll(old(worklist), children)
    {
      var i := 0;
      while i < |children|
        invariant 0 <= i <= |children|
        invariant PushAll(worklist, children[i..]) == PushAll(old(worklist), children)
      {
        var _ := PushIntoWorklist(children[i]);
        i := i + 1;
      }
    }

    /** Processes exactly the items that `it` can reach. */
    method ForwardTraverse(it: Node) returns (done: seq<Node>)
      requires worklist == [] && Closed(graph) && it in graph && CycleFree(graph, it)
      modifies this`worklist
      ensures worklist == [] && exists n :: Rounds(graph, it, n) == State([], done)
      ensures forall x :: x in done <==> Reaches(graph, it, x)
    {
      var _ := PushIntoWorklist(it);
      done := [];
      ghost var n := 0;
      while worklist != []
        invariant Rounds(graph, it, n) == State(worklist, done)
        invariant Within(graph, it, worklist)
        decreases Measure(graph, it, worklist)
      {
        VisitLighter(graph, it, State(worklist, done));
        var item := PopFromWorklist();
        done := done + [item];
        Propagate(Succ(graph, item));
        n := n + 1;
      }
      RoundsSound(graph, it, n);
      forall x
        ensures x in done <==> Reaches(graph, it, x)
      {
        EndedIsReachable(graph, it, State([], done), x);
      }
    }

    /** Processes exactly the items that can reach `it`. */
    method BackwardTraverse(it: Node) returns (done: seq<Node>)
      requires worklist == [] && Reversed(graph, inverse)
      requires Closed(inverse) && it in inverse && CycleFree(inverse, it)
      modifies this`worklist
      ensures worklist == [] && exists n :: Rounds(inverse, it, n) == State([], done)
      ensures forall x :: x in done <==> Reaches(graph, x, it)
    {
      var _ := PushIntoWorklist(it);
      done := [];
      ghost var n := 0;
      while worklist != []
        invariant Rounds(inverse, it, n) == State(worklist, done)
        invariant Within(inverse, it, worklist)
        decreases Measure(inverse, it, worklist)
      {
        VisitLighter(inverse, it, State(worklist, done));
        var item := PopFromWorklist();
        done := done + [item];
        Propagate(Succ(inverse, item));
        n := n + 1;
      }
      RoundsSound(inverse, it, n);
      forall x
        ensures x in done <==> Reaches(graph, x, it)
      {
        EndedIsReachable(inverse, it, State([], done), x);
        ReverseReaches(graph, inverse, x, it);
      }
    }
  }

  /** `t` is processed forwards from `s` exactly when `s` is processed backwards from `t`. */
  lemma ForwardIffBackward(g: Graph, h: Graph, s: Node, t: Node, m: nat, n: nat)
    requires Reversed(g, h)
    requires Rounds(g, s, m).work == [] && Rounds(h, t, n).work == []
    ensures t in Rounds(g, s, m).done <==> s in Rounds(h, t, n).done
  {
    RoundsSound(g, s, m);
    RoundsSound(h, t, n);
    EndedIsReachable(g, s, Rounds(g, s, m), t);
    EndedIsReachable(h, t, Rounds(h, t, n), s);
    ReverseReaches(g, h, s, t);
  }
}
