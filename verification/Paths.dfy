/** Finite directed graphs, and the number of walks out of a node of an acyclic one: the weight
    that a worklist without a visited set runs down. */
module Paths {
  import opened FiniteSets

  type Node = nat

  /** Successors in order; parallel edges count separately. */
  type Graph = map<Node, seq<Node>>

  function Succ(g: Graph, n: Node): seq<Node> {
    if n in g then g[n] else []
  }

  ghost predicate IsPath(g: Graph, p: seq<Node>) {
    p != [] && forall i :: 0 <= i < |p| - 1 ==> p[i + 1] in Succ(g, p[i])
  }

  ghost predicate PathFromTo(g: Graph, p: seq<Node>, a: Node, b: Node) {
    IsPath(g, p) && p[0] == a && p[|p| - 1] == b
  }

  /** There is a walk of one or more edges. */
  ghost predicate Leads(g: Graph, a: Node, b: Node) {
    exists p :: PathFromTo(g, p, a, b) && |p| > 1
  }

  /** There is a walk of any number of edges. */
  ghost predicate Reaches(g: Graph, a: Node, b: Node) {
    a == b || Leads(g, a, b)
  }

  /** All edges stay within the graph. */
  ghost predicate Closed(g: Graph) {
    forall n, t :: n in g && t in g[n] ==> t in g
  }

  ghost predicate Acyclic(g: Graph) {
    forall n :: !Leads(g, n, n)
  }

  lemma EdgeLeads(g: Graph, a: Node, b: Node)
    requires b in Succ(g, a)
    ensures Leads(g, a, b)
  {
    assert PathFromTo(g, [a, b], a, b);
  }

  lemma LeadsTransitive(g: Graph, a: Node, b: Node, c: Node)
    requires Leads(g, a, b) && Leads(g, b, c)
    ensures Leads(g, a, c)
  {
    var p :| PathFromTo(g, p, a, b) && |p| > 1;
    var q :| PathFromTo(g, q, b, c) && |q| > 1;
    var r := p + q[1..];
    forall i | 0 <= i < |r| - 1
      ensures r[i + 1] in Succ(g, r[i])
    {
      if i < |p| - 1 {
        assert p[i + 1] in Succ(g, p[i]);
      } else {
        var j := i - (|p| - 1);
        assert q[j + 1] in Succ(g, q[j]);
      }
    }
    assert PathFromTo(g, r, a, c);
  }

  /** A walk starts with an edge. */
  lemma LeadsFirst(g: Graph, a: Node, b: Node) returns (t: Node)
    requires Leads(g, a, b)
    ensures t in Succ(g, a) && Reaches(g, t, b)
  {
    var p :| PathFromTo(g, p, a, b) && |p| > 1;
    t := p[1];
    if |p| > 2 {
      var q := p[1..];
      forall i | 0 <= i < |q| - 1
        ensures q[i + 1] in Succ(g, q[i])
      {
        assert p[i + 2] in Succ(g, p[i + 1]);
      }
      assert PathFromTo(g, q, t, b);
    }
  }

  // ---------------------------------------------------------------- weights

  ghost function Descendants(g: Graph, n: Node): set<Node> {
    set m | m in g && Leads(g, n, m)
  }

  lemma DescendantsShrink(g: Graph, n: Node, t: Node)
    requires Closed(g) && Acyclic(g) && n in g && t in g[n]
    ensures t in g && Descendants(g, t) < Descendants(g, n)
    ensures |Descendants(g, t)| < |Descendants(g, n)|
  {
    EdgeLeads(g, n, t);
    forall m | m in Descendants(g, t)
      ensures m in Descendants(g, n)
    {
      LeadsTransitive(g, n, t, m);
    }
    assert t in Descendants(g, n) && t !in Descendants(g, t);
    SmallerSet(Descendants(g, t), Descendants(g, n));
  }

  /** The number of walks that start at `n`, the empty one included. */
  ghost function Weight(g: Graph, n: Node): (w: nat)
    requires Closed(g) && Acyclic(g) && n in g
    ensures w > 0
    decreases |Descendants(g, n)|, |g[n]| + 1
  {
    1 + WeightOfSome(g, n, g[n])
  }

  ghost function WeightOfSome(g: Graph, n: Node, ts: seq<Node>): nat
    requires Closed(g) && Acyclic(g) && n in g
    requires forall t :: t in ts ==> t in g[n]
    decreases |Descendants(g, n)|, |ts|
  {
    if ts == [] then 0
    else
      DescendantsShrink(g, n, ts[0]);
      Weight(g, ts[0]) + WeightOfSome(g, n, ts[1..])
  }

  /** The weight of a queue. */
  ghost function Total(g: Graph, work: seq<Node>): nat
    requires Closed(g) && Acyclic(g) && forall n :: n in work ==> n in g
    decreases |work|
  {
    if work == [] then 0 else Weight(g, work[0]) + Total(g, work[1..])
  }

  lemma {:induction false} SuccessorsWeigh(g: Graph, n: Node, ts: seq<Node>)
    requires Closed(g) && Acyclic(g) && n in g
    requires forall t :: t in ts ==> t in g[n]
    ensures WeightOfSome(g, n, ts) == Total(g, ts)
    decreases |ts|
  {
    if ts != [] {
      SuccessorsWeigh(g, n, ts[1..]);
    }
  }

  lemma {:induction false} TotalConcat(g: Graph, a: seq<Node>, b: seq<Node>)
    requires Closed(g) && Acyclic(g) && forall n :: n in a + b ==> n in g
    requires forall n :: n in a ==> n in g
    requires forall n :: n in b ==> n in g
    ensures Total(g, a + b) == Total(g, a) + Total(g, b)
    decreases |a|
  {
    if a == [] {
      assert a + b == b;
    } else {
      assert (a + b)[1..] == a[1..] + b;
      TotalConcat(g, a[1..], b);
    }
  }

  // ---------------------------------------------------------------- reversal

  /** `h` has the edges of `g` the other way round. */
  ghost predicate Reversed(g: Graph, h: Graph) {
    && g.Keys == h.Keys
    && forall a, b :: b in Succ(g, a) <==> a in Succ(h, b)
  }

  lemma ReverseLeads(g: Graph, h: Graph, a: Node, b: Node)
    requires Reversed(g, h) && Leads(g, a, b)
    ensures Leads(h, b, a)
  {
    var p :| PathFromTo(g, p, a, b) && |p| > 1;
    var q := seq(|p|, i requires 0 <= i < |p| => p[|p| - 1 - i]);
    forall i | 0 <= i < |q| - 1
      ensures q[i + 1] in Succ(h, q[i])
    {
      var j := |p| - 2 - i;
      assert p[j + 1] in Succ(g, p[j]);
    }
    assert PathFromTo(h, q, b, a);
  }

  lemma ReverseReaches(g: Graph, h: Graph, a: Node, b: Node)
    requires Reversed(g, h)
    ensures Reaches(g, a, b) <==> Reaches(h, b, a)
  {
    if a != b {
      if Leads(g, a, b) {
        ReverseLeads(g, h, a, b);
      }
      if Leads(h, b, a) {
        ReverseLeads(h, g, b, a);
      }
    }
  }

  // ---------------------------------------------------------------- what a node can reach

  ghost predicate CycleFree(g: Graph, s: Node) {
    forall m :: Reaches(g, s, m) ==> !Leads(g, m, m)
  }

  /** The part of the graph that `s` can reach. */
  ghost function ReachablePart(g: Graph, s: Node): Graph {
    map n | n in g && Reaches(g, s, n) :: g[n]
  }

  lemma StepReaches(g: Graph, s: Node, n: Node, t: Node)
    requires Reaches(g, s, n) && t in Succ(g, n)
    ensures Reaches(g, s, t)
  {
    EdgeLeads(g, n, t);
    if s != n {
      LeadsTransitive(g, s, n, t);
    }
  }

  lemma PartIsAcyclic(g: Graph, s: Node)
    requires Closed(g) && CycleFree(g, s)
    ensures Closed(ReachablePart(g, s)) && Acyclic(ReachablePart(g, s))
  {
    var h := ReachablePart(g, s);
    forall n, t | n in h && t in h[n]
      ensures t in h
    {
      StepReaches(g, s, n, t);
    }
    forall n
      ensures !Leads(h, n, n)
    {
      if Leads(h, n, n) {
        PartLeads(g, s, n, n);
      }
    }
  }

  lemma PartLeads(g: Graph, s: Node, a: Node, b: Node)
    requires Leads(ReachablePart(g, s), a, b)
    ensures Leads(g, a, b) && Reaches(g, s, a)
  {
    var h := ReachablePart(g, s);
    var p :| PathFromTo(h, p, a, b) && |p| > 1;
    assert p[0 + 1] in Succ(h, p[0]);
    forall i | 0 <= i < |p| - 1
      ensures p[i + 1] in Succ(g, p[i])
    {
      assert p[i + 1] in Succ(h, p[i]);
    }
    assert PathFromTo(g, p, a, b);
  }
}
