/** How many statements a query can come to evaluate: each evaluation visits an item, and an item is taken
    back only when a cached set has grown. */
module DdaBudget {
  import opened FiniteSets
  import opened Progress
  import opened Svfg

  /** `n` times `k`. */
  function Times(n: nat, k: nat): nat {
    if n == 0 then 0 else k + Times(n - 1, k)
  }

  lemma {:induction false} TimesGrows(m: nat, n: nat, k: nat)
    requires m <= n
    ensures Times(m, k) <= Times(n, k)
    ensures m < n ==> Times(m, k) + k <= Times(n, k)
    decreases n
  {
    if m < n {
      TimesGrows(m, n - 1, k);
    }
  }

  lemma {:induction false} TimesIs(n: nat, k: nat)
    ensures Times(n, k) == n * k
  {
    if n > 0 {
      TimesIs(n - 1, k);
    }
  }

  /** The items that one grown set can have evaluated again: all, for each edge. */
  ghost function Again(g: Graph): nat {
    Times(|g.edges|, |Items(g)|)
  }

  ghost function RoomFor(g: Graph, pts: Assignment): set<(Item, NodeId)> {
    Room(g, Snapshot({}, {}, pts, false, {}, {}))
  }

  /** What the solver may still evaluate, with these items visited and these sets cached. */
  ghost function Pending(g: Graph, visited: set<Item>, pts: Assignment): nat {
    Times(|RoomFor(g, pts)|, Again(g)) + |Items(g) - visited|
  }

  /** What a solver that knows nothing may evaluate. */
  ghost function Enough(g: Graph): nat {
    Pending(g, {}, map[])
  }

  lemma PendingVisited(g: Graph, visited: set<Item>, pts: Assignment, d: Item)
    requires IsItem(g, d) && d !in visited
    ensures Pending(g, visited + {d}, pts) < Pending(g, visited, pts)
  {
    hide RoomFor, Again, Times;
    ItemsComplete(g, d);
    SmallerSet(Items(g) - (visited + {d}), Items(g) - visited);
  }

  lemma PendingCleared(g: Graph, visited: set<Item>, pts: Assignment, d: Item)
    ensures Pending(g, visited - {d}, pts) <= Pending(g, visited, pts) + 1
  {
    hide RoomFor, Again, Times;
    var open := Items(g) - visited;
    SubsetSize(Items(g) - (visited - {d}), open + {d});
  }

  lemma PendingGrown(g: Graph, visited: set<Item>, pts: Assignment, d: Item, all: set<NodeId>)
    requires IsItem(g, d) && At(pts, d) <= all <= g.ids
    ensures Pending(g, visited, pts[d := all]) <= Pending(g, visited, pts)
    ensures all != At(pts, d) ==> Pending(g, visited, pts[d := all]) + Again(g) <= Pending(g, visited, pts)
  {
    hide Again, Times;
    var less, more := RoomFor(g, pts[d := all]), RoomFor(g, pts);
    forall p | p in less
      ensures p in more
    {
      assert p.1 !in At(pts[d := all], p.0);
    }
    SubsetSize(less, more);
    if o :| o in all && o !in At(pts, d) {
      ItemsComplete(g, d);
      assert (d, o) in more && (d, o) !in less;
      SmallerSet(less, more);
    }
    TimesGrows(|less|, |more|, Again(g));
  }

  lemma PendingBounded(g: Graph, visited: set<Item>, pts: Assignment)
    ensures Pending(g, visited, pts) <= Enough(g)
  {
    hide Again, Times;
    SubsetSize(RoomFor(g, pts), RoomFor(g, map[]));
    TimesGrows(|RoomFor(g, pts)|, |RoomFor(g, map[])|, Again(g));
    SubsetSize(Items(g) - visited, Items(g) - {});
  }

  /** Re-evaluating along a set of edges. */
  lemma EdgesAgain(g: Graph, todo: set<Edge>)
    requires todo <= g.edges
    ensures Times(|todo|, |Items(g)|) <= Again(g)
  {
    SubsetSize(todo, g.edges);
    TimesGrows(|todo|, |g.edges|, |Items(g)|);
  }

  lemma ItemsCount(g: Graph, items: set<Item>)
    requires forall f :: f in items ==> IsItem(g, f)
    ensures |items| <= |Items(g)|
  {
    forall f | f in items
      ensures f in Items(g)
    {
      ItemsComplete(g, f);
    }
    SubsetSize(items, Items(g));
  }

  ghost function Pairs(a: set<Item>, b: set<NodeId>): set<(Item, NodeId)> {
    set x, y | x in a && y in b :: (x, y)
  }

  lemma {:induction false} PairsCount(a: set<Item>, b: set<NodeId>)
    ensures |Pairs(a, b)| == Times(|a|, |b|)
    decreases a
  {
    if x :| x in a {
      PairsCount(a - {x}, b);
      RowCount(x, b);
      PairsSplit(a, b, x);
    } else {
      assert Pairs(a, b) == {};
    }
  }

  lemma PairsSplit(a: set<Item>, b: set<NodeId>, x: Item)
    requires x in a
    ensures Pairs(a, b) == Pairs(a - {x}, b) + Pairs({x}, b)
    ensures Pairs(a - {x}, b) !! Pairs({x}, b)
  {
  }

  lemma RowSplit(x: Item, b: set<NodeId>, z: NodeId)
    requires z in b
    ensures Pairs({x}, b) == Pairs({x}, b - {z}) + {(x, z)} && (x, z) !in Pairs({x}, b - {z})
  {
    forall p
      ensures p in Pairs({x}, b) <==> p in Pairs({x}, b - {z}) + {(x, z)}
    {
      assert p == (p.0, p.1);
    }
  }

  lemma {:induction false} RowCount(x: Item, b: set<NodeId>)
    ensures |Pairs({x}, b)| == |b|
    decreases b
  {
    hide Pairs;
    if z :| z in b {
      RowCount(x, b - {z});
      RowSplit(x, b, z);
    } else {
      NoPairs({x}, b);
    }
  }

  lemma NoPairs(a: set<Item>, b: set<NodeId>)
    requires a == {} || b == {}
    ensures Pairs(a, b) == {}
  {
  }

  /** Every item, and for every object that an item may come to point to, every item again along every
      edge. */
  lemma EnoughIs(g: Graph)
    ensures Enough(g) == (|Items(g)| * |g.ids|) * (|g.edges| * |Items(g)|) + |Items(g)|
  {
    hide Items, Times;
    PairsCount(Items(g), g.ids);
    assert RoomFor(g, map[]) == Pairs(Items(g), g.ids);
    TimesIs(|Items(g)|, |g.ids|);
    TimesIs(|g.edges|, |Items(g)|);
    TimesIs(|RoomFor(g, map[])|, Again(g));
    assert Items(g) - {} == Items(g);
  }
}
