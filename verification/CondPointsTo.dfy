/** Conditional points-to sets: a map from conditions to sets of objects that stands for a set of
    (condition, object) pairs. */
module CondPointsTo {

  type Obj = nat

  function Get<Cond(==)>(m: map<Cond, set<Obj>>, c: Cond): set<Obj> {
    if c in m then m[c] else {}
  }

  /** What the map stands for; entries without objects stand for nothing. */
  function Pairs<Cond(==)>(m: map<Cond, set<Obj>>): set<(Cond, Obj)> {
    set c, o | c in m && o in m[c] :: (c, o)
  }

  // ---------------------------------------------------------------- counting

  function Row<Cond(==)>(c: Cond, os: set<Obj>): set<(Cond, Obj)> {
    set o | o in os :: (c, o)
  }

  lemma {:induction false} RowSize<Cond>(c: Cond, os: set<Obj>)
    ensures |Row(c, os)| == |os|
    decreases os
  {
    if o :| o in os {
      RowSize(c, os - {o});
      assert Row(c, os) == Row(c, os - {o}) + {(c, o)};
    } else {
      assert Row(c, os) == {};
    }
  }

  /** The pairs of some of the conditions. */
  function Rows<Cond(==)>(m: map<Cond, set<Obj>>, cs: set<Cond>): set<(Cond, Obj)> {
    set c, o | c in cs && c in m && o in m[c] :: (c, o)
  }

  lemma RowsAdd<Cond>(m: map<Cond, set<Obj>>, cs: set<Cond>, c: Cond)
    requires c in m && c !in cs
    ensures |Rows(m, cs + {c})| == |Rows(m, cs)| + |m[c]|
  {
    RowSize(c, m[c]);
    assert Rows(m, cs + {c}) == Rows(m, cs) + Row(c, m[c]);
    assert Rows(m, cs) !! Row(c, m[c]);
  }

  // ---------------------------------------------------------------- pairs after an operation

  lemma PairsOfUnion<Cond>(a: map<Cond, set<Obj>>, b: map<Cond, set<Obj>>, r: map<Cond, set<Obj>>)
    requires r.Keys == a.Keys + b.Keys && forall c :: c in r ==> r[c] == Get(a, c) + Get(b, c)
    ensures Pairs(r) == Pairs(a) + Pairs(b)
  {
    forall c, o
      ensures (c, o) in Pairs(r) <==> (c, o) in Pairs(a) || (c, o) in Pairs(b)
    {
      assert c in r ==> r[c] == Get(a, c) + Get(b, c);
    }
  }

  lemma PairsOfMeet<Cond>(a: map<Cond, set<Obj>>, b: map<Cond, set<Obj>>, r: map<Cond, set<Obj>>)
    requires r.Keys == a.Keys && forall c :: c in r ==> r[c] == a[c] * Get(b, c)
    ensures Pairs(r) == Pairs(a) * Pairs(b)
  {
  }

  lemma PairsOfMinus<Cond>(a: map<Cond, set<Obj>>, b: map<Cond, set<Obj>>, r: map<Cond, set<Obj>>)
    requires r.Keys == a.Keys && forall c :: c in r ==> r[c] == a[c] - Get(b, c)
    ensures Pairs(r) == Pairs(a) - Pairs(b)
  {
  }

  /** Some condition's set differs exactly if the pairs do. */
  lemma PairsDiffer<Cond>(a: map<Cond, set<Obj>>, b: map<Cond, set<Obj>>)
    ensures Pairs(a) != Pairs(b) <==> exists c :: c in a.Keys + b.Keys && Get(a, c) != Get(b, c)
  {
    if c :| c in a.Keys + b.Keys && Get(a, c) != Get(b, c) {
      if Pairs(a) == Pairs(b) {
        forall o
          ensures o in Get(a, c) <==> o in Get(b, c)
        {
          assert (c, o) in Pairs(a) <==> (c, o) in Pairs(b);
        }
        assert false;
      }
    } else {
      forall c, o
        ensures (c, o) in Pairs(a) <==> (c, o) in Pairs(b)
      {
        assert c in a.Keys + b.Keys ==> Get(a, c) == Get(b, c);
      }
      assert Pairs(a) == Pairs(b);
    }
  }

  class CondPointsToSet<Cond(==)> {
    var condPts: map<Cond, set<Obj>>

    constructor ()
      ensures condPts == map[]
    {
      condPts := map[];
    }

    ghost function Content(): set<(Cond, Obj)>
      reads this
    {
      Pairs(condPts)
    }

    method Clear()
      modifies this
      ensures condPts == map[]
    {
      condPts := map[];
    }

    method NumElement() returns (num: nat)
      ensures num == |Content()|
    {
      num := 0;
      var rest := condPts.Keys;
      assert Rows(condPts, condPts.Keys - rest) == {};
      while rest != {}
        invariant rest <= condPts.Keys && num == |Rows(condPts, condPts.Keys - rest)|
        decreases rest
      {
        var c :| c in rest;
        RowsAdd(condPts, condPts.Keys - rest, c);
        assert condPts.Keys - (rest - {c}) == condPts.Keys - rest + {c};
        num := num + |condPts[c]|;
        rest := rest - {c};
      }
      assert Rows(condPts, condPts.Keys - {}) == Pairs(condPts);
    }

    /** There may be entries left, but none with an object. */
    method IsEmpty() returns (b: bool)
      ensures b == (Content() == {})
    {
      var n := NumElement();
      b := n == 0;
    }

    /** `|=`: union. The flag tells whether there are new pairs. */
    method UnionWith(rhs: CondPointsToSet<Cond>) returns (changed: bool)
      modifies this
      ensures condPts.Keys == old(condPts).Keys + old(rhs.condPts).Keys
      ensures forall c :: c in condPts ==> condPts[c] == Get(old(condPts), c) + Get(old(rhs.condPts), c)
      ensures Content() == old(Content()) + old(rhs.Content())
      ensures changed == (Content() != old(Content()))
    {
      ghost var a, b := condPts, rhs.condPts;
      changed := false;
      var rest := rhs.condPts.Keys;
      while rest != {}
        invariant rest <= b.Keys && (rhs != this ==> rhs.condPts == b) && (rhs == this ==> a == b)
        invariant condPts.Keys == a.Keys + (b.Keys - rest)
        invariant forall c :: c in condPts ==> condPts[c] == Get(a, c) + if c in rest then {} else Get(b, c)
        invariant changed <==> exists c :: c in condPts && condPts[c] != Get(a, c)
        decreases rest
      {
        var c :| c in rest;
        rest := rest - {c};
        ghost var was := condPts;
        assert Get(was, c) == Get(a, c);
        var rhsPts := rhs.condPts[c];
        assert rhs == this ==> Get(a, c) == b[c];
        var pts := Get(condPts, c);
        var grown := pts + rhsPts;
        condPts := condPts[c := grown];
        if grown != pts {
          changed := true;
          assert condPts[c] != Get(a, c);
        } else if changed {
          ghost var d :| d in was && was[d] != Get(a, d);
          assert condPts[d] != Get(a, d);
        }
      }
      PairsOfUnion(a, b, condPts);
      PairsDiffer(condPts, a);
    }

    /** `&=`: intersection. Entries may be left without objects. */
    method IntersectWith(rhs: CondPointsToSet<Cond>) returns (changed: bool)
      modifies this
      ensures Content() == old(Content()) * old(rhs.Content())
      ensures changed == (Content() != old(Content()))
      ensures forall c :: c in condPts ==> c in old(condPts) && condPts[c] == old(condPts)[c] * Get(old(rhs.condPts), c)
    {
      hide Pairs;
      ghost var a, b := condPts, rhs.condPts;
      var none := IsEmpty();
      if none {
        NoPairs(a);
        assert forall c :: c in a ==> a[c] * Get(b, c) == {};
        return false;
      }
      var nothing := rhs.IsEmpty();
      if nothing {
        Clear();
        PairsOfNothing<Cond>();
        return true;
      }
      changed := false;
      var rest := condPts.Keys;
      while rest != {}
        invariant rest <= a.Keys == condPts.Keys && (rhs != this ==> rhs.condPts == b) && (rhs == this ==> a == b)
        invariant forall c :: c in a ==> condPts[c] == if c in rest then a[c] else a[c] * Get(b, c)
        invariant changed <==> exists c :: c in a && Get(condPts, c) != Get(a, c)
        decreases rest
      {
        var c :| c in rest;
        rest := rest - {c};
        ghost var was := condPts;
        var pts := condPts[c];
        var kept := if c in rhs.condPts then pts * rhs.condPts[c] else {};
        assert rhs == this ==> pts == b[c];
        condPts := condPts[c := kept];
        if kept != pts {
          changed := true;
          assert Get(condPts, c) != Get(a, c);
        } else if changed {
          ghost var d :| d in a && Get(was, d) != Get(a, d);
          assert Get(condPts, d) != Get(a, d);
        }
      }
      PairsOfMeet(a, b, condPts);
      PairsDiffer(condPts, a);
    }

    /** Takes away the pairs of `rhs`. */
    method Subtract(rhs: CondPointsToSet<Cond>)
      modifies this
      ensures condPts.Keys == old(condPts).Keys
      ensures Content() == old(Content()) - old(rhs.Content())
    {
      ghost var a, b := condPts, rhs.condPts;
      var none := IsEmpty();
      if none || rhs.condPts == map[] {
        return;
      }
      var rest := condPts.Keys;
      while rest != {}
        invariant rest <= a.Keys == condPts.Keys && (rhs != this ==> rhs.condPts == b) && (rhs == this ==> a == b)
        invariant forall c :: c in a ==> condPts[c] == if c in rest then a[c] else a[c] - Get(b, c)
        decreases rest
      {
        var c :| c in rest;
        rest := rest - {c};
        if c in rhs.condPts {
          condPts := condPts[c := condPts[c] - rhs.condPts[c]];
        }
      }
      PairsOfMinus(a, b, condPts);
    }

    /** Stores the pairs of `left` that are not in `right`; entries of other conditions stay. */
    method StoreDifference(left: CondPointsToSet<Cond>, right: CondPointsToSet<Cond>)
      modifies this
      ensures condPts == Difference(old(condPts), old(left.condPts), old(right.condPts))
    {
      ghost var a, l, r := condPts, left.condPts, right.condPts;
      if left.condPts == map[] {
        Clear();
        return;
      }
      if right.condPts == map[] {
        condPts := left.condPts;
        return;
      }
      var rest := left.condPts.Keys;
      while rest != {}
        invariant rest <= l.Keys
        invariant (left != this ==> left.condPts == l) && (right != this ==> right.condPts == r)
        invariant (left == this ==> a == l) && (right == this ==> a == r)
        invariant StoredSoFar(condPts, a, l, r, rest)
        decreases rest
      {
        var c :| c in rest;
        StoreStep(condPts, a, l, r, rest, c);
        rest := rest - {c};
        var pts1 := left.condPts[c];
        assert Get(right.condPts, c) == Get(r, c);
        var pts := if c in right.condPts then pts1 - right.condPts[c] else pts1;
        assert pts == l[c] - Get(r, c);
        condPts := condPts[c := pts];
      }
    }

    method TestAndSet(c: Cond, o: Obj) returns (added: bool)
      modifies this
      ensures condPts.Keys == old(condPts).Keys + {c}
      ensures Content() == old(Content()) + {(c, o)} && added == ((c, o) !in old(Content()))
    {
      added := o !in Get(condPts, c);
      condPts := condPts[c := Get(condPts, c) + {o}];
    }

    method Test(c: Cond, o: Obj) returns (b: bool)
      ensures b == ((c, o) in Content())
    {
      b := c in condPts && o in condPts[c];
    }

    method Reset(c: Cond, o: Obj)
      modifies this
      ensures condPts.Keys == old(condPts).Keys && Content() == old(Content()) - {(c, o)}
    {
      if c in condPts {
        condPts := condPts[c := condPts[c] - {o}];
      }
    }

    /** Two sets are aliased if they share a pair. */
    method Aliased(rhs: CondPointsToSet<Cond>) returns (b: bool)
      ensures b == (Content() * rhs.Content() != {})
    {
      var rest := condPts.Keys;
      while rest != {}
        invariant rest <= condPts.Keys
        invariant forall c :: c in condPts && c !in rest ==> condPts[c] * Get(rhs.condPts, c) == {}
        decreases rest
      {
        var c :| c in rest;
        rest := rest - {c};
        if c in rhs.condPts && condPts[c] * rhs.condPts[c] != {} {
          ghost var o :| o in condPts[c] * rhs.condPts[c];
          assert (c, o) in Content() * rhs.Content();
          return true;
        }
      }
      NoSharedPair(condPts, rhs.condPts);
      return false;
    }

    /** A subset needs, besides its pairs, all its entries in `rhs`, also those without objects. */
    method IsSubset(rhs: CondPointsToSet<Cond>) returns (b: bool)
      ensures b <==> Content() <= rhs.Content() && condPts.Keys <= rhs.condPts.Keys
    {
      if |condPts| > |rhs.condPts| {
        FewerKeys(condPts.Keys, rhs.condPts.Keys);
        return false;
      }
      var rest := condPts.Keys;
      while rest != {}
        invariant rest <= condPts.Keys
        invariant forall c :: c in condPts && c !in rest ==> c in rhs.condPts && condPts[c] <= rhs.condPts[c]
        decreases rest
      {
        var c :| c in rest;
        rest := rest - {c};
        if c !in rhs.condPts {
          return false;
        }
        if !(condPts[c] <= rhs.condPts[c]) {
          ghost var o :| o in condPts[c] && o !in rhs.condPts[c];
          assert (c, o) in Content() && (c, o) !in rhs.Content();
          return false;
        }
      }
      return true;
    }
  }

  lemma PairsOfNothing<Cond>()
    ensures Pairs<Cond>(map[]) == {}
  {
  }

  lemma NoPairs<Cond>(m: map<Cond, set<Obj>>)
    requires Pairs(m) == {}
    ensures forall c :: c in m ==> m[c] == {}
  {
    forall c | c in m
      ensures m[c] == {}
    {
      assert forall o :: o in m[c] ==> (c, o) in Pairs(m);
    }
  }

  lemma {:induction false} FewerKeys<T>(a: set<T>, b: set<T>)
    ensures a <= b ==> |a| <= |b|
    decreases a
  {
    if x :| x in a {
      FewerKeys(a - {x}, b - {x});
    }
  }

  // ---------------------------------------------------------------- the stored difference

  /** What is stored for `left` without `right` in a set that holds `a`. */
  function Difference<Cond(==)>(a: map<Cond, set<Obj>>, left: map<Cond, set<Obj>>, right: map<Cond,
                           set<Obj>>): map<Cond, set<Obj>> {
    if left == map[] then map[]
    else if right == map[] then left
    else map c | c in a.Keys + left.Keys :: if c in left then left[c] - Get(right, c) else a[c]
  }

  /** The entries of `rest` have still to be stored. */
  ghost predicate StoredSoFar<Cond>(m: map<Cond, set<Obj>>, a: map<Cond, set<Obj>>, l: map<Cond, set<Obj>>,
                                    r: map<Cond, set<Obj>>,
                                    rest: set<Cond>) {
    && m.Keys == a.Keys + (l.Keys - rest)
    && forall c :: c in m ==> m[c] == if c in l && c !in rest then l[c] - Get(r, c) else a[c]
  }

  lemma StoreStep<Cond>(m: map<Cond, set<Obj>>, a: map<Cond, set<Obj>>, l: map<Cond, set<Obj>>, r: map<Cond, set<Obj>>,
                        rest: set<Cond>, c: Cond)
    requires StoredSoFar(m, a, l, r, rest) && c in rest && c in l
    ensures StoredSoFar(m[c := l[c] - Get(r, c)], a, l, r, rest - {c})
    ensures c in a ==> c in m && m[c] == a[c]
    ensures c in m ==> c in a
  {
  }

  lemma NoSharedPair<Cond>(a: map<Cond, set<Obj>>, b: map<Cond, set<Obj>>)
    requires forall c :: c in a ==> a[c] * Get(b, c) == {}
    ensures Pairs(a) * Pairs(b) == {}
  {
    forall c, o | (c, o) in Pairs(a)
      ensures (c, o) !in Pairs(b)
    {
      assert o !in a[c] * Get(b, c);
    }
  }

  /** The difference is stored exactly, unless objects are left over from before: the set has to be
      free of other conditions, or one of the operands has to have no entries. */
  lemma DifferenceIff<Cond>(a: map<Cond, set<Obj>>, left: map<Cond, set<Obj>>, right: map<Cond, set<Obj>>)
    ensures Pairs(Difference(a, left, right)) == Pairs(left) - Pairs(right) <==>
            left == map[] || right == map[] || forall c :: c in a && c !in left ==> a[c] == {}
  {
    var d := Difference(a, left, right);
    if left != map[] && right != map[] {
      if c :| c in a && c !in left && a[c] != {} {
        var o :| o in a[c];
        assert (c, o) in Pairs(d) && (c, o) !in Pairs(left);
      } else {
        forall c, o
          ensures (c, o) in Pairs(d) <==> (c, o) in Pairs(left) - Pairs(right)
        {
          assert c in d && c !in left ==> d[c] == a[c];
        }
      }
    }
  }

  /** On a cleared set it is always exact. */
  lemma DifferenceOnCleared<Cond>(left: map<Cond, set<Obj>>, right: map<Cond, set<Obj>>)
    ensures Pairs(Difference(map[], left, right)) == Pairs(left) - Pairs(right)
  {
    DifferenceIff(map[], left, right);
  }
}
