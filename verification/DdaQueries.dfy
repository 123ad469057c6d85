/** Whole queries: what the state between two queries satisfies, and why every query that
    stays within its budget returns the least solution. */
module DdaQueries {
  import opened Svfg
  import opened Progress

  /** The state that the next query starts from: everything a completed query visited stays
      visited, and of a query that ran out of budget only the items it was given up on. */
  ghost function AfterReset(s: Snapshot): Snapshot {
    Snapshot(
      if s.exhausted then s.visited - (s.recorded - s.givenUp) else s.visited,
      {}, s.pts, false, s.givenUp, {})
  }

  ghost predicate WithinLeast(g: Graph, ander: Conservative, s: Snapshot) {
    Within(g, ander, s.givenUp, s.pts, Least(g, ander, s.givenUp))
  }

  /** Nothing outside of the least solution is cached, and what will still be visited after the
      reset is settled. */
  ghost predicate Resting(g: Graph, ander: Conservative, s: Snapshot) {
    && Proper(g, s)
    && s.recorded <= s.visited
    && WithinLeast(g, ander, s)
    && Closed(g, ander, AfterReset(s))
  }

  /** The conservative analysis can be relied on, or no answer has been taken from it yet. */
  ghost predicate Trusted(g: Graph, ander: Conservative, givenUp: set<Item>) {
    givenUp == {} || Sound(g, ander)
  }

  lemma LeastIsBound(g: Graph, ander: Conservative, givenUp: set<Item>)
    requires WellFormed(g) && InRange(g, ander)
    ensures Within(g, ander, givenUp, map[], Least(g, ander, givenUp))
  {
    LeastSolves(g, ander, givenUp);
  }

  lemma RestingResets(g: Graph, ander: Conservative, s: Snapshot)
    requires Resting(g, ander, s)
    ensures Resting(g, ander, AfterReset(s)) && AfterReset(AfterReset(s)) == AfterReset(s)
    ensures Proper(g, AfterReset(s)) && s.recorded <= s.visited
  {
  }

  lemma RestingRuns(g: Graph, ander: Conservative, s: Snapshot)
    requires Resting(g, ander, s)
    ensures Proper(g, s) && WithinLeast(g, ander, s)
  {
  }

  /** Every item may point to everything. */
  ghost function Top(g: Graph): Assignment {
    map d | d in Items(g) :: g.ids
  }

  lemma TopIsBound(g: Graph, ander: Conservative, s: Snapshot)
    requires WellFormed(g) && InRange(g, ander) && Proper(g, s)
    ensures Within(g, ander, s.givenUp, s.pts, Top(g))
  {
    forall d | IsItem(g, d)
      ensures Required(g, ander, s.givenUp, Top(g), d) <= At(Top(g), d)
    {
      ItemsComplete(g, d);
      FlowBounded(g, Top(g), d);
    }
    forall d | d in s.pts
      ensures s.pts[d] <= At(Top(g), d)
    {
      ItemsComplete(g, d);
    }
  }

  lemma FallbackRuns(g: Graph, ander: Conservative, s: Snapshot, d: Item)
    requires WellFormed(g) && InRange(g, ander) && Proper(g, s) && IsItem(g, d)
    ensures Within(g, ander, s.givenUp, s.pts, Top(g))
    ensures Fallback(ander, d) <= At(Top(g), d) && Fallback(ander, d) <= g.ids
  {
    TopIsBound(g, ander, s);
    ItemsComplete(g, d);
  }

  /** What the next query finds visited after one that started from `s`. */
  lemma VisitedAfterQuery(g: Graph, s: Snapshot, t: Snapshot)
    requires s == AfterReset(s) && Advances(g, s, t) && !t.exhausted && t.recorded <= t.visited
    ensures AfterReset(t).visited == s.visited + t.recorded
  {
  }

  /** What was settled before a query still is, whatever the query has added to the caches:
      the sets that were settled had already reached the least solution. */
  lemma {:induction false} SettledSurvives(g: Graph, ander: Conservative, s: Snapshot, u: Snapshot)
    requires WellFormed(g) && InRange(g, ander) && Proper(g, u)
    requires Closed(g, ander, s) && WithinLeast(g, ander, s)
    requires Below(u.pts, Least(g, ander, s.givenUp))
    requires s.visited <= u.visited && forall f :: IsItem(g, f) ==> At(s.pts, f) <= At(u.pts, f)
    ensures forall d :: IsItem(g, d) && d in s.visited ==>
              if d in s.givenUp then Fallback(ander, d) <= At(u.pts, d) else Settled(g, u, d)
  {
    ClosedIsLeast(g, ander, s);
    forall f | IsItem(g, f)
      ensures At(Padded(g, u), f) <= At(Padded(g, s), f)
    {
      ItemsComplete(g, f);
      if f in s.visited {
        assert At(u.pts, f) <= At(Least(g, ander, s.givenUp), f);
      }
    }
    forall d | IsItem(g, d) && d in s.visited && d !in s.givenUp
      ensures Settled(g, u, d)
    {
      FlowMonotone(g, Padded(g, u), Padded(g, s), d);
      assert Settled(g, s, d);
    }
  }

  /** A query that stayed within its budget leaves everything it visited settled, hence equal to
      the least solution. */
  lemma {:induction false} CompletedQuery(g: Graph, ander: Conservative, s: Snapshot, t: Snapshot)
    requires WellFormed(g) && InRange(g, ander)
    requires Resting(g, ander, s) && s == AfterReset(s)
    requires Advances(g, s, t) && Proper(g, t) && t.recorded <= t.visited && t.givenUp !! t.recorded
    requires WithinLeast(g, ander, t) && !t.exhausted
    ensures Resting(g, ander, t)
    ensures forall d :: IsItem(g, d) && d in t.visited ==>
              At(t.pts, d) == At(Least(g, ander, t.givenUp), d)
    ensures AfterReset(t).visited == s.visited + t.recorded
  {
    SettledSurvives(g, ander, s, t);
    forall d | IsItem(g, d) && d in t.visited && d !in s.visited
      ensures d !in t.givenUp && Settled(g, t, d)
    {
      assert d in t.recorded;
    }
    assert Closed(g, ander, t);
    ClosedIsLeast(g, ander, t);
    SameClosed(g, ander, t);
  }

  lemma SameClosed(g: Graph, ander: Conservative, t: Snapshot)
    requires Closed(g, ander, t) && !t.exhausted
    ensures Closed(g, ander, AfterReset(t))
  {
    forall d | IsItem(g, d) && d in AfterReset(t).visited && d !in t.givenUp
      ensures Settled(g, AfterReset(t), d)
    {
      assert Settled(g, t, d);
      assert Padded(g, AfterReset(t)) == Padded(g, t);
    }
  }

  lemma FallbackBounds(g: Graph, ander: Conservative, givenUp: set<Item>, d: Item)
    requires WellFormed(g) && Sound(g, ander) && IsItem(g, d)
    ensures At(Least(g, ander, givenUp), d) <= Fallback(ander, d) <= g.ids
    ensures d in givenUp ==> At(Least(g, ander, givenUp), d) == Fallback(ander, d)
  {
    FallbackSolves(g, ander, givenUp);
    LeastBelow(g, ander, givenUp, FallbackAssignment(g, ander));
    LeastSolves(g, ander, givenUp);
    ItemsComplete(g, d);
    assert Required(g, ander, givenUp, Least(g, ander, givenUp), d) <= At(Least(g, ander, givenUp), d);
  }

  /** `u` differs from `t` by the conservative answer for `d` only. */
  ghost predicate AnsweredConservatively(g: Graph, ander: Conservative, t: Snapshot, u: Snapshot, d: Item) {
    forall f :: IsItem(g, f) ==>
      At(u.pts, f) == At(t.pts, f) + if f == d then Fallback(ander, d) else {}
  }

  lemma {:induction false} GivingUpStaysWithin(g: Graph, ander: Conservative, t: Snapshot, u: Snapshot, d: Item)
    requires WellFormed(g) && Sound(g, ander) && IsItem(g, d)
    requires WithinLeast(g, ander, t) && Proper(g, u) && u.givenUp == t.givenUp
    requires AnsweredConservatively(g, ander, t, u, d)
    ensures At(u.pts, d) == Fallback(ander, d)
    ensures Below(u.pts, Least(g, ander, u.givenUp + {d}))
  {
    var more := u.givenUp + {d};
    FallbackBounds(g, ander, t.givenUp, d);
    FallbackBounds(g, ander, more, d);
    LeastGrows(g, ander, t.givenUp, more);
    ItemsComplete(g, d);
    forall f | f in u.pts
      ensures u.pts[f] <= At(Least(g, ander, more), f)
    {
      ItemsComplete(g, f);
      assert At(u.pts, f) == At(t.pts, f) + if f == d then Fallback(ander, d) else {};
      assert At(t.pts, f) <= At(Least(g, ander, t.givenUp), f) <= At(Least(g, ander, more), f);
    }
  }

  lemma {:induction false} GivingUpStaysClosed(g: Graph, ander: Conservative, s: Snapshot, t: Snapshot,
                                               r: Snapshot, d: Item)
    requires WellFormed(g) && Sound(g, ander) && IsItem(g, d) && d !in s.visited
    requires Proper(g, s) && Closed(g, ander, s) && WithinLeast(g, ander, s)
    requires Proper(g, t) && WithinLeast(g, ander, t) && t.givenUp == s.givenUp
    requires forall f :: IsItem(g, f) ==> At(s.pts, f) <= At(t.pts, f)
    requires Proper(g, r) && r.visited == s.visited + {d} && r.givenUp == s.givenUp + {d}
    requires AnsweredConservatively(g, ander, t, r, d)
    ensures Closed(g, ander, r)
  {
    hide WellFormed, Sound, Least, Flow, Fallback, Padded, WithinLeast, Settled, Proper, Below;
    SoundInRange(g, ander);
    var v := Snapshot(s.visited, {}, t.pts, false, s.givenUp, {});
    MixedProper(g, s, t);
    WithinIsBelow(g, ander, t);
    SettledSurvives(g, ander, s, v);
    PaddedLess(g, v, r, d);
    forall f | IsItem(g, f) && f in r.visited && f !in r.givenUp
      ensures Settled(g, r, f)
    {
      StaysSettled(g, v, r, f);
    }
  }

  lemma MixedProper(g: Graph, s: Snapshot, t: Snapshot)
    requires Proper(g, s) && Proper(g, t)
    ensures Proper(g, Snapshot(s.visited, {}, t.pts, false, s.givenUp, {}))
  {
  }

  lemma WithinIsBelow(g: Graph, ander: Conservative, s: Snapshot)
    requires WithinLeast(g, ander, s)
    ensures Below(s.pts, Least(g, ander, s.givenUp))
  {
    hide Least;
  }

  /** An item stays settled when less is assumed of what has not been visited. */
  lemma StaysSettled(g: Graph, v: Snapshot, r: Snapshot, f: Item)
    requires WellFormed(g) && IsItem(g, f) && Settled(g, v, f)
    requires At(v.pts, f) <= At(r.pts, f)
    requires forall e :: IsItem(g, e) ==> At(Padded(g, r), e) <= At(Padded(g, v), e)
    ensures Settled(g, r, f)
  {
    hide WellFormed, Flow, Padded;
    FlowMonotone(g, Padded(g, r), Padded(g, v), f);
  }

  /** A query that ran out of budget at `t` and was then answered conservatively. */
  lemma {:induction false} AbandonedQuery(g: Graph, ander: Conservative, s: Snapshot, t: Snapshot, u: Snapshot, d: Item)
    requires WellFormed(g) && Sound(g, ander)
    requires Resting(g, ander, s) && s == AfterReset(s)
    requires Advances(g, s, t) && Proper(g, t) && WithinLeast(g, ander, t) && t.exhausted
    requires t.givenUp !! t.recorded && d in t.recorded && d !in s.visited
    requires Advances(g, t, u) && Proper(g, u) && u.recorded <= u.visited && u.givenUp !! u.recorded
    requires AnsweredConservatively(g, ander, t, u, d)
    ensures Resting(g, ander, u.(givenUp := u.givenUp + {d}))
    ensures At(u.pts, d) == Fallback(ander, d)
    ensures AfterReset(u.(givenUp := u.givenUp + {d})).visited == s.visited + {d}
  {
    hide WellFormed, Sound, Least, Flow, Fallback, Padded, Settled;
    SoundInRange(g, ander);
    var z := u.(givenUp := u.givenUp + {d});
    ResetAfterGivingUp(g, s, t, u, d);
    GivingUpStaysWithin(g, ander, t, u, d);
    LeastIsBound(g, ander, z.givenUp);
    GivingUpStaysClosed(g, ander, s, t, AfterReset(z), d);
  }

  lemma ResetAfterGivingUp(g: Graph, s: Snapshot, t: Snapshot, u: Snapshot, d: Item)
    requires Proper(g, u) && Grows(g, s, t) && Grows(g, t, u) && s.recorded == {}
    requires u.exhausted && u.givenUp !! u.recorded && d in t.recorded && u.recorded <= u.visited
    ensures AfterReset(u.(givenUp := u.givenUp + {d})).visited == s.visited + {d}
    ensures Proper(g, AfterReset(u.(givenUp := u.givenUp + {d})))
  {
  }

  lemma PaddedLess(g: Graph, s: Snapshot, t: Snapshot, d: Item)
    requires t.visited == s.visited + {d} && d !in s.visited && Proper(g, t)
    requires forall f :: IsItem(g, f) && f != d ==> At(t.pts, f) == At(s.pts, f)
    ensures forall f :: IsItem(g, f) ==> At(Padded(g, t), f) <= At(Padded(g, s), f)
  {
    forall f | IsItem(g, f)
      ensures At(Padded(g, t), f) <= At(Padded(g, s), f)
    {
      ItemsComplete(g, f);
    }
  }

  /** Answers are never worse than the conservative analysis and never miss a target of the exact
      solution; they are exact as long as no query has been given up. */
  lemma AnswersAreSound(g: Graph, ander: Conservative, givenUp: set<Item>, d: Item)
    requires WellFormed(g) && Sound(g, ander) && IsItem(g, d)
    ensures At(Least(g, ander, {}), d) <= At(Least(g, ander, givenUp), d) <= Fallback(ander, d)
  {
    LeastGrows(g, ander, {}, givenUp);
    FallbackBounds(g, ander, givenUp, d);
    ItemsComplete(g, d);
  }
}
