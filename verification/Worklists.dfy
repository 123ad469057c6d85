/** A first-in-first-out worklist that refuses what it already holds. */
module Worklists {

  function Push(work: seq<nat>, s: nat): seq<nat> {
    if s in work then work else work + [s]
  }

  function PushAll(work: seq<nat>, ss: seq<nat>): seq<nat>
    decreases |ss|
  {
    if ss == [] then work else PushAll(Push(work, ss[0]), ss[1..])
  }

  ghost predicate NoDuplicates(work: seq<nat>) {
    forall i, j :: 0 <= i < j < |work| ==> work[i] != work[j]
  }

  lemma {:induction false} PushAllMembers(work: seq<nat>, ss: seq<nat>, x: nat)
    ensures x in PushAll(work, ss) <==> x in work || x in ss
    decreases |ss|
  {
    if ss != [] {
      PushAllMembers(Push(work, ss[0]), ss[1..], x);
    }
  }

  lemma {:induction false} PushAllNoDuplicates(work: seq<nat>, ss: seq<nat>)
    requires NoDuplicates(work)
    ensures NoDuplicates(PushAll(work, ss))
    ensures forall x :: x in PushAll(work, ss) <==> x in work || x in ss
    decreases |ss|
  {
    if ss != [] {
      PushAllNoDuplicates(Push(work, ss[0]), ss[1..]);
    }
  }
}
