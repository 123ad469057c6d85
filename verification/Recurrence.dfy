/** Runs that never end: what a worklist over finitely many statements visits again and again. */
module Recurrence {

  /** `h(k)` is what is visited in round `k`; `s` is visited infinitely often. */
  ghost predicate Recurs(h: nat -> nat, s: nat) {
    forall n: nat :: Again(h, s, n)
  }

  ghost predicate Again(h: nat -> nat, s: nat, n: nat) {
    exists m: nat :: n <= m && h(m) == s
  }

  ghost function Recurring(h: nat -> nat, u: set<nat>): set<nat> {
    set s | s in u && Recurs(h, s)
  }

  /** From some round on, nothing is visited but what is visited again and again. */
  lemma {:induction false} EventuallyRecurring(h: nat -> nat, u: set<nat>, v: set<nat>) returns (n: nat)
    requires v <= u
    ensures forall k: nat :: n <= k && h(k) in v ==> h(k) in Recurring(h, u)
    decreases v
  {
    n := 0;
    if s :| s in v {
      var m := EventuallyRecurring(h, u, v - {s});
      if Recurs(h, s) {
        n := m;
      } else {
        var k: nat :| !Again(h, s, k);
        n := if m < k then k else m;
        assert forall i: nat :: n <= i ==> h(i) != s;
      }
    }
  }

  /** A quantity that never falls, and rises whenever `s` is visited, has no bound if `s` recurs. */
  ghost predicate Potential(h: nat -> nat, s: nat, q: nat -> int, n: nat) {
    forall k: nat {:trigger h(k)} :: n <= k ==> q(k) + (if h(k) == s then 1 else 0) <= q(k + 1)
  }

  lemma {:induction false} NeverFalls(h: nat -> nat, s: nat, q: nat -> int, n: nat, m: nat)
    requires Potential(h, s, q, n) && n <= m
    ensures q(n) <= q(m)
    decreases m
  {
    if n < m {
      NeverFalls(h, s, q, n, m - 1);
      assert q(m - 1) + (if h(m - 1) == s then 1 else 0) <= q(m - 1 + 1);
    }
  }

  lemma {:induction false} RisesBy(h: nat -> nat, s: nat, q: nat -> int, n: nat, more: nat) returns (m: nat)
    requires Potential(h, s, q, n) && Recurs(h, s)
    ensures n <= m && q(n) + more <= q(m)
    decreases more
  {
    m := n;
    if more > 0 {
      var i := RisesBy(h, s, q, n, more - 1);
      assert Again(h, s, i);
      var j: nat :| i <= j && h(j) == s;
      NeverFalls(h, s, q, i, j) by {
        assert Potential(h, s, q, i);
      }
      m := j + 1;
    }
  }

  /** So what recurs has no bounded quantity of that kind. */
  lemma NoPotential(h: nat -> nat, s: nat, q: nat -> int, n: nat, bound: int)
    requires Recurs(h, s) && forall k: nat :: q(k) <= bound
    ensures !Potential(h, s, q, n)
  {
    if Potential(h, s, q, n) {
      var more := if bound < q(n) then 0 else bound - q(n) + 1;
      var m := RisesBy(h, s, q, n, more);
      assert false;
    }
  }
}
