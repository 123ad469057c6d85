/** When the flag propagation ends: a run that never does lowers the exits of loops again and again,
    and some of them feed each other. */
module ForkJoinTermination {
  import opened ForkJoin
  import opened ForkJoinFixpoint
  import opened Recurrence
  import opened Worklists

  // ---------------------------------------------------------------- one round

  /** The next round visits another statement, not a join, that leads to `s`. */
  predicate Fed(p: Program, l: State, s: Stmt)
    requires l.work != []
  {
    l.work[0] !in p.joins && l.work[0] != s && s in Next(p, l.work[0])
  }

  /** How far `s` is on its way to a flag that stays, unless `s` is fed. */
  function Settling(l: State, s: Stmt): int {
    (match Get(l.flags, s) case Empty => 0 case TDAlive => 1 case TDDead => 2) - if s in l.work then 1 else 0
  }

  lemma {:induction false} MarkAllUnfed(l: State, tgrs: seq<Stmt>, src: Stmt, s: Stmt)
    requires src == s || s !in tgrs || Get(l.flags, src) != TDAlive
    ensures Settling(l, s) <= Settling(MarkAll(l, tgrs, src), s)
    decreases |tgrs|
  {
    if tgrs != [] {
      MarkAt(l, tgrs[0], src);
      MarkAllUnfed(Mark(l, tgrs[0], src), tgrs[1..], src, s);
    }
  }

  lemma {:induction false} SetAllUnfed(l: State, tgrs: seq<Stmt>, s: Stmt)
    ensures Settling(l, s) <= Settling(SetAll(l, tgrs, TDDead), s)
    decreases |tgrs|
  {
    if tgrs != [] {
      SetAt(l, tgrs[0], TDDead);
      SetAllUnfed(SetFlag(l, tgrs[0], TDDead), tgrs[1..], s);
    }
  }

  lemma TakenUnfed(p: Program, l: State, s: Stmt)
    requires l.work != [] && Sane(l)
    ensures Settling(l, s) + (if l.work[0] == s then 1 else 0) <= Settling(Taken(p, l), s)
  {
    var b, r := l.work[0], l.(work := l.work[1..]);
    assert forall a :: a in l.work <==> a == b || a in r.work;
    if b in p.joins {
      SetAt(r, b, TDDead);
    } else {
      SetAllUnfed(r, Exits(p, b), s);
    }
  }

  lemma VisitUnfed(p: Program, l: State, s: Stmt)
    requires l.work != [] && Sane(l) && !Fed(p, l, s)
    ensures Settling(l, s) + (if l.work[0] == s then 1 else 0) <= Settling(Visit(p, l), s)
  {
    hide Settling, Taken, Sane;
    var b := l.work[0];
    TakenSane(p, l);
    TakenUnfed(p, l, s);
    MarkAllUnfed(Taken(p, l), Next(p, b), b, s);
    VisitIs(p, l);
    RecordedSettling(MarkAll(Taken(p, l), Next(p, b), b), b, s);
  }

  lemma RecordedSettling(l: State, b: Stmt, s: Stmt)
    ensures Settling(Recorded(l, b), s) == Settling(l, s)
  {
  }

  lemma VisitUnlowered(p: Program, l: State, s: Stmt)
    requires l.work != [] && Sane(l) && s !in p.joins && s !in Lowered(p, l)
    ensures Height(l, s) + (if l.work[0] == s then 1 else 0) <= Height(Visit(p, l), s)
  {
    assert forall a :: a in l.work <==> a == l.work[0] || a in l.work[1..];
    VisitClimbs(p, l, s);
  }

  function Height(l: State, s: Stmt): int {
    Rank(Get(l.flags, s)) - if s in l.work then 1 else 0
  }

  // ---------------------------------------------------------------- visits

  /** How often, in the first `n` rounds, `s` was fed. */
  function Feeds(p: Program, n: nat, s: Stmt): nat {
    if n == 0 then 0
    else
      var l := Rounds(p, n - 1);
      Feeds(p, n - 1, s) + if l.work != [] && Fed(p, l, s) then 1 else 0
  }

  lemma {:induction false} SettlingBounds(p: Program, n: nat, s: Stmt)
    ensures Visits(p, n, s) <= Settling(Rounds(p, n), s) + 2 * Feeds(p, n, s)
  {
    hide Visit, Fed;
    RoundsSane(p, n);
    if n > 0 {
      SettlingBounds(p, n - 1, s);
      RoundsSane(p, n - 1);
      var l := Rounds(p, n - 1);
      if l.work != [] {
        if Fed(p, l, s) {
          FedIsOther(p, l, s);
        } else {
          VisitUnfed(p, l, s);
        }
      }
    }
  }

  lemma FedIsOther(p: Program, l: State, s: Stmt)
    requires l.work != [] && Fed(p, l, s)
    ensures l.work[0] != s
  {
  }

  /** Any statement, joins and lowered exits included, is visited at most twice, and twice more for
      each visit of a statement before it. */
  lemma VisitsPerFeed(p: Program, n: nat, s: Stmt)
    ensures Visits(p, n, s) <= 2 + 2 * Feeds(p, n, s)
  {
    hide Feeds, Visits, Rounds;
    SettlingBounds(p, n, s);
  }

  // ---------------------------------------------------------------- runs that never end

  function Head(p: Program, k: nat): Stmt {
    var work := Rounds(p, k).work;
    if work == [] then 0 else work[0]
  }

  function Heads(p: Program): nat -> Stmt {
    (k: nat) => Head(p, k)
  }

  ghost predicate NeverEnds(p: Program) {
    forall k: nat :: Rounds(p, k).work != []
  }

  /** Every statement of a run that never ends and keeps being visited keeps being fed. */
  lemma FedAgain(p: Program, s: Stmt, n: nat) returns (k: nat)
    requires NeverEnds(p) && Recurs(Heads(p), s)
    ensures n <= k && Fed(p, Rounds(p, k), s)
  {
    hide Rounds, Fed, Visit;
    var h, q := Heads(p), (k: nat) => Settling(Rounds(p, k), s);
    if forall k: nat :: n <= k ==> !Fed(p, Rounds(p, k), s) {
      forall k: nat | n <= k
        ensures q(k) + (if h(k) == s then 1 else 0) <= q(k + 1)
      {
        RoundsSane(p, k);
        RoundsNext(p, k);
        VisitUnfed(p, Rounds(p, k), s);
      }
      NoPotential(h, s, q, n, 2);
      assert false;
    }
    k :| n <= k && Fed(p, Rounds(p, k), s);
  }

  /** ... and, if it is not a join, being lowered. */
  lemma LoweredAgain(p: Program, s: Stmt, n: nat) returns (k: nat)
    requires NeverEnds(p) && s !in p.joins && Recurs(Heads(p), s)
    ensures n <= k && s in Lowered(p, Rounds(p, k))
  {
    hide Rounds, Lowered, Visit;
    var h, q := Heads(p), (k: nat) => Height(Rounds(p, k), s);
    if forall k: nat :: n <= k ==> s !in Lowered(p, Rounds(p, k)) {
      forall k: nat | n <= k
        ensures q(k) + (if h(k) == s then 1 else 0) <= q(k + 1)
      {
        RoundsSane(p, k);
        RoundsNext(p, k);
        VisitUnlowered(p, Rounds(p, k), s);
      }
      NoPotential(h, s, q, n, 2);
      assert false;
    }
    k :| n <= k && s in Lowered(p, Rounds(p, k));
  }

  lemma RoundsNext(p: Program, n: nat)
    requires Rounds(p, n).work != []
    ensures Rounds(p, n + 1) == Visit(p, Rounds(p, n))
  {
    hide Visit;
  }

  ghost function Statements(p: Program): set<Stmt> {
    (set s | s in p.seeds) + (set s, t | s in p.next && t in p.next[s] :: t) +
    (set s, e | s in p.exits && e in p.exits[s] :: e)
  }

  lemma {:induction false} SetAllWithin(l: State, tgrs: seq<Stmt>, f: Flag, u: set<Stmt>)
    requires (forall s :: s in l.work ==> s in u) && forall s :: s in tgrs ==> s in u
    ensures forall s :: s in SetAll(l, tgrs, f).work ==> s in u
    decreases |tgrs|
  {
    if tgrs != [] {
      SetAllWithin(SetFlag(l, tgrs[0], f), tgrs[1..], f, u);
    }
  }

  lemma {:induction false} MarkAllWithin(l: State, tgrs: seq<Stmt>, src: Stmt, u: set<Stmt>)
    requires (forall s :: s in l.work ==> s in u) && forall s :: s in tgrs ==> s in u
    ensures forall s :: s in MarkAll(l, tgrs, src).work ==> s in u
    decreases |tgrs|
  {
    if tgrs != [] {
      MarkAllWithin(Mark(l, tgrs[0], src), tgrs[1..], src, u);
    }
  }

  lemma StatementsHas(p: Program, s: Stmt)
    ensures forall t :: t in p.seeds || t in Next(p, s) || t in Exits(p, s) ==> t in Statements(p)
  {
  }

  lemma VisitWithin(p: Program, l: State, u: set<Stmt>)
    requires l.work != [] && u == Statements(p) && forall s :: s in l.work ==> s in u
    ensures forall s :: s in Visit(p, l).work ==> s in u
  {
    hide Statements;
    var s, r := l.work[0], l.(work := l.work[1..]);
    StatementsHas(p, s);
    if s !in p.joins {
      SetAllWithin(r, Exits(p, s), TDDead, u);
    }
    MarkAllWithin(Taken(p, l), Next(p, s), s, u);
  }

  lemma {:induction false} RoundsWithin(p: Program, n: nat)
    ensures forall s :: s in Rounds(p, n).work ==> s in Statements(p)
  {
    hide Visit, Statements;
    if n == 0 {
      StatementsHas(p, 0);
      SetAllWithin(State(map[], [], {}, {}), p.seeds, TDAlive, Statements(p));
    } else {
      RoundsWithin(p, n - 1);
      if Rounds(p, n - 1).work != [] {
        VisitWithin(p, Rounds(p, n - 1), Statements(p));
      }
    }
  }

  ghost predicate FedWithin(p: Program, w: set<Stmt>, s: Stmt) {
    exists b :: b in w && b != s && s in Next(p, b)
  }

  ghost predicate ExitWithin(p: Program, w: set<Stmt>, s: Stmt) {
    exists j :: j in w && s in Exits(p, j)
  }

  /** Each statement of `w` is fed by another and is an exit of a loop that joins in `w`. */
  ghost predicate Restless(p: Program, w: set<Stmt>) {
    && w != {} && w !! p.joins
    && forall s {:trigger FedWithin(p, w, s)} :: s in w ==> FedWithin(p, w, s) && ExitWithin(p, w, s)
  }

  /** From round `n` on, only what recurs is visited. */
  ghost predicate RecurringFrom(p: Program, n: nat) {
    forall k: nat :: n <= k ==> Head(p, k) in Recurring(Heads(p), Statements(p))
  }

  lemma RecurringHeads(p: Program) returns (n: nat)
    requires NeverEnds(p)
    ensures RecurringFrom(p, n)
  {
    hide Rounds, Statements, Recurring;
    n := EventuallyRecurring(Heads(p), Statements(p), Statements(p));
    forall k: nat | n <= k
      ensures Head(p, k) in Recurring(Heads(p), Statements(p))
    {
      RoundsWithin(p, k);
      assert Heads(p)(k) in Statements(p);
    }
  }

  lemma Feeder(p: Program, s: Stmt, n: nat) returns (b: Stmt)
    requires NeverEnds(p) && RecurringFrom(p, n) && Recurs(Heads(p), s)
    ensures b in Recurring(Heads(p), Statements(p)) - p.joins && b != s && s in Next(p, b)
  {
    hide Rounds, Statements, Recurring, Recurs;
    var k := FedAgain(p, s, n);
    b := Head(p, k);
  }

  lemma Lowerer(p: Program, s: Stmt, n: nat) returns (j: Stmt)
    requires NeverEnds(p) && RecurringFrom(p, n) && s !in p.joins && Recurs(Heads(p), s)
    ensures j in Recurring(Heads(p), Statements(p)) - p.joins && s in Exits(p, j)
  {
    hide Rounds, Statements, Recurring, Recurs;
    var k := LoweredAgain(p, s, n);
    j := Head(p, k);
  }

  lemma Recurrent(p: Program, s: Stmt)
    requires s in Recurring(Heads(p), Statements(p))
    ensures Recurs(Heads(p), s)
  {
  }

  lemma IsRestless(p: Program, w: set<Stmt>, a: Stmt)
    requires a in w && w !! p.joins
    requires forall s {:trigger FedWithin(p, w, s)} :: s in w ==> FedWithin(p, w, s) && ExitWithin(p, w, s)
    ensures Restless(p, w)
  {
    assert w != {};
  }

  lemma WithinBoth(p: Program, w: set<Stmt>, s: Stmt, b: Stmt, j: Stmt)
    requires b in w && b != s && s in Next(p, b) && j in w && s in Exits(p, j)
    ensures FedWithin(p, w, s) && ExitWithin(p, w, s)
  {
  }

  /** What a run that never ends visits again and again. */
  lemma NeverEndingIsRestless(p: Program) returns (w: set<Stmt>)
    requires NeverEnds(p)
    ensures Restless(p, w) && forall s :: s in w ==> Recurs(Heads(p), s)
  {
    hide Rounds, NeverEnds, Statements, Recurring, Recurs, Head, Heads, Next, Exits, FedWithin, ExitWithin, Restless;
    var n := RecurringHeads(p);
    w := Recurring(Heads(p), Statements(p)) - p.joins;
    Recurrent(p, Head(p, n));
    var b := Feeder(p, Head(p, n), n);
    forall s | s in w
      ensures Recurs(Heads(p), s) && FedWithin(p, w, s) && ExitWithin(p, w, s)
    {
      Recurrent(p, s);
      var b := Feeder(p, s, n);
      var j := Lowerer(p, s, n);
      WithinBoth(p, w, s, b, j);
    }
    IsRestless(p, w, b);
  }

  // ---------------------------------------------------------------- the analysis ends

  /** From round `n` on, no exit is lowered. */
  ghost predicate QuietFrom(p: Program, n: nat) {
    forall k: nat :: n <= k && Rounds(p, k).work != [] ==> Lowered(p, Rounds(p, k)) == {}
  }

  lemma EndedIsQuiet(p: Program, n: nat)
    requires Rounds(p, n).work == []
    ensures QuietFrom(p, n)
  {
    hide Rounds;
    forall k: nat | n <= k
      ensures Rounds(p, k).work == []
    {
      StaysEnded(p, n, k);
    }
  }

  lemma QuietEnds(p: Program, n: nat)
    requires QuietFrom(p, n)
    ensures !NeverEnds(p)
  {
    hide Rounds, Lowered, Restless, Recurs;
    if NeverEnds(p) {
      var w := NeverEndingIsRestless(p);
      var s := SomeOf(p, w);
      var k := LoweredAgain(p, s, n);
      assert false;
    }
  }

  lemma SomeOf(p: Program, w: set<Stmt>) returns (s: Stmt)
    requires Restless(p, w)
    ensures s in w && s !in p.joins
  {
    s :| s in w;
  }

  /** The analysis ends exactly if, from some round on, it lowers no exit. */
  lemma EndsIffQuiet(p: Program)
    ensures (exists k: nat :: Rounds(p, k).work == []) <==> exists n: nat :: QuietFrom(p, n)
  {
    hide Rounds, QuietFrom;
    if k: nat :| Rounds(p, k).work == [] {
      EndedIsQuiet(p, k);
    } else if n: nat :| QuietFrom(p, n) {
      QuietEnds(p, n);
    }
  }

  lemma {:induction false} StaysEnded(p: Program, k: nat, i: nat)
    requires Rounds(p, k).work == [] && k <= i
    ensures Rounds(p, i) == Rounds(p, k)
    decreases i
  {
    hide Visit;
    if k < i {
      StaysEnded(p, k, i - 1);
    }
  }

  /** In particular, it ends if it never lowers an exit ... */
  lemma EndsUnlessLowered(p: Program)
    requires forall n: nat :: NeverLowers(p, n)
    ensures exists k: nat :: Rounds(p, k).work == []
  {
    hide Rounds, Lowered;
    forall k: nat | Rounds(p, k).work != []
      ensures Lowered(p, Rounds(p, k)) == {}
    {
      assert NeverLowers(p, k + 1);
      LostNext(p, k);
    }
    assert QuietFrom(p, 0);
    EndsIffQuiet(p);
  }

  lemma LostNext(p: Program, n: nat)
    requires Rounds(p, n).work != []
    ensures Lowered(p, Rounds(p, n)) <= Lost(p, n + 1)
  {
  }

  /** ... and on every program whose joining loops do not lead into each other like this, */
  lemma Ends(p: Program)
    requires forall w :: !Restless(p, w)
    ensures exists k: nat :: Rounds(p, k).work == []
  {
    hide Rounds;
    if NeverEnds(p) {
      var w := NeverEndingIsRestless(p);
      assert false;
    }
  }

  /** which then keeps lowering no exits. */
  lemma CalmIsQuiet(p: Program)
    requires forall w :: !Restless(p, w)
    ensures exists n: nat :: QuietFrom(p, n)
  {
    hide Rounds, Restless, QuietFrom;
    Ends(p);
    EndsIffQuiet(p);
  }
}
