/** Thread-alive flags of one spawned thread, propagated from its fork site through the statements
    that follow, as functions on values. */
module ForkJoin {
  import opened Worklists

  /** A context-sensitive statement. */
  type Stmt = nat

  datatype Flag = Empty | TDAlive | TDDead

  type FlagMap = map<Stmt, Flag>

  /** `next(s)` are the statements that the handler of `s` marks with the flag of `s`; `joins` are
      the joins of the thread outside of loops, and `exits` lists, for a join of the thread in a
      loop, the loop's exits. The terminator that closes the header of such a loop marks only
      successors inside the loop, so its `next` leaves the exits out; exits can still be successors
      of other blocks, in the loop or before it. */
  datatype Program = Program(seeds: seq<Stmt>, joins: set<Stmt>, exits: map<Stmt, seq<Stmt>>, next: map<Stmt,
      seq<Stmt>>)

  /** `alive` and `dead` record the flags with which statements were visited. */
  datatype State = State(flags: FlagMap, work: seq<Stmt>, alive: set<Stmt>, dead: set<Stmt>)

  function Get(m: FlagMap, s: Stmt): Flag {
    if s in m then m[s] else Empty
  }

  /** Looking a flag up creates its entry. */
  function Touch(m: FlagMap, s: Stmt): (r: FlagMap)
    ensures forall x {:trigger Get(r, x)} :: Get(r, x) == Get(m, x)
  {
    m[s := Get(m, s)]
  }

  function Put(m: FlagMap, s: Stmt, f: Flag): (r: FlagMap)
    ensures forall x {:trigger Get(r, x)} :: Get(r, x) == if x == s then f else Get(m, x)
  {
    m[s := f]
  }

  function Next(p: Program, s: Stmt): seq<Stmt> {
    if s in p.next then p.next[s] else []
  }

  function Exits(p: Program, s: Stmt): seq<Stmt> {
    if s in p.exits then p.exits[s] else []
  }

  // ---------------------------------------------------------------- operations

  /** The initializing form: overwrites the flag. */
  function SetFlag(l: State, tgr: Stmt, f: Flag): State {
    l.(flags := Put(l.flags, tgr, f), work := if Get(l.flags, tgr) != f then Push(l.work, tgr) else l.work)
  }

  function SetAll(l: State, tgrs: seq<Stmt>, f: Flag): State
    decreases |tgrs|
  {
    if tgrs == [] then l else SetAll(SetFlag(l, tgrs[0], f), tgrs[1..], f)
  }

  function Meet(tgr: Flag, src: Flag): Flag {
    match tgr
    case Empty => src
    case TDDead => if src == TDAlive then TDAlive else TDDead
    case TDAlive => TDAlive
  }

  /** The transfer function. */
  function Mark(l: State, tgr: Stmt, src: Stmt): State {
    var f := Meet(Get(l.flags, tgr), Get(l.flags, src));
    l.(flags := Put(Touch(l.flags, src), tgr, f), work := if Get(l.flags, tgr) != f then Push(l.work, tgr) else l.work)
  }

  function MarkAll(l: State, tgrs: seq<Stmt>, src: Stmt): State
    decreases |tgrs|
  {
    if tgrs == [] then l else MarkAll(Mark(l, tgrs[0], src), tgrs[1..], src)
  }

  /** What a join of the thread does before it marks its successors. */
  function Joined(p: Program, l: State, s: Stmt): State {
    if s in p.joins then SetFlag(l, s, TDDead)
    else SetAll(l, Exits(p, s), TDDead)
  }

  /** Records the flag of a visited statement. */
  function Recorded(l: State, s: Stmt): State {
    if Get(l.flags, s) != TDAlive then l.(flags := Touch(l.flags, s), dead := l.dead + {s})
    else l.(flags := Touch(l.flags, s), alive := l.alive + {s})
  }

  /** One round of the analysis. */
  function Visit(p: Program, l: State): State
    requires l.work != []
  {
    var s := l.work[0];
    Recorded(MarkAll(Joined(p, l.(work := l.work[1..]), s), Next(p, s), s), s)
  }

  function Init(p: Program): State {
    SetAll(State(map[], [], {}, {}), p.seeds, TDAlive)
  }

  /** The state after `n` rounds; the analysis stays put once the queue is empty. */
  function Rounds(p: Program, n: nat): State {
    if n == 0 then Init(p)
    else
      var l := Rounds(p, n - 1);
      if l.work == [] then l else Visit(p, l)
  }

  /** How often `s` was visited in the first `n` rounds. */
  function Visits(p: Program, n: nat, s: Stmt): nat {
    if n == 0 then 0
    else
      var l := Rounds(p, n - 1);
      Visits(p, n - 1, s) + if l.work != [] && l.work[0] == s then 1 else 0
  }

  // ---------------------------------------------------------------- the semilattice

  /** The height in the semilattice, which is not the order in which the flags are declared. */
  function Rank(f: Flag): nat {
    match f
    case Empty => 0
    case TDDead => 1
    case TDAlive => 2
  }

  predicate Leq(a: Flag, b: Flag) {
    Rank(a) <= Rank(b)
  }

  /** The transfer function takes the least upper bound. */
  lemma MeetIsLub(a: Flag, b: Flag, c: Flag)
    ensures Leq(a, Meet(a, b)) && Leq(b, Meet(a, b))
    ensures Leq(a, c) && Leq(b, c) ==> Leq(Meet(a, b), c)
  {
  }

  /** What of `f` a statement passes on: past a join, the thread is not alive. */
  function Through(p: Program, s: Stmt, f: Flag): Flag {
    if s in p.joins && f == TDAlive then TDDead else f
  }
}
