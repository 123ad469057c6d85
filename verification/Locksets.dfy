/** Must-held locksets of context-sensitive statements and the worklist that propagates them,
    as functions on values. */
module Locksets {
  import opened Worklists

  /** A context-sensitive statement; a lock is identified with the statement that acquires it. */
  type Stmt = nat

  type LockMap = map<Stmt, set<Stmt>>

  /** `next(s)` are the statements that the handler of `s` marks, in its order. */
  datatype Cfg = Cfg(entries: seq<Stmt>, acquires: set<Stmt>, releases: set<Stmt>, next: map<Stmt, seq<Stmt>>)

  /** `span` maps a lock to the statements in its span, `held` a statement to its lockset, and
      `work` is the queue of statements to be visited. */
  datatype State = State(span: LockMap, held: LockMap, work: seq<Stmt>)

  function Get(m: LockMap, s: Stmt): set<Stmt> {
    if s in m then m[s] else {}
  }

  function Put(m: LockMap, s: Stmt, v: set<Stmt>): (r: LockMap)
    ensures forall x {:trigger Get(r, x)} :: Get(r, x) == if x == s then v else Get(m, x)
    ensures r.Keys == m.Keys + {s}
  {
    m[s := v]
  }

  /** Adds `s` to the spans of all of `ks`. */
  function Cover(m: LockMap, ks: set<Stmt>, s: Stmt): (r: LockMap)
    ensures forall x {:trigger Get(r, x)} :: Get(r, x) == Get(m, x) + if x in ks then {s} else {}
  {
    map k | k in m.Keys + ks :: Get(m, k) + if k in ks then {s} else {}
  }

  function Next(c: Cfg, s: Stmt): seq<Stmt> {
    if s in c.next then c.next[s] else []
  }

  // ---------------------------------------------------------------- operations

  function AddToSpan(l: State, s: Stmt, k: Stmt): State {
    l.(span := Put(l.span, k, Get(l.span, k) + {s}), held := Put(l.held, s, Get(l.held, s) + {k}))
  }

  function RemoveFromSpan(l: State, s: Stmt, k: Stmt): State {
    if k in Get(l.held, s) then
      l.(span := Put(l.span, k, Get(l.span, k) - {s}), held := Put(l.held, s, Get(l.held, s) - {k}))
    else
      Touch(l, s)
  }

  /** Looking a statement up creates its entry. */
  function Touch(l: State, s: Stmt): State {
    l.(held := Put(l.held, s, Get(l.held, s)))
  }

  /** Adds the locks `ks` to a statement one by one; without locks no entry is created. */
  function AddAll(l: State, s: Stmt, ks: set<Stmt>): State {
    if ks == {} then l
    else
      l.(span := Cover(l.span, ks, s), held := Put(l.held, s, Get(l.held, s) + ks))
  }

  /** The transfer function: the first mark copies the source's lockset, a later one intersects. */
  function Mark(l: State, tgr: Stmt, src: Stmt): State {
    if tgr !in l.held then
      var l' := AddAll(l, tgr, Get(l.held, src));
      l'.(work := Push(l'.work, tgr))
    else if Get(l.held, tgr) <= Get(l.held, src) then
      l
    else
      l.(held := Put(l.held, tgr, Get(l.held, tgr) * Get(l.held, src)), work := Push(l.work, tgr))
  }

  function MarkAll(l: State, tgrs: seq<Stmt>, src: Stmt): State
    decreases |tgrs|
  {
    if tgrs == [] then l else MarkAll(Mark(l, tgrs[0], src), tgrs[1..], src)
  }

  /** One round of the analysis: visits the statement at the head of the queue. */
  function Visit(c: Cfg, l: State): State
    requires l.work != []
  {
    var s := l.work[0];
    var l := Touch(l.(work := l.work[1..]), s);
    if s in c.acquires then
      var m := AddToSpan(l, s, s);
      if s in Get(l.held, s) then m else MarkAll(m, Next(c, s), s)
    else if s in c.releases then
      if s in Get(l.held, s) then MarkAll(RemoveFromSpan(l, s, s), Next(c, s), s) else l
    else
      MarkAll(l, Next(c, s), s)
  }

  function Init(c: Cfg): State {
    State(map[], map[], PushAll([], c.entries))
  }

  /** The state after `n` rounds; the analysis stays put once the queue is empty. */
  function Rounds(c: Cfg, n: nat): State {
    if n == 0 then Init(c)
    else
      var l := Rounds(c, n - 1);
      if l.work == [] then l else Visit(c, l)
  }

  // ---------------------------------------------------------------- locks and their spans

  /** A lock in a statement's lockset has the statement in its span. */
  ghost predicate SpansCover(l: State) {
    forall s, k :: k in Get(l.held, s) ==> s in Get(l.span, k)
  }

  /** ... and the other way round. */
  ghost predicate SpansExact(l: State) {
    forall s, k :: k in Get(l.held, s) <==> s in Get(l.span, k)
  }

  lemma AddRemoveExact(l: State, s: Stmt, k: Stmt)
    requires SpansExact(l)
    ensures SpansExact(AddToSpan(l, s, k)) && SpansExact(RemoveFromSpan(l, s, k))
  {
  }

  /** Removing takes away the one pair from both maps, if the lock was held, and nothing else. */
  lemma RemoveIff(l: State, s: Stmt, k: Stmt, t: Stmt, j: Stmt)
    ensures j in Get(RemoveFromSpan(l, s, k).held, t) <==> j in Get(l.held, t) && !(t == s && j == k)
    ensures t in Get(RemoveFromSpan(l, s, k).span, j) <==>
      t in Get(l.span, j) && !(k in Get(l.held, s) && t == s && j == k)
    ensures s in RemoveFromSpan(l, s, k).held && RemoveFromSpan(l, s, k).work == l.work
  {
  }

  lemma AddRemoveCover(l: State, s: Stmt, k: Stmt)
    requires SpansCover(l)
    ensures SpansCover(AddToSpan(l, s, k)) && SpansCover(RemoveFromSpan(l, s, k)) && SpansCover(Touch(l, s))
  {
  }

  lemma MarkCovers(l: State, tgr: Stmt, src: Stmt)
    requires SpansCover(l)
    ensures SpansCover(Mark(l, tgr, src))
  {
  }

  /** The transfer function keeps spans exact unless it takes a lock away: it erases the lock from
      the lockset but not the statement from the span. */
  lemma MarkExactUnless(l: State, tgr: Stmt, src: Stmt)
    requires SpansExact(l)
    ensures SpansExact(Mark(l, tgr, src)) <==>
            (tgr in l.held ==> Get(l.held, tgr) <= Get(l.held, src))
  {
    if tgr in l.held && !(Get(l.held, tgr) <= Get(l.held, src)) {
      var k :| k in Get(l.held, tgr) && k !in Get(l.held, src);
      var m := Mark(l, tgr, src);
      assert tgr in Get(m.span, k) && k !in Get(m.held, tgr);
    }
  }
}
