/** Points-to sets by variable with their reverse index, and the sets that difference
    propagation keeps beside them. */
module PointsToData {

  /** Pointers and objects share one identifier space. */
  type NodeId = nat
  type EdgeId = nat

  type PtsMap = map<NodeId, set<NodeId>>

  function Get(m: PtsMap, v: NodeId): set<NodeId> {
    if v in m then m[v] else {}
  }

  /** Looking a variable up creates its entry. */
  function Touch(m: PtsMap, v: NodeId): (r: PtsMap)
    ensures forall x {:trigger Get(r, x)} :: Get(r, x) == Get(m, x)
  {
    m[v := Get(m, v)]
  }

  function AddTo(m: PtsMap, v: NodeId, more: set<NodeId>): (r: PtsMap)
    ensures forall x {:trigger Get(r, x)} :: Get(r, x) == Get(m, x) + if x == v then more else {}
  {
    m[v := Get(m, v) + more]
  }

  /** The reverse index says exactly who points to what. */
  ghost predicate Mirrors(pts: PtsMap, rev: PtsMap) {
    forall v, o :: o in Get(pts, v) <==> v in Get(rev, o)
  }

  class DiffPtsData {
    var ptsMap: PtsMap
    var revPtsMap: PtsMap
    var diffPtsMap: PtsMap
    var propaPtsMap: PtsMap
    var cacheMap: map<EdgeId, set<NodeId>>

    constructor ()
      ensures ptsMap == map[] && revPtsMap == map[] && diffPtsMap == map[] && propaPtsMap == map[]
      ensures cacheMap == map[]
      ensures Consistent()
    {
      ptsMap, revPtsMap, diffPtsMap, propaPtsMap, cacheMap := map[], map[], map[], map[], map[];
    }

    ghost predicate Consistent()
      reads this
    {
      Mirrors(ptsMap, revPtsMap)
    }

    /** `dst` points to the object `src`. */
    method AddPts(dst: NodeId, src: NodeId) returns (changed: bool)
      requires Consistent()
      modifies this`ptsMap, this`revPtsMap
      ensures Consistent()
      ensures ptsMap == AddTo(old(ptsMap), dst, {src})
      ensures changed <==> Get(ptsMap, dst) != Get(old(ptsMap), dst)
    {
      revPtsMap := AddTo(revPtsMap, src, {dst});
      changed := src !in Get(ptsMap, dst);
      ptsMap := AddTo(ptsMap, dst, {src});
    }

    /** `dst` points to everything that `src` points to. */
    method UnionPtsOf(dst: NodeId, src: NodeId) returns (changed: bool)
      requires Consistent()
      modifies this`ptsMap, this`revPtsMap
      ensures Consistent()
      ensures ptsMap == AddTo(Touch(old(ptsMap), src), dst, Get(old(ptsMap), src))
      ensures changed <==> Get(ptsMap, dst) != Get(old(ptsMap), dst)
    {
      ptsMap := Touch(ptsMap, src);
      changed := UnionPts(dst, Get(ptsMap, src));
    }

    /** `dst` points to every object of `data`. */
    method UnionPts(dst: NodeId, data: set<NodeId>) returns (changed: bool)
      requires Consistent()
      modifies this`ptsMap, this`revPtsMap
      ensures Consistent()
      ensures ptsMap == AddTo(old(ptsMap), dst, data)
      ensures changed <==> Get(ptsMap, dst) != Get(old(ptsMap), dst)
    {
      AddRevPts(data, dst);
      changed := Get(ptsMap, dst) + data != Get(ptsMap, dst);
      ptsMap := AddTo(ptsMap, dst, data);
    }

    method AddRevPts(data: set<NodeId>, tgr: NodeId)
      modifies this`revPtsMap
      ensures forall o :: Get(revPtsMap, o) == Get(old(revPtsMap), o) + if o in data then {tgr} else {}
    {
      var todo := data;
      while todo != {}
        invariant todo <= data
        invariant forall o :: Get(revPtsMap, o) ==
                    Get(old(revPtsMap), o) + if o in data && o !in todo then {tgr} else {}
        decreases todo
      {
        var o :| o in todo;
        todo := todo - {o};
        revPtsMap := AddTo(revPtsMap, o, {tgr});
      }
    }

    /** Sets the difference of `v` to the part of `all` that has not been propagated, and counts all
        of it as propagated. */
    method ComputeDiffPts(v: NodeId, all: set<NodeId>) returns (changed: bool)
      modifies this`diffPtsMap, this`propaPtsMap
      ensures Get(diffPtsMap, v) == all - Get(old(propaPtsMap), v)
      ensures Get(propaPtsMap, v) == all
      ensures forall x :: x != v ==>
                Get(diffPtsMap, x) == Get(old(diffPtsMap), x) && Get(propaPtsMap, x) == Get(old(propaPtsMap), x)
      ensures changed <==> !(all <= Get(old(propaPtsMap), v))
    {
      var diff := all - Get(propaPtsMap, v);
      diffPtsMap := diffPtsMap[v := diff];
      propaPtsMap := propaPtsMap[v := all];
      changed := diff != {};
      if o :| o in all && o !in Get(old(propaPtsMap), v) {
        assert o in diff;
      }
    }

    /** The differences that a series of calls for `v` yields, one for each set that is found. */
    method ComputeDiffs(v: NodeId, alls: seq<set<NodeId>>) returns (ds: seq<set<NodeId>>)
      modifies this`diffPtsMap, this`propaPtsMap
      ensures ds == Diffs(alls, Get(old(propaPtsMap), v))
      ensures Get(propaPtsMap, v) == if alls == [] then Get(old(propaPtsMap), v) else alls[|alls| - 1]
      ensures forall x :: x != v ==>
                Get(diffPtsMap, x) == Get(old(diffPtsMap), x) && Get(propaPtsMap, x) == Get(old(propaPtsMap), x)
    {
      ds := [];
      var i := 0;
      while i < |alls|
        invariant 0 <= i <= |alls|
        invariant ds + Diffs(alls[i..], Get(propaPtsMap, v)) == Diffs(alls, Get(old(propaPtsMap), v))
        invariant Get(propaPtsMap, v) == if i == 0 then Get(old(propaPtsMap), v) else alls[i - 1]
        invariant forall x :: x != v ==>
                    Get(diffPtsMap, x) == Get(old(diffPtsMap), x) && Get(propaPtsMap, x) == Get(old(propaPtsMap), x)
      {
        ghost var rest := Diffs(alls[i..], Get(propaPtsMap, v));
        var _ := ComputeDiffPts(v, alls[i]);
        assert rest == [Get(diffPtsMap, v)] + Diffs(alls[i + 1..], alls[i]) by {
          assert alls[i..][1..] == alls[i + 1..];
        }
        ds := ds + [Get(diffPtsMap, v)];
        i := i + 1;
      }
    }

    /** Only what both have propagated counts as propagated by `dst`. */
    method UpdatePropaPts(src: NodeId, dst: NodeId)
      modifies this`propaPtsMap
      ensures Get(propaPtsMap, dst) == Get(old(propaPtsMap), dst) * Get(old(propaPtsMap), src)
      ensures forall x :: x != dst ==> Get(propaPtsMap, x) == Get(old(propaPtsMap), x)
    {
      propaPtsMap := Touch(propaPtsMap, src);
      propaPtsMap := propaPtsMap[dst := Get(propaPtsMap, dst) * Get(propaPtsMap, src)];
    }

    method ClearPropaPts(v: NodeId)
      modifies this`propaPtsMap
      ensures Get(propaPtsMap, v) == {}
      ensures forall x :: x != v ==> Get(propaPtsMap, x) == Get(old(propaPtsMap), x)
    {
      propaPtsMap := propaPtsMap[v := {}];
    }

    method AddCachePts(e: EdgeId, data: set<NodeId>)
      modifies this`cacheMap
      ensures cacheMap.Keys == old(cacheMap.Keys) + {e}
      ensures cacheMap[e] == data + if e in old(cacheMap) then old(cacheMap)[e] else {}
      ensures forall x :: x in old(cacheMap) && x != e ==> cacheMap[x] == old(cacheMap)[x]
    {
      cacheMap := cacheMap[e := (if e in cacheMap then cacheMap[e] else {}) + data];
    }
  }

  // ---------------------------------------------------------------- successive differences

  /** What a series of difference computations for one variable yields, when it finds `alls[i]` at
      the i-th call and `propa` had been propagated before the first. */
  function Diffs(alls: seq<set<NodeId>>, propa: set<NodeId>): (ds: seq<set<NodeId>>)
    ensures |ds| == |alls|
  {
    if alls == [] then [] else [alls[0] - propa] + Diffs(alls[1..], alls[0])
  }

  ghost predicate Growing(alls: seq<set<NodeId>>, propa: set<NodeId>) {
    forall i, j :: 0 <= i <= j < |alls| ==> propa <= alls[i] <= alls[j]
  }

  /** Every object is handed on exactly once: at the first call that finds it. */
  lemma {:induction false} EachObjectOnce(alls: seq<set<NodeId>>, propa: set<NodeId>, i: nat, o: NodeId)
    requires Growing(alls, propa) && i < |alls|
    ensures o in Diffs(alls, propa)[i] <==>
            o in alls[i] && o !in propa && forall j :: 0 <= j < i ==> o !in alls[j]
  {
    if i > 0 {
      EachObjectOnce(alls[1..], alls[0], i - 1, o);
      assert forall j :: 0 < j < i ==> alls[j] == alls[1..][j - 1];
      assert forall j :: 0 <= j < i - 1 ==> alls[1..][j] == alls[j + 1];
    }
  }

  /** The differences are pairwise disjoint ... */
  lemma DiffsDisjoint(alls: seq<set<NodeId>>, propa: set<NodeId>, i: nat, j: nat)
    requires Growing(alls, propa) && i < j < |alls|
    ensures Diffs(alls, propa)[i] !! Diffs(alls, propa)[j]
  {
    forall o | o in Diffs(alls, propa)[i]
      ensures o !in Diffs(alls, propa)[j]
    {
      EachObjectOnce(alls, propa, i, o);
      EachObjectOnce(alls, propa, j, o);
    }
  }

  lemma {:induction false} HandedOn(alls: seq<set<NodeId>>, propa: set<NodeId>, o: NodeId) returns (i: nat)
    requires Growing(alls, propa) && alls != [] && o in alls[|alls| - 1] && o !in propa
    ensures i < |alls| && o in Diffs(alls, propa)[i]
    decreases |alls|
  {
    if o in alls[0] {
      i := 0;
    } else {
      var rest := alls[1..];
      assert forall j :: 0 <= j < |rest| ==> rest[j] == alls[j + 1];
      i := HandedOn(rest, alls[0], o);
      i := i + 1;
    }
  }

  /** ... and together they make up the last set that was found. */
  lemma DiffsComplete(alls: seq<set<NodeId>>, propa: set<NodeId>, o: NodeId)
    requires Growing(alls, propa) && alls != []
    ensures o in alls[|alls| - 1] <==> o in propa || exists i :: 0 <= i < |alls| && o in Diffs(alls, propa)[i]
  {
    var last := |alls| - 1;
    assert propa <= alls[0] <= alls[last];
    forall i | 0 <= i < |alls| && o in Diffs(alls, propa)[i]
      ensures o in alls[last]
    {
      EachObjectOnce(alls, propa, i, o);
    }
    if o in alls[last] && o !in propa {
      var i := HandedOn(alls, propa, o);
    }
  }
}
