/** The comparison of conditional points-to sets, which the maps that hold them rely on. */
module CondOrder {

  type Obj = nat

  // ---------------------------------------------------------------- listings

  ghost predicate StrictTotal<T(!new)>(lt: (T, T) -> bool) {
    && (forall x {:trigger lt(x, x)} :: !lt(x, x))
    && (forall x, y, z {:trigger lt(x, y), lt(y, z)} :: lt(x, y) && lt(y, z) ==> lt(x, z))
    && (forall x, y {:trigger lt(x, y)} :: x == y || lt(x, y) || lt(y, x))
  }

  ghost predicate IsLeast<T(!new)>(s: set<T>, lt: (T, T) -> bool, x: T) {
    x in s && forall y :: y in s ==> x == y || lt(x, y)
  }

  lemma {:induction false} LeastExists<T(!new)>(s: set<T>, lt: (T, T) -> bool) returns (x: T)
    requires s != {} && StrictTotal(lt)
    ensures IsLeast(s, lt, x)
    decreases s
  {
    x :| x in s;
    var rest := s - {x};
    assert forall y :: y in s ==> y == x || y in rest;
    if rest != {} {
      var y := LeastExists(rest, lt);
      if lt(y, x) {
        x := y;
      }
    }
  }

  ghost function Least<T(!new)>(s: set<T>, lt: (T, T) -> bool): (x: T)
    requires s != {} && StrictTotal(lt)
    ensures IsLeast(s, lt, x)
  {
    assert exists x :: IsLeast(s, lt, x) by {
      var y := LeastExists(s, lt);
    }
    var x :| IsLeast(s, lt, x);
    x
  }

  /** The elements in ascending order, as an ordered container lists them. */
  ghost function Listed<T(!new)>(s: set<T>, lt: (T, T) -> bool): (r: seq<T>)
    requires StrictTotal(lt)
    ensures |r| == |s| && forall x :: x in r <==> x in s
    decreases s
  {
    if s == {} then []
    else
      var x := Least(s, lt);
      [x] + Listed(s - {x}, lt)
  }

  lemma {:induction false} ListedAscends<T(!new)>(s: set<T>, lt: (T, T) -> bool, i: nat, j: nat)
    requires StrictTotal(lt) && i < j < |s|
    ensures lt(Listed(s, lt)[i], Listed(s, lt)[j])
    decreases s
  {
    var x := Least(s, lt);
    var rest := Listed(s - {x}, lt);
    if i > 0 {
      ListedAscends(s - {x}, lt, i - 1, j - 1);
    } else {
      assert rest[j - 1] in rest;
    }
  }

  predicate ByNumber(a: Obj, b: Obj) {
    a < b
  }

  lemma NumbersAreOrdered()
    ensures StrictTotal(ByNumber)
  {
  }

  // ---------------------------------------------------------------- comparing

  datatype Order = Before | Same | After

  /** Compares two listings of the same length element by element. */
  function CompareBits(a: seq<Obj>, b: seq<Obj>): Order
    decreases |a|
  {
    if a == [] || b == [] then Same
    else if a[0] < b[0] then Before
    else if a[0] > b[0] then After
    else CompareBits(a[1..], b[1..])
  }

  type Entry<Cond> = (Cond, seq<Obj>)

  /** One condition with its objects: by condition, then by number of objects, then by objects. */
  function CompareEntries<Cond(==)>(a: Entry<Cond>, b: Entry<Cond>, lt: (Cond, Cond) -> bool): Order {
    if lt(a.0, b.0) then Before
    else if a.0 != b.0 then After
    else if |a.1| < |b.1| then Before
    else if |a.1| == |b.1| then CompareBits(a.1, b.1)
    else After
  }

  function CompareLists<Cond(==)>(a: seq<Entry<Cond>>, b: seq<Entry<Cond>>, lt: (Cond, Cond) -> bool): Order
    decreases |a|
  {
    if a == [] || b == [] then Same
    else
      match CompareEntries(a[0], b[0], lt)
      case Before => Before
      case After => After
      case Same => CompareLists(a[1..], b[1..], lt)
  }

  /** The entries of a map in the order of their conditions. */
  ghost function Entries<Cond(!new)>(m: map<Cond, set<Obj>>, lt: (Cond, Cond) -> bool): (r: seq<Entry<Cond>>)
    requires StrictTotal(lt)
    ensures |r| == |m|
  {
    NumbersAreOrdered();
    var cs := Listed(m.Keys, lt);
    assert forall i :: 0 <= i < |cs| ==> cs[i] in cs;
    seq(|cs|, i requires 0 <= i < |cs| => (cs[i], Listed(m[cs[i]], ByNumber)))
  }

  /** `operator<`: by number of entries, then entry by entry. */
  ghost predicate Less<Cond(!new)>(a: map<Cond, set<Obj>>, b: map<Cond, set<Obj>>, lt: (Cond, Cond) -> bool)
    requires StrictTotal(lt)
  {
    |a| < |b| || (|a| == |b| && CompareLists(Entries(a, lt), Entries(b, lt), lt) == Before)
  }

  // ---------------------------------------------------------------- the comparison of listings

  function Flip(o: Order): Order {
    match o case Before => After case Same => Same case After => Before
  }

  lemma {:induction false} BitsOrdered(a: seq<Obj>, b: seq<Obj>)
    requires |a| == |b|
    ensures CompareBits(b, a) == Flip(CompareBits(a, b))
    ensures CompareBits(a, b) == Same <==> a == b
    decreases |a|
  {
    if a != [] {
      BitsOrdered(a[1..], b[1..]);
      assert a == [a[0]] + a[1..] && b == [b[0]] + b[1..];
    }
  }

  lemma {:induction false} BitsTransitive(a: seq<Obj>, b: seq<Obj>, c: seq<Obj>)
    requires |a| == |b| == |c| && CompareBits(a, b) == Before && CompareBits(b, c) == Before
    ensures CompareBits(a, c) == Before
    decreases |a|
  {
    if a[0] == b[0] == c[0] {
      BitsTransitive(a[1..], b[1..], c[1..]);
    }
  }

  lemma EntriesOrdered<Cond(!new)>(a: Entry<Cond>, b: Entry<Cond>, lt: (Cond, Cond) -> bool)
    requires StrictTotal(lt)
    ensures CompareEntries(b, a, lt) == Flip(CompareEntries(a, b, lt))
    ensures CompareEntries(a, b, lt) == Same <==> a == b
  {
    assert !lt(a.0, a.0);
    if |a.1| == |b.1| {
      BitsOrdered(a.1, b.1);
    }
  }

  lemma EntriesTransitive<Cond(!new)>(a: Entry<Cond>, b: Entry<Cond>, c: Entry<Cond>, lt: (Cond, Cond) -> bool)
    requires StrictTotal(lt) && CompareEntries(a, b, lt) == Before && CompareEntries(b, c, lt) == Before
    ensures CompareEntries(a, c, lt) == Before
  {
    assert !lt(a.0, a.0) && !lt(b.0, b.0);
    if |a.1| == |b.1| == |c.1| && a.0 == b.0 == c.0 {
      BitsTransitive(a.1, b.1, c.1);
    }
  }

  lemma {:induction false} ListsOrdered<Cond(!new)>(a: seq<Entry<Cond>>, b: seq<Entry<Cond>>, lt: (Cond, Cond) -> bool)
    requires StrictTotal(lt) && |a| == |b|
    ensures CompareLists(b, a, lt) == Flip(CompareLists(a, b, lt))
    ensures CompareLists(a, b, lt) == Same <==> a == b
    decreases |a|
  {
    hide StrictTotal, CompareEntries;
    if a != [] {
      EntriesOrdered(a[0], b[0], lt);
      ListsOrdered(a[1..], b[1..], lt);
      assert a == [a[0]] + a[1..] && b == [b[0]] + b[1..];
    }
  }

  lemma {:induction false} ListsTransitive<Cond(!new)>(a: seq<Entry<Cond>>, b: seq<Entry<Cond>>, c: seq<Entry<Cond>>,
                                                       lt: (Cond, Cond) -> bool)
    requires StrictTotal(lt) && |a| == |b| == |c|
    requires CompareLists(a, b, lt) == Before && CompareLists(b, c, lt) == Before
    ensures CompareLists(a, c, lt) == Before
    decreases |a|
  {
    hide StrictTotal, CompareEntries;
    EntriesOrdered(a[0], b[0], lt);
    EntriesOrdered(b[0], c[0], lt);
    if CompareEntries(a[0], b[0], lt) == Same && CompareEntries(b[0], c[0], lt) == Same {
      ListsTransitive(a[1..], b[1..], c[1..], lt);
    } else if CompareEntries(a[0], b[0], lt) == Before && CompareEntries(b[0], c[0], lt) == Before {
      EntriesTransitive(a[0], b[0], c[0], lt);
    }
  }

  // ---------------------------------------------------------------- what comes first

  /** The first objects that differ decide: the smaller one comes first. */
  ghost predicate BitsBelow(a: seq<Obj>, b: seq<Obj>) {
    exists k :: 0 <= k < |a| && k < |b| && a[..k] == b[..k] && a[k] < b[k]
  }

  ghost predicate EntryBelow<Cond(!new)>(a: Entry<Cond>, b: Entry<Cond>, lt: (Cond, Cond) -> bool) {
    || lt(a.0, b.0)
    || (a.0 == b.0 && |a.1| < |b.1|)
    || (a.0 == b.0 && |a.1| == |b.1| && BitsBelow(a.1, b.1))
  }

  /** The first entries that differ decide: by condition, then by number of objects, then by objects. */
  ghost predicate ListBelow<Cond(!new)>(a: seq<Entry<Cond>>, b: seq<Entry<Cond>>, lt: (Cond, Cond) -> bool) {
    exists i :: 0 <= i < |a| && i < |b| && a[..i] == b[..i] && EntryBelow(a[i], b[i], lt)
  }

  lemma {:induction false} BitsBelowIff(a: seq<Obj>, b: seq<Obj>)
    ensures CompareBits(a, b) == Before <==> BitsBelow(a, b)
    decreases |a|
  {
    if a != [] && b != [] {
      BitsBelowIff(a[1..], b[1..]);
      if a[0] == b[0] {
        if k :| 0 <= k < |a[1..]| && k < |b[1..]| && a[1..][..k] == b[1..][..k] && a[1..][k] < b[1..][k] {
          assert a[..k + 1] == [a[0]] + a[1..][..k] && b[..k + 1] == [b[0]] + b[1..][..k];
          assert a[k + 1] < b[k + 1];
        }
        if k :| 0 <= k < |a| && k < |b| && a[..k] == b[..k] && a[k] < b[k] {
          assert a[1..][..k - 1] == a[..k][1..] && b[1..][..k - 1] == b[..k][1..];
          assert a[1..][k - 1] < b[1..][k - 1];
        }
      } else {
        assert a[..0] == b[..0];
        if k :| 0 <= k < |a| && k < |b| && a[..k] == b[..k] && a[k] < b[k] {
          assert k > 0 ==> a[..k][0] == b[..k][0];
        }
      }
    }
  }

  lemma EntryBelowIff<Cond(!new)>(a: Entry<Cond>, b: Entry<Cond>, lt: (Cond, Cond) -> bool)
    ensures CompareEntries(a, b, lt) == Before <==> EntryBelow(a, b, lt)
    ensures CompareEntries(a, b, lt) == Same ==> a == b
    ensures a == b ==> CompareEntries(a, b, lt) != After
  {
    BitsBelowIff(a.1, b.1);
    if |a.1| == |b.1| {
      BitsOrdered(a.1, b.1);
    }
  }

  lemma {:induction false} ListBelowIff<Cond(!new)>(a: seq<Entry<Cond>>, b: seq<Entry<Cond>>,
                                                    lt: (Cond, Cond) -> bool)
    ensures CompareLists(a, b, lt) == Before <==> ListBelow(a, b, lt)
    decreases |a|
  {
    hide CompareEntries, EntryBelow;
    if a != [] && b != [] {
      EntryBelowIff(a[0], b[0], lt);
      ListBelowIff(a[1..], b[1..], lt);
      if EntryBelow(a[0], b[0], lt) {
        assert a[..0] == b[..0];
      }
      if i :| 0 <= i < |a[1..]| && i < |b[1..]| && a[1..][..i] == b[1..][..i] && EntryBelow(a[1..][i], b[1..][i], lt) {
        if a[0] == b[0] {
          assert a[..i + 1] == [a[0]] + a[1..][..i] && b[..i + 1] == [b[0]] + b[1..][..i];
          assert EntryBelow(a[i + 1], b[i + 1], lt);
        }
      }
      if i :| 0 <= i < |a| && i < |b| && a[..i] == b[..i] && EntryBelow(a[i], b[i], lt) {
        if i > 0 {
          assert a[..i][0] == b[..i][0];
          assert a[1..][..i - 1] == a[..i][1..] && b[1..][..i - 1] == b[..i][1..];
          assert EntryBelow(a[1..][i - 1], b[1..][i - 1], lt);
        }
      }
    }
  }

  /** Objects are listed from the smallest up. */
  lemma EntriesAscend<Cond(!new)>(m: map<Cond, set<Obj>>, lt: (Cond, Cond) -> bool, i: nat, j: nat, k: nat)
    requires StrictTotal(lt) && i < |m| && j < k < |Entries(m, lt)[i].1|
    ensures Entries(m, lt)[i].1[j] < Entries(m, lt)[i].1[k]
    ensures i + 1 < |m| ==> lt(Entries(m, lt)[i].0, Entries(m, lt)[i + 1].0)
  {
    EntryKeys(m, lt, i);
    ListedAscends(m[Entries(m, lt)[i].0], ByNumber, j, k);
    if i + 1 < |m| {
      ListedAscends(m.Keys, lt, i, i + 1);
    }
  }

  // ---------------------------------------------------------------- a strict total order

  lemma ListedInjective<T(!new)>(a: set<T>, b: set<T>, lt: (T, T) -> bool)
    requires StrictTotal(lt) && Listed(a, lt) == Listed(b, lt)
    ensures a == b
  {
    forall x
      ensures x in a <==> x in b
    {
      assert x in a <==> x in Listed(a, lt);
      assert x in b <==> x in Listed(b, lt);
    }
  }

  lemma EntryOf<Cond(!new)>(m: map<Cond, set<Obj>>, lt: (Cond, Cond) -> bool, c: Cond) returns (i: nat)
    requires StrictTotal(lt) && c in m
    ensures StrictTotal(ByNumber)
    ensures i < |m| && Entries(m, lt)[i] == (c, Listed(m[c], ByNumber))
  {
    NumbersAreOrdered();
    var cs := Listed(m.Keys, lt);
    assert c in cs;
    i :| 0 <= i < |cs| && cs[i] == c;
  }

  lemma EntryKeys<Cond(!new)>(m: map<Cond, set<Obj>>, lt: (Cond, Cond) -> bool, i: nat)
    requires StrictTotal(lt) && i < |m|
    ensures StrictTotal(ByNumber)
    ensures Entries(m, lt)[i].0 in m && Entries(m, lt)[i].1 == Listed(m[Entries(m, lt)[i].0], ByNumber)
  {
    NumbersAreOrdered();
    var cs := Listed(m.Keys, lt);
    assert cs[i] in cs;
  }

  /** Maps with the same listing are the same. */
  lemma EntriesInjective<Cond(!new)>(a: map<Cond, set<Obj>>, b: map<Cond, set<Obj>>, lt: (Cond, Cond) -> bool)
    requires StrictTotal(lt) && Entries(a, lt) == Entries(b, lt)
    ensures a == b
  {
    hide Entries, Listed, StrictTotal;
    forall c
      ensures c in a <==> c in b
      ensures c in a ==> a[c] == b[c]
    {
      if c in a {
        var i := EntryOf(a, lt, c);
        EntryKeys(b, lt, i);
        ListedInjective(a[c], b[c], ByNumber);
      }
      if c in b {
        var i := EntryOf(b, lt, c);
        EntryKeys(a, lt, i);
      }
    }
  }

  /** Whichever has fewer entries comes first; of the others, the one whose listing is below. */
  lemma LessIff<Cond(!new)>(a: map<Cond, set<Obj>>, b: map<Cond, set<Obj>>, lt: (Cond, Cond) -> bool)
    requires StrictTotal(lt)
    ensures |a| < |b| ==> Less(a, b, lt) && !Less(b, a, lt)
    ensures |a| == |b| ==> (Less(a, b, lt) <==> ListBelow(Entries(a, lt), Entries(b, lt), lt))
  {
    if |a| == |b| {
      ListBelowIff(Entries(a, lt), Entries(b, lt), lt);
    }
  }

  /** Exactly one of `a < b`, `a == b` and `b < a` holds. */
  lemma LessIsTotal<Cond(!new)>(a: map<Cond, set<Obj>>, b: map<Cond, set<Obj>>, lt: (Cond, Cond) -> bool)
    requires StrictTotal(lt)
    ensures !Less(a, a, lt)
    ensures (Less(a, b, lt) || Less(b, a, lt)) <==> a != b
    ensures !(Less(a, b, lt) && Less(b, a, lt))
  {
    ListsOrdered(Entries(a, lt), Entries(a, lt), lt);
    if |a| == |b| {
      ListsOrdered(Entries(a, lt), Entries(b, lt), lt);
      if Entries(a, lt) == Entries(b, lt) {
        EntriesInjective(a, b, lt);
      }
    }
  }

  lemma LessIsTransitive<Cond(!new)>(a: map<Cond, set<Obj>>, b: map<Cond, set<Obj>>, c: map<Cond, set<Obj>>,
                              lt: (Cond, Cond) -> bool)
    requires StrictTotal(lt) && Less(a, b, lt) && Less(b, c, lt)
    ensures Less(a, c, lt)
  {
    if |a| == |b| == |c| {
      ListsTransitive(Entries(a, lt), Entries(b, lt), Entries(c, lt), lt);
    }
  }

  // ---------------------------------------------------------------- the comparisons as they run

  /** The nested loops of `operator<`, over the listings of its operands. */
  method LessThan<Cond(!new, ==)>(left: seq<Entry<Cond>>, right: seq<Entry<Cond>>, lt: (Cond, Cond) -> bool)
    returns (b: bool)
    ensures b <==> |left| < |right| || (|left| == |right| && ListBelow(left, right, lt))
    ensures b <==> |left| < |right| || (|left| == |right| && CompareLists(left, right, lt) == Before)
  {
    ListBelowIff(left, right, lt);
    if |left| < |right| {
      return true;
    } else if |left| == |right| {
      var i := 0;
      while i < |left|
        invariant 0 <= i <= |left|
        invariant CompareLists(left[i..], right[i..], lt) == CompareLists(left, right, lt)
      {
        var l, r := left[i], right[i];
        if lt(l.0, r.0) {
          return true;
        } else if l.0 == r.0 {
          if |l.1| < |r.1| {
            return true;
          } else if |l.1| == |r.1| {
            var k := 0;
            while k < |l.1|
              invariant 0 <= k <= |l.1|
              invariant CompareBits(l.1[k..], r.1[k..]) == CompareBits(l.1, r.1)
            {
              if l.1[k] < r.1[k] {
                return true;
              } else if l.1[k] > r.1[k] {
                return false;
              }
              k := k + 1;
            }
          } else {
            return false;
          }
        } else {
          return false;
        }
        i := i + 1;
      }
    }
    return false;
  }

  /** The loop of `operator==`. */
  method Equals<Cond(==)>(left: seq<Entry<Cond>>, right: seq<Entry<Cond>>) returns (b: bool)
    ensures b <==> left == right
  {
    if |left| != |right| {
      return false;
    }
    var i := 0;
    while i < |left|
      invariant 0 <= i <= |left| && left[..i] == right[..i]
    {
      if left[i].0 != right[i].0 || left[i].1 != right[i].1 {
        return false;
      }
      assert left[..i + 1] == left[..i] + [left[i]] && right[..i + 1] == right[..i] + [right[i]];
      i := i + 1;
    }
    return true;
  }
}
