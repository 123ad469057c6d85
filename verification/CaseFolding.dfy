/** The generator of the case folding function: it cuts a sorted table of mappings into blocks and
    turns each block into tests on a character. */
module CaseFolding {

  import opened Wrappers

  datatype Result<T> = Ok(value: T) | Unsorted | EmptyTable

  /** An entry of the database that folds the character `src` to `dst`. */
  datatype Mapping = Mapping(src: int, dst: int)

  function Shift(m: Mapping): int {
    m.dst - m.src
  }

  function Stride2(a: Mapping, b: Mapping): int {
    b.src - a.src
  }

  function Stride(block: seq<Mapping>): int
    requires |block| >= 2
  {
    Stride2(block[0], block[1])
  }

  ghost predicate Sorted(t: seq<Mapping>) {
    && (forall i :: 0 <= i < |t| ==> 0 <= t[i].src)
    && (forall i, j :: 0 <= i < j < |t| ==> t[i].src < t[j].src)
  }

  // ---------------------------------------------------------------- the emitted code

  /** What is returned for a character `C` that passes a test. */
  datatype Action = Constant(c: int) | Itself | OrOne | Add(shift: int)

  /** One emitted `if`. */
  datatype Test =
    | Equals(c: int, action: Action)
    | Below(bound: int, action: Action)
    | UpTo(bound: int, action: Action)
    | UpToModulo(bound: int, stride: int, rest: int, action: Action)

  /** The remainder as the emitted language computes it: it has the sign of the dividend. */
  function Remainder(a: int, b: int): int
    requires b != 0
  {
    if a >= 0 then a % b else -((-a) % b)
  }

  /** Division rounds towards zero: what is left over is smaller than the divisor, and of the
      dividend's sign. */
  lemma RemainderTruncates(a: int, b: int)
    requires b > 0
    ensures exists q :: a == q * b + Remainder(a, b)
    ensures -b < Remainder(a, b) < b
    ensures (Remainder(a, b) > 0 ==> a > 0) && (Remainder(a, b) < 0 ==> a < 0)
  {
    var q := if a >= 0 then a / b else -((-a) / b);
    assert a == q * b + Remainder(a, b);
  }

  predicate Passes(t: Test, c: int) {
    match t
    case Equals(x, _) => c == x
    case Below(x, _) => c < x
    case UpTo(x, _) => c <= x
    case UpToModulo(x, s, r, _) => c <= x && s != 0 && Remainder(c, s) == r
  }

  function Act(a: Action, c: int): int {
    match a
    case Constant(x) => x
    case Itself => c
    case OrOne => if c % 2 == 0 then c + 1 else c
    case Add(s) => c + s
  }

  /** What the emitted function returns: the first test that passes decides, and `C` is the default. */
  function Eval(body: seq<Test>, c: int): int
    decreases |body|
  {
    if body == [] then c
    else if Passes(body[0], c) then Act(body[0].action, c)
    else Eval(body[1..], c)
  }

  // ---------------------------------------------------------------- blocks

  /** A block's mappings share one shift, and their sources one stride. */
  ghost predicate Uniform(b: seq<Mapping>) {
    && |b| > 0
    && (forall i :: 0 <= i < |b| ==> Shift(b[i]) == Shift(b[0]))
    && (|b| >= 2 ==> Stride(b) > 0 && forall i :: 0 <= i < |b| ==> b[i].src == b[0].src + i * Stride(b))
  }

  /** What is emitted for a block. */
  function Dump(b: seq<Mapping>): seq<Test>
    requires |b| > 0 && (|b| >= 2 ==> Stride(b) > 0)
  {
    if |b| == 1 then
      [Equals(b[0].src, Constant(b[0].dst))]
    else
      var first := b[0].src;
      var last := first + Stride(b) * (|b| - 1);
      var modulo := first % Stride(b);
      [Below(first, Itself)] +
      if Stride(b) == 2 && Shift(b[0]) == 1 && modulo == 0 then [UpTo(last, OrOne)]
      else if Stride(b) == 1 then [UpTo(last, Add(Shift(b[0])))]
      else [UpToModulo(last, Stride(b), modulo, Add(Shift(b[0])))]
  }

  ghost predicate AllUniform(bs: seq<seq<Mapping>>) {
    forall i :: 0 <= i < |bs| ==> Uniform(bs[i])
  }

  // ---------------------------------------------------------------- the meaning of a table

  /** A table folds its sources and leaves every other character alone. */
  function Fold(t: seq<Mapping>, c: int): int
    decreases |t|
  {
    if t == [] then c else if t[0].src == c then t[0].dst else Fold(t[1..], c)
  }

  ghost predicate Contains(t: seq<Mapping>, c: int) {
    exists i :: 0 <= i < |t| && t[i].src == c
  }

  lemma {:induction false} FoldAt(t: seq<Mapping>, i: nat)
    requires Sorted(t) && i < |t|
    ensures Fold(t, t[i].src) == t[i].dst
    decreases |t|
  {
    if i > 0 {
      FoldAt(t[1..], i - 1);
    }
  }

  lemma ContainsFirst(t: seq<Mapping>, c: int)
    requires t != []
    ensures Contains(t, c) <==> t[0].src == c || Contains(t[1..], c)
  {
    if Contains(t[1..], c) {
      var i :| 0 <= i < |t[1..]| && t[1..][i].src == c;
      assert t[i + 1].src == c;
    }
    if Contains(t, c) && t[0].src != c {
      var i :| 0 <= i < |t| && t[i].src == c;
      assert t[1..][i - 1].src == c;
    }
  }

  lemma {:induction false} FoldElsewhere(t: seq<Mapping>, c: int)
    requires !Contains(t, c)
    ensures Fold(t, c) == c
    decreases |t|
  {
    if t != [] {
      ContainsFirst(t, c);
      FoldElsewhere(t[1..], c);
    }
  }

  lemma {:induction false} FoldConcat(a: seq<Mapping>, b: seq<Mapping>, c: int)
    ensures Fold(a + b, c) == if Contains(a, c) then Fold(a, c) else Fold(b, c)
    decreases |a|
  {
    if a == [] {
      assert a + b == b;
    } else {
      assert (a + b)[1..] == a[1..] + b;
      ContainsFirst(a, c);
      FoldConcat(a[1..], b, c);
    }
  }

  // ---------------------------------------------------------------- one block

  lemma Product(a: int, b: int, s: int)
    requires a < b && 0 < s
    ensures a * s + s <= b * s
  {
    var d := b - a - 1;
    assert d * s >= 0;
    assert (a + 1 + d) * s == a * s + s + d * s;
  }

  lemma Quotient(d: int, s: int, n: nat)
    requires 0 < s
    ensures 0 <= d * s <= (n - 1) * s ==> 0 <= d < n
  {
    if d < 0 {
      Product(d, 0, s);
    }
    if d >= n {
      Product(n - 1, d, s);
    }
  }

  lemma SameRemainder(q: int, r: int, s: int)
    requires 0 <= r < s
    ensures (q * s + r) % s == r
  {
    var a := q * s + r;
    var p := a / s;
    assert a == p * s + a % s;
    if p < q {
      Product(p, q, s);
    }
    if q < p {
      Product(q, p, s);
    }
  }

  /** Within a block's range, its sources are the characters with the right remainder ... */
  lemma InBlock(first: int, s: int, n: nat, c: int) returns (k: int)
    requires 0 < s && n > 0 && first <= c <= first + (n - 1) * s && c % s == first % s
    ensures 0 <= k < n && c == first + k * s
  {
    k := c / s - first / s;
    assert c == (c / s) * s + c % s && first == (first / s) * s + first % s;
    assert k * s == (c / s) * s - (first / s) * s;
    Quotient(k, s, n);
  }

  /** ... and all of them are in it. */
  lemma OfBlock(first: int, s: int, n: nat, k: nat)
    requires 0 < s && k < n
    ensures first <= first + k * s <= first + (n - 1) * s && (first + k * s) % s == first % s
  {
    var q := first / s;
    assert first == q * s + first % s;
    assert first + k * s == (q + k) * s + first % s;
    SameRemainder(q + k, first % s, s);
    if k < n - 1 {
      Product(k, n - 1, s);
    }
  }

  /** The emitted remainder agrees with the one the block was cut by, as negative characters never
      get there. */
  lemma BlockContains(b: seq<Mapping>, c: int)
    requires Uniform(b) && |b| >= 2 && 0 <= b[0].src
    ensures Contains(b, c) <==>
            b[0].src <= c <= b[0].src + Stride(b) * (|b| - 1) && c % Stride(b) == b[0].src % Stride(b)
    ensures Contains(b, c) ==> Fold(b, c) == c + Shift(b[0])
  {
    var s := Stride(b);
    if Contains(b, c) {
      var k :| 0 <= k < |b| && b[k].src == c;
      OfBlock(b[0].src, s, |b|, k);
      FoldShift(b, c, Shift(b[0]));
    }
    if b[0].src <= c <= b[0].src + s * (|b| - 1) && c % s == b[0].src % s {
      var k := InBlock(b[0].src, s, |b|, c);
      assert b[k].src == c;
    }
  }

  lemma {:induction false} FoldShift(b: seq<Mapping>, c: int, d: int)
    requires Contains(b, c) && forall i :: 0 <= i < |b| ==> Shift(b[i]) == d
    ensures Fold(b, c) == c + d
    decreases |b|
  {
    ContainsFirst(b, c);
    if b[0].src != c {
      FoldShift(b[1..], c, d);
    } else {
      assert Shift(b[0]) == d;
    }
  }

  /** Characters that are not in the block but leave at its tests. */
  ghost predicate Swallows(b: seq<Mapping>, c: int)
    requires Uniform(b)
  {
    && |b| >= 2
    && (c < b[0].src || (c <= b[0].src + Stride(b) * (|b| - 1) && Bitwise(b)))
  }

  /** The block whose characters fold by setting their lowest bit. */
  predicate Bitwise(b: seq<Mapping>)
    requires |b| >= 2
  {
    Stride(b) == 2 && Shift(b[0]) == 1 && b[0].src % 2 == 0
  }

  lemma EvalTwo(s: Test, t: Test, rest: seq<Test>, c: int)
    ensures Eval([s, t] + rest, c) ==
            if Passes(s, c) then Act(s.action, c) else if Passes(t, c) then Act(t.action, c) else Eval(rest, c)
  {
    assert ([s, t] + rest)[1..] == [t] + rest;
    assert ([t] + rest)[1..] == rest;
  }

  /** The second test of a longer block. */
  lemma RangeTest(b: seq<Mapping>, c: int)
    requires Uniform(b) && |b| >= 2 && 0 <= b[0].src <= c
    ensures Passes(Dump(b)[1], c) <==> Contains(b, c) || Swallows(b, c)
    ensures Passes(Dump(b)[1], c) ==> Act(Dump(b)[1].action, c) == if Contains(b, c) then c + Shift(b[0]) else c
  {
    BlockContains(b, c);
    if Stride(b) == 1 {
      assert c % 1 == b[0].src % 1;
    }
  }

  /** A block's code returns what the block folds a character to, returns the characters it swallows
      unchanged, and leaves the others to the code that follows. */
  lemma DumpEval(b: seq<Mapping>, rest: seq<Test>, c: int)
    requires Uniform(b) && 0 <= b[0].src
    ensures Eval(Dump(b) + rest, c) ==
            if Contains(b, c) then Fold(b, c) else if Swallows(b, c) then c else Eval(rest, c)
  {
    if |b| == 1 {
      ContainsFirst(b, c);
      assert (Dump(b) + rest)[1..] == rest;
    } else {
      var d := Dump(b);
      assert d == [d[0], d[1]];
      EvalTwo(d[0], d[1], rest, c);
      BlockContains(b, c);
      if b[0].src <= c {
        RangeTest(b, c);
      } else {
        BelowTest(b);
      }
    }
  }

  lemma BelowTest(b: seq<Mapping>)
    requires Uniform(b) && |b| >= 2
    ensures Dump(b)[0] == Below(b[0].src, Itself)
  {
  }

  // ---------------------------------------------------------------- the whole function

  /** The sources of `b` lie before those of `t`. */
  ghost predicate Before(b: seq<Mapping>, t: seq<Mapping>) {
    forall i, j :: 0 <= i < |b| && 0 <= j < |t| ==> b[i].src < t[j].src
  }

  /** What a block swallows is folded nowhere after it. */
  lemma SwallowedNowhere(b: seq<Mapping>, t: seq<Mapping>, c: int)
    requires Uniform(b) && Before(b, t) && Swallows(b, c)
    ensures !Contains(t, c)
  {
    var n := |b| - 1;
    assert b[n].src == b[0].src + n * Stride(b);
    forall j | 0 <= j < |t|
      ensures t[j].src != c
    {
      assert b[0].src < t[j].src && b[n].src < t[j].src;
    }
  }

  /** Blocks in front, written as a recursion from the first block on. */
  ghost function Emitted(bs: seq<seq<Mapping>>): seq<Test>
    requires AllUniform(bs)
    decreases |bs|
  {
    if bs == [] then [] else Dump(bs[0]) + Emitted(bs[1..])
  }

  ghost function Joined(bs: seq<seq<Mapping>>): seq<Mapping>
    decreases |bs|
  {
    if bs == [] then [] else bs[0] + Joined(bs[1..])
  }

  lemma SortedParts(a: seq<Mapping>, b: seq<Mapping>)
    requires Sorted(a + b)
    ensures Sorted(a) && Sorted(b) && Before(a, b)
  {
    forall i, j | 0 <= i < j < |a|
      ensures a[i].src < a[j].src
    {
      assert (a + b)[i].src < (a + b)[j].src;
    }
    forall i | 0 <= i < |a|
      ensures 0 <= a[i].src
    {
      assert 0 <= (a + b)[i].src;
    }
    forall i, j | 0 <= i < j < |b|
      ensures b[i].src < b[j].src
    {
      assert (a + b)[|a| + i].src < (a + b)[|a| + j].src;
    }
    forall i | 0 <= i < |b|
      ensures 0 <= b[i].src
    {
      assert 0 <= (a + b)[|a| + i].src;
    }
    forall i, j | 0 <= i < |a| && 0 <= j < |b|
      ensures a[i].src < b[j].src
    {
      assert (a + b)[i].src < (a + b)[|a| + j].src;
    }
  }

  /** The cascade of tests folds like the table that was cut into the blocks. */
  lemma {:induction false} EmittedFolds(bs: seq<seq<Mapping>>, c: int)
    requires AllUniform(bs) && Sorted(Joined(bs))
    ensures Eval(Emitted(bs), c) == Fold(Joined(bs), c)
    decreases |bs|
  {
    if bs != [] {
      var b, t := bs[0], Joined(bs[1..]);
      SortedParts(b, t);
      EmittedFolds(bs[1..], c);
      DumpEval(b, Emitted(bs[1..]), c);
      FoldConcat(b, t, c);
      if Swallows(b, c) {
        SwallowedNowhere(b, t, c);
        FoldElsewhere(t, c);
      }
    }
  }

  lemma EmittedFirst(b: seq<Mapping>, bs: seq<seq<Mapping>>)
    requires Uniform(b) && AllUniform(bs)
    ensures AllUniform([b] + bs)
    ensures Emitted([b] + bs) == Dump(b) + Emitted(bs) && Joined([b] + bs) == b + Joined(bs)
  {
    hide Dump, Uniform;
    assert ([b] + bs)[1..] == bs;
  }

  lemma {:induction false} EmittedAppend(bs: seq<seq<Mapping>>, b: seq<Mapping>)
    requires AllUniform(bs) && Uniform(b)
    ensures AllUniform(bs + [b])
    ensures Emitted(bs + [b]) == Emitted(bs) + Dump(b)
    ensures Joined(bs + [b]) == Joined(bs) + b
    decreases |bs|
  {
    hide Dump, Uniform;
    if bs == [] {
      EmittedFirst(b, []);
      assert [b] + [] == bs + [b];
    } else {
      EmittedAppend(bs[1..], b);
      EmittedFirst(bs[0], bs[1..] + [b]);
      assert [bs[0]] + (bs[1..] + [b]) == bs + [b];
    }
  }

  // ---------------------------------------------------------------- the generator

  ghost function Entries(lines: seq<Option<Mapping>>): seq<Mapping>
    decreases |lines|
  {
    if lines == [] then []
    else Entries(lines[..|lines| - 1]) +
         if lines[|lines| - 1].Some? then [lines[|lines| - 1].value] else []
  }

  function LastSource(t: seq<Mapping>): int {
    if t == [] then -1 else t[|t| - 1].src
  }

  lemma EntriesStep(lines: seq<Option<Mapping>>, i: nat)
    requires i < |lines|
    ensures Entries(lines[..i + 1]) == Entries(lines[..i]) + if lines[i].Some? then [lines[i].value] else []
  {
    assert lines[..i + 1][..i] == lines[..i];
  }

  lemma SortedSnoc(t: seq<Mapping>, m: Mapping)
    requires Sorted(t)
    ensures Sorted(t + [m]) <==> LastSource(t) < m.src
    ensures LastSource(t + [m]) == m.src
  {
    var u := t + [m];
    assert u[|u| - 1] == m;
    if t != [] {
      assert u[|u| - 2] == t[|t| - 1];
    }
  }

  /** Reads the lines of the database; those that are no simple mapping are skipped, and sources must
      increase strictly. */
  method Mappings(lines: seq<Option<Mapping>>) returns (r: Result<seq<Mapping>>)
    ensures r == if Sorted(Entries(lines)) then Ok(Entries(lines)) else Unsorted
  {
    hide Sorted, Entries;
    var table := [];
    var previous := -1;
    var i := 0;
    NoEntries();
    while i < |lines|
      invariant 0 <= i <= |lines|
      invariant table == Entries(lines[..i]) && Sorted(table)
      invariant previous == LastSource(table)
    {
      EntriesStep(lines, i);
      if lines[i].Some? {
        var m := lines[i].value;
        SortedSnoc(table, m);
        if m.src <= previous {
          EntriesPrefix(lines, i + 1);
          return Unsorted;
        }
        table := table + [m];
        previous := m.src;
      }
      i := i + 1;
    }
    assert lines[..i] == lines;
    return Ok(table);
  }

  lemma NoEntries()
    ensures Entries([]) == [] && Sorted([])
  {
  }

  /** A table that starts out unsorted stays so. */
  lemma {:induction false} EntriesPrefix(lines: seq<Option<Mapping>>, i: nat)
    requires i <= |lines| && !Sorted(Entries(lines[..i]))
    ensures !Sorted(Entries(lines))
    decreases |lines| - i
  {
    if i == |lines| {
      assert lines[..i] == lines;
    } else {
      assert lines[..i + 1][..i] == lines[..i];
      var a := Entries(lines[..i]);
      var b := if lines[i].Some? then [lines[i].value] else [];
      assert Entries(lines[..i + 1]) == a + b;
      if Sorted(a + b) {
        SortedParts(a, b);
      }
      EntriesPrefix(lines, i + 1);
    }
  }

  /** Appends the code of a block. */
  method DumpBlock(body: seq<Test>, b: seq<Mapping>) returns (r: seq<Test>)
    requires Uniform(b)
    ensures r == body + Dump(b)
  {
    if |b| == 1 {
      return body + [Equals(b[0].src, Constant(b[0].dst))];
    }
    var first := b[0].src;
    var last := first + Stride(b) * (|b| - 1);
    var modulo := first % Stride(b);
    r := body + [Below(first, Itself)];
    var pattern := UpToModulo(last, Stride(b), modulo, Add(Shift(b[0])));
    if Stride(b) == 2 && Shift(b[0]) == 1 && modulo == 0 {
      pattern := UpTo(last, OrOne);
    } else if Stride(b) == 1 {
      pattern := UpTo(last, Add(Shift(b[0])));
    }
    r := r + [pattern];
    assert r == body + Dump(b);
  }

  /** `body` is what the blocks `bs` emit, and with `current` they make up `done`. */
  ghost predicate CutInto(bs: seq<seq<Mapping>>, body: seq<Test>, current: seq<Mapping>, done: seq<Mapping>) {
    AllUniform(bs) && Emitted(bs) == body && Joined(bs) + current == done
  }

  /** The block `a` could not have taken in the mapping that `b` starts with. */
  ghost predicate EndsBefore(a: seq<Mapping>, b: seq<Mapping>) {
    b != [] && !Uniform(a + [b[0]])
  }

  /** No block could have taken in the mapping that follows it. */
  ghost predicate Maximal(bs: seq<seq<Mapping>>) {
    forall i, j :: 0 <= i < |bs| && 0 <= j < |bs| && j == i + 1 ==> EndsBefore(bs[i], bs[j])
  }

  /** ... nor could the last one, if `current` comes after it. */
  ghost predicate MaximalBefore(bs: seq<seq<Mapping>>, current: seq<Mapping>) {
    Maximal(bs) && (bs != [] && current != [] ==> EndsBefore(bs[|bs| - 1], current))
  }

  lemma MaximalAppend(bs: seq<seq<Mapping>>, current: seq<Mapping>)
    requires MaximalBefore(bs, current) && current != []
    ensures Maximal(bs + [current])
  {
    hide EndsBefore;
    var cs := bs + [current];
    forall i, j | 0 <= i < |cs| && 0 <= j < |cs| && j == i + 1
      ensures EndsBefore(cs[i], cs[j])
    {
      if j < |bs| {
        assert cs[i] == bs[i] && cs[j] == bs[j];
      }
    }
  }

  lemma SameStart(bs: seq<seq<Mapping>>, current: seq<Mapping>, m: Mapping)
    requires MaximalBefore(bs, current) && current != []
    ensures MaximalBefore(bs, current + [m])
  {
    hide Uniform, Maximal;
  }

  lemma NewBlockMaximal(bs: seq<seq<Mapping>>, current: seq<Mapping>, m: Mapping)
    requires MaximalBefore(bs, current) && current != [] && !Uniform(current + [m])
    ensures MaximalBefore(bs + [current], [m])
  {
    hide Uniform;
    MaximalAppend(bs, current);
  }

  lemma NewBlock(bs: seq<seq<Mapping>>, body: seq<Test>, current: seq<Mapping>, done: seq<Mapping>, m: Mapping)
    requires CutInto(bs, body, current, done) && Uniform(current)
    ensures CutInto(bs + [current], body + Dump(current), [m], done + [m]) && Uniform([m])
    ensures CutInto(bs + [current], body + Dump(current), [], done)
  {
    EmittedAppend(bs, current);
  }

  lemma LongerBlock(bs: seq<seq<Mapping>>, body: seq<Test>, current: seq<Mapping>, done: seq<Mapping>, m: Mapping)
    requires CutInto(bs, body, current, done)
    ensures CutInto(bs, body, current + [m], done + [m])
  {
    assert Joined(bs) + (current + [m]) == Joined(bs) + current + [m];
  }

  lemma BodyFolds(bs: seq<seq<Mapping>>, body: seq<Test>, table: seq<Mapping>)
    requires CutInto(bs, body, [], table) && Sorted(table)
    ensures forall i :: 0 <= i < |table| ==> Eval(body, table[i].src) == table[i].dst
    ensures forall c :: !Contains(table, c) ==> Eval(body, c) == c
  {
    assert Joined(bs) + [] == Joined(bs);
    forall i | 0 <= i < |table|
      ensures Eval(body, table[i].src) == table[i].dst
    {
      EmittedFolds(bs, table[i].src);
      FoldAt(table, i);
    }
    forall c | !Contains(table, c)
      ensures Eval(body, c) == c
    {
      EmittedFolds(bs, c);
      FoldElsewhere(table, c);
    }
  }

  /** Cuts the table into blocks of one shift and one stride, as long as they can be, and emits them:
      the code folds exactly the sources of the table, to what the table says. */
  method MakeBody(table: seq<Mapping>) returns (r: Result<seq<Test>>)
    requires Sorted(table)
    ensures r == EmptyTable <==> table == []
    ensures r != EmptyTable ==> r.Ok? && exists bs :: CutInto(bs, r.value, [], table) && Maximal(bs)
    ensures r.Ok? ==> forall i :: 0 <= i < |table| ==> Eval(r.value, table[i].src) == table[i].dst
    ensures r.Ok? ==> forall c :: !Contains(table, c) ==> Eval(r.value, c) == c
  {
    hide CutInto, Dump, Eval, Contains, Emitted, Joined, AllUniform, Uniform, Maximal, EndsBefore;
    var body := [];
    var current := [];
    ghost var bs := [];
    var i := 0;
    Start();
    while i < |table|
      invariant 0 <= i <= |table|
      invariant CutInto(bs, body, current, table[..i])
      invariant (current == [] <==> i == 0) && (current == [] ==> bs == [])
      invariant current != [] ==> MaximalBefore(bs, current)
      invariant current != [] ==> Uniform(current) && current[|current| - 1] == table[i - 1]
    {
      var m := table[i];
      Alone(m);
      assert table[..i + 1] == table[..i] + [m];
      if current == [] {
        LongerBlock(bs, body, current, table[..i], m);
        NoBlocks();
        assert current + [m] == [m];
        current := current + [m];
      } else if Shift(current[0]) != Shift(m) {
        NewBlock(bs, body, current, table[..i], m);
        NotExtended(current, m);
        NewBlockMaximal(bs, current, m);
        bs := bs + [current];
        body := DumpBlock(body, current);
        current := [m];
      } else if |current| == 1 || Stride(current) == Stride2(current[|current| - 1], m) {
        Extended(current, m);
        SameStart(bs, current, m);
        LongerBlock(bs, body, current, table[..i], m);
        current := current + [m];
      } else {
        NewBlock(bs, body, current, table[..i], m);
        NotExtended(current, m);
        NewBlockMaximal(bs, current, m);
        bs := bs + [current];
        body := DumpBlock(body, current);
        current := [m];
      }
      i := i + 1;
    }
    assert table[..i] == table;
    if current == [] {
      return EmptyTable;
    }
    NewBlock(bs, body, current, table, table[0]);
    MaximalAppend(bs, current);
    body := DumpBlock(body, current);
    BodyFolds(bs + [current], body, table);
    return Ok(body);
  }

  lemma Alone(m: Mapping)
    ensures Uniform([m])
  {
  }

  lemma Start()
    ensures CutInto([], [], [], [])
  {
  }

  lemma NoBlocks()
    ensures Maximal([])
  {
  }

  lemma NotExtended(b: seq<Mapping>, m: Mapping)
    requires Uniform(b)
    requires Shift(m) != Shift(b[0]) || (|b| >= 2 && Stride(b) != Stride2(b[|b| - 1], m))
    ensures !Uniform(b + [m])
  {
    var e, n := b + [m], |b|;
    assert e[n] == m && e[0] == b[0] && e[n - 1] == b[n - 1];
    if n >= 2 {
      assert e[1] == b[1] && Stride(e) == Stride(b);
      assert b[n - 1].src == b[0].src + (n - 1) * Stride(b);
      assert (n - 1) * Stride(b) + Stride(b) == n * Stride(b);
    }
  }

  /** What is emitted for a block of two or more, by its first and its last source. */
  lemma DumpIs(b: seq<Mapping>)
    requires Uniform(b) && |b| >= 2
    ensures var first, last, step, add := b[0].src, b[|b| - 1].src, b[1].src - b[0].src, b[0].dst - b[0].src;
            Dump(b) == [Below(first, Itself),
              if step == 2 && add == 1 && first % 2 == 0 then UpTo(last, OrOne)
              else if step == 1 then UpTo(last, Add(add))
              else UpToModulo(last, step, first % step, Add(add))]
  {
    assert b[|b| - 1].src == b[0].src + (|b| - 1) * Stride(b);
  }

  lemma Extended(b: seq<Mapping>, m: Mapping)
    requires Uniform(b) && Shift(m) == Shift(b[0]) && b[|b| - 1].src < m.src
    requires |b| == 1 || Stride(b) == Stride2(b[|b| - 1], m)
    ensures Uniform(b + [m])
  {
    var e, n := b + [m], |b|;
    if n > 1 {
      assert b[n - 1].src == b[0].src + (n - 1) * Stride(b);
      assert (n - 1) * Stride(b) + Stride(b) == n * Stride(b);
      assert Stride(e) == Stride(b);
      forall i | 0 <= i < |e|
        ensures e[i].src == e[0].src + i * Stride(e)
      {
        if i < n {
          assert e[i] == b[i];
        }
      }
    }
  }

  /** The whole generator: from the lines of the database to the emitted function. */
  method Generate(lines: seq<Option<Mapping>>) returns (r: Result<seq<Test>>)
    ensures r == Unsorted <==> !Sorted(Entries(lines))
    ensures r == EmptyTable <==> Entries(lines) == []
    ensures r.Ok? ==> forall i :: 0 <= i < |Entries(lines)| ==>
              Eval(r.value, Entries(lines)[i].src) == Entries(lines)[i].dst
    ensures r.Ok? ==> forall c :: !Contains(Entries(lines), c) ==> Eval(r.value, c) == c
  {
    var table := Mappings(lines);
    match table
    case Ok(t) => r := MakeBody(t);
    case Unsorted => r := Unsorted;
    case EmptyTable => r := EmptyTable;
  }
}
