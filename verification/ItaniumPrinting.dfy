/** Nested names in printed form, and that the parsers read back what was printed. */
module ItaniumPrinting {
  import opened ItaniumNames
  import opened Wrappers

  // ---------------------------------------------------------------- the grammar

  /** A component of a nested name: a source name, or a constructor or destructor. */
  datatype Component = Source(text: string) | Structor(kind: char, variant: char)

  datatype Qualified = Nil | Cons(head: Component, args: Option<Args>, tail: Qualified)

  /** Template arguments: types without a name, substitutions, source names, templates and nested names. */
  datatype Args =
    | End
    | Code(c: char, more: Args)
    | Substitution(id: string, more: Args)
    | Named(text: string, more: Args)
    | Template(inner: Args, more: Args)
    | Nested(prefix: Prefix, names: Qualified, more: Args)

  /** What may precede the first component of a nested name. */
  datatype Prefix = Prefix(substitution: Option<string>, qualifiers: string)

  ghost predicate ValidText(t: string) {
    t != "" && !('0' <= t[0] <= '9') && OneLine(t)
  }

  ghost predicate ValidId(t: string) {
    forall i :: 0 <= i < |t| ==> 'A' <= t[i] <= 'Z' || '0' <= t[i] <= '9'
  }

  ghost predicate ValidPrefix(p: Prefix) {
    && (p.substitution.Some? ==> ValidId(p.substitution.value))
    && forall i :: 0 <= i < |p.qualifiers| ==> p.qualifiers[i] in "rVKRO"
  }

  ghost predicate ValidComponent(c: Component) {
    match c
    case Source(t) => ValidText(t)
    case Structor(k, v) => (k == 'C' || k == 'D') && '1' <= v <= '3'
  }

  /** Characters that the skipper takes for types. */
  predicate IsCode(c: char) {
    !('0' <= c <= '9') && c != '\n' && c !in "SINLXE"
  }

  ghost predicate ValidNames(q: Qualified) {
    match q
    case Nil => true
    case Cons(c, a, t) => ValidComponent(c) && (a.Some? ==> ValidArgs(a.value)) && ValidNames(t)
  }

  ghost predicate ValidArgs(a: Args) {
    match a
    case End => true
    case Code(c, m) => IsCode(c) && ValidArgs(m)
    case Substitution(t, m) => ValidId(t) && ValidArgs(m)
    case Named(t, m) => ValidText(t) && ValidArgs(m)
    case Template(i, m) => ValidArgs(i) && ValidArgs(m)
    case Nested(p, q, m) => ValidPrefix(p) && ValidNames(q) && ValidArgs(m)
  }

  // ---------------------------------------------------------------- printing

  function Decimal(n: nat): (s: string)
    ensures s != "" && (forall i :: 0 <= i < |s| ==> IsDigit(s[i])) && ToNat(s) == n
  {
    var d := [(n % 10) as char + '0'];
    if n < 10 then
      assert d[..0] == "";
      d
    else
      var s := Decimal(n / 10);
      assert (s + d)[..|s|] == s;
      s + d
  }

  function PrintName(t: string): string {
    Decimal(|t|) + t
  }

  function PrintComponent(c: Component): string {
    match c case Source(t) => PrintName(t) case Structor(k, v) => [k, v]
  }

  function PrintPrefix(p: Prefix): string {
    (if p.substitution.Some? then "S" + p.substitution.value + "_" else "") + p.qualifiers
  }

  /** The components and the `E` that ends them, in front of `rest`. */
  function PrintNames(q: Qualified, rest: string): string {
    match q
    case Nil => "E" + rest
    case Cons(c, a, t) =>
      PrintComponent(c) +
      match a
      case None => PrintNames(t, rest)
      case Some(args) => "I" + PrintArgs(args, PrintNames(t, rest))
  }

  /** The arguments and the `E` that ends them, in front of `rest`. */
  function PrintArgs(a: Args, rest: string): string {
    match a
    case End => "E" + rest
    case Code(c, m) => [c] + PrintArgs(m, rest)
    case Substitution(t, m) => "S" + t + "_" + PrintArgs(m, rest)
    case Named(t, m) => PrintName(t) + PrintArgs(m, rest)
    case Template(i, m) => "I" + PrintArgs(i, PrintArgs(m, rest))
    case Nested(p, q, m) => "N" + PrintPrefix(p) + PrintNames(q, PrintArgs(m, rest))
  }

  /** The components as the parser reports them. */
  function Listed(q: Qualified): seq<(string, bool)> {
    match q
    case Nil => []
    case Cons(c, a, t) => [(PrintComponent(c), a.Some?)] + Listed(t)
  }

  // ---------------------------------------------------------------- scanning what was printed

  lemma {:induction false} RunConcat(a: string, b: string, p: char -> bool)
    requires (forall i :: 0 <= i < |a| ==> p(a[i])) && (b != "" ==> !p(b[0]))
    ensures Run(a + b, p) == |a|
    decreases |a|
  {
    if a == "" {
      assert a + b == b;
    } else {
      assert (a + b)[1..] == a[1..] + b;
      RunConcat(a[1..], b, p);
    }
  }

  lemma OneLineConcat(a: string, b: string)
    requires OneLine(a) && OneLine(b)
    ensures OneLine(a + b)
  {
  }

  lemma DigitsPrinted(d: string, b: string)
    requires d != "" && forall i :: 0 <= i < |d| ==> IsDigit(d[i])
    requires b != "" && !IsDigit(b[0]) && OneLine(b)
    ensures MatchNumber(d + b) == Groups(d, b)
  {
    RunConcat(d, b, IsDigit);
    assert (d + b)[..|d|] == d && (d + b)[|d|..] == b;
  }

  lemma DigitsOneLine(d: string)
    requires forall i :: 0 <= i < |d| ==> IsDigit(d[i])
    ensures OneLine(d)
  {
    assert forall i :: 0 <= i < |d| ==> IsDigit(d[i]);
  }

  lemma NamePrinted(t: string, rest: string)
    requires ValidText(t) && OneLine(rest)
    ensures PrintName(t) + rest != "" && IsDigit((PrintName(t) + rest)[0]) && OneLine(PrintName(t) + rest)
    ensures MatchCounted(PrintName(t) + rest) == Counted(Decimal(|t|), t, rest)
  {
    hide Decimal, OneLine, MatchNumber, ToNat, Line, Run;
    var d, b := Decimal(|t|), t + rest;
    OneLineConcat(t, rest);
    DigitsPrinted(d, b);
    DigitsOneLine(d);
    OneLineConcat(d, b);
    assert PrintName(t) + rest == d + b;
    assert b[..|t|] == t && b[|t|..] == rest;
  }

  lemma NotCountedUnlessDigit(s: string)
    requires s == "" || !IsDigit(s[0])
    ensures MatchCounted(s) == NotCounted
  {
  }

  lemma StructorPrinted(k: char, v: char, rest: string)
    requires ValidComponent(Structor(k, v)) && OneLine(rest) && rest != ""
    ensures ParseName([k, v] + rest) == Part([k, v], rest)
  {
    var s := [k, v] + rest;
    NotCountedUnlessDigit(s);
    assert s[..2] == [k, v] && s[2..] == rest;
  }

  lemma ComponentPrinted(c: Component, rest: string)
    requires ValidComponent(c) && OneLine(rest) && rest != ""
    ensures var s := PrintComponent(c) + rest;
            && s != "" && s[0] != 'E' && !IsQualifier(s[0]) && s[0] != 'S' && OneLine(s)
            && ParseName(s) == Part(PrintComponent(c), rest)
  {
    match c
    case Source(t) =>
      NamePrinted(t, rest);
    case Structor(k, v) =>
      StructorPrinted(k, v, rest);
      OneLineConcat([k, v], rest);
  }

  /** Printed names start with a component or with `E`. */
  lemma NamesOneLine(q: Qualified, rest: string)
    requires ValidNames(q) && OneLine(rest)
    ensures var s := PrintNames(q, rest);
            OneLine(s) && s != "" && !IsQualifier(s[0]) && s[0] != 'S'
    decreases q
  {
    match q
    case Nil =>
    case Cons(c, a, t) =>
      NamesOneLine(t, rest);
      var u := PrintNames(t, rest);
      if a.Some? {
        ArgsOneLine(a.value, u);
        ComponentPrinted(c, "I" + PrintArgs(a.value, u));
      } else {
        ComponentPrinted(c, u);
      }
  }

  lemma ArgsOneLine(a: Args, rest: string)
    requires ValidArgs(a) && OneLine(rest)
    ensures OneLine(PrintArgs(a, rest)) && PrintArgs(a, rest) != ""
    decreases a
  {
    match a
    case End =>
    case Code(c, m) =>
      ArgsOneLine(m, rest);
    case Substitution(t, m) =>
      ArgsOneLine(m, rest);
      SubstitutionPrinted(t, PrintArgs(m, rest));
    case Named(t, m) =>
      ArgsOneLine(m, rest);
      NamePrinted(t, PrintArgs(m, rest));
    case Template(i, m) =>
      ArgsOneLine(m, rest);
      ArgsOneLine(i, PrintArgs(m, rest));
    case Nested(p, q, m) =>
      ArgsOneLine(m, rest);
      NamesOneLine(q, PrintArgs(m, rest));
      PrefixPrinted(p, PrintNames(q, PrintArgs(m, rest)));
  }

  lemma SubstitutionPrinted(t: string, rest: string)
    requires ValidId(t) && OneLine(rest) && rest != ""
    ensures OneLine("S" + t + "_" + rest)
    ensures MatchSubstitution("S" + t + "_" + rest) == Some(rest)
  {
    var s := "S" + t + "_" + rest;
    assert s[1..] == t + ("_" + rest);
    RunConcat(t, "_" + rest, IsSequenceId);
    assert s[1 + |t|] == '_' && s[2 + |t|..] == rest;
    assert forall i :: 0 <= i < |t| ==> IsSequenceId(t[i]);
    OneLineConcat("S" + t, "_" + rest);
    assert s == ("S" + t) + ("_" + rest);
  }

  lemma QualifiersPrinted(k: string, rest: string)
    requires (forall i :: 0 <= i < |k| ==> IsQualifier(k[i])) && OneLine(rest) && rest != "" && !IsQualifier(rest[0])
    ensures MatchQualifiers(k + rest) == Some(rest) && OneLine(k + rest)
  {
    RunConcat(k, rest, IsQualifier);
    assert (k + rest)[|k|..] == rest;
    OneLineConcat(k, rest);
  }

  lemma StartIs(s: string, u: string, rest: string)
    requires s != "" && MatchQualifiers(u) == Some(rest)
    requires MatchSubstitution(s[1..]) == Some(u) || (MatchSubstitution(s[1..]) == None && s[1..] == u)
    ensures StartOf(s) == rest
  {
    hide MatchQualifiers, MatchSubstitution;
  }

  lemma NoSubstitution(s: string)
    requires s == "" || s[0] != 'S'
    ensures MatchSubstitution(s) == None
  {
  }

  lemma PlainPrefix(k: string, rest: string)
    requires ValidPrefix(Prefix(None, k)) && OneLine(rest) && rest != "" && !IsQualifier(rest[0]) && rest[0] != 'S'
    ensures OneLine("N" + (k + rest)) && StartOf("N" + (k + rest)) == rest
    ensures OneLine(k + rest)
  {
    hide OneLine, StartOf, MatchQualifiers, MatchSubstitution;
    var u := k + rest;
    QualifiersPrinted(k, rest);
    NOneLine(u);
    assert u[0] == if k == "" then rest[0] else k[0];
    NoSubstitution(u);
    assert ("N" + u)[1..] == u;
    StartIs("N" + u, u, rest);
  }

  lemma SubstitutedPrefix(t: string, k: string, rest: string)
    requires ValidPrefix(Prefix(Some(t), k)) && OneLine(rest) && rest != "" && !IsQualifier(rest[0])
    ensures var s := "N" + ("S" + t + "_" + (k + rest));
            OneLine(s) && StartOf(s) == rest
  {
    hide OneLine, StartOf, MatchQualifiers, MatchSubstitution;
    var u := k + rest;
    QualifiersPrinted(k, rest);
    SubstitutionPrinted(t, u);
    var v := "S" + t + "_" + u;
    NOneLine(v);
    assert ("N" + v)[1..] == v;
    StartIs("N" + v, u, rest);
  }

  /** The start of a nested name is skipped down to its components. */
  lemma PrefixPrinted(p: Prefix, rest: string)
    requires ValidPrefix(p) && OneLine(rest) && rest != "" && !IsQualifier(rest[0]) && rest[0] != 'S'
    ensures var s := "N" + PrintPrefix(p) + rest;
            OneLine(s) && StartOf(s) == rest
  {
    hide OneLine, StartOf;
    var k := p.qualifiers;
    if p.substitution.Some? {
      var t := p.substitution.value;
      SubstitutedPrefix(t, k, rest);
      assert "N" + PrintPrefix(p) + rest == "N" + ("S" + t + "_" + (k + rest));
    } else {
      PlainPrefix(k, rest);
      assert "N" + PrintPrefix(p) + rest == "N" + (k + rest);
    }
  }

  lemma NOneLine(s: string)
    requires OneLine(s)
    ensures OneLine("N" + s)
  {
  }

  // ---------------------------------------------------------------- round trips

  lemma ParsePlain(ret: seq<(string, bool)>, s: string, name: string, u: string)
    requires s != "" && s[0] != 'E' && ParseName(s) == Part(name, u) && (u == "" || u[0] != 'I')
    ensures ParseNames(ret, s) == ParseNames(ret + [(name, false)], u)
  {
    hide ParseName, SkipArgs;
  }

  lemma ParseTemplate(ret: seq<(string, bool)>, s: string, name: string, a: string, u: string)
    requires s != "" && s[0] != 'E' && ParseName(s) == Part(name, "I" + a) && SkipArgs(a) == Ok(u)
    ensures ParseNames(ret, s) == ParseNames(ret + [(name, true)], u)
  {
    hide ParseName, SkipArgs;
    assert ("I" + a)[1..] == a;
  }

  /** Printed names are read back, with what follows them left over. */
  lemma {:induction false} NamesRoundTrip(q: Qualified, ret: seq<(string, bool)>, rest: string)
    requires ValidNames(q) && OneLine(rest)
    ensures ParseNames(ret, PrintNames(q, rest)) == Ok((ret + Listed(q), rest))
    decreases q
  {
    hide ParseName, SkipArgs, OneLine;
    match q
    case Nil =>
      assert ("E" + rest)[1..] == rest && ret + [] == ret;
    case Cons(c, a, t) =>
      var u, name := PrintNames(t, rest), PrintComponent(c);
      NamesOneLine(t, rest);
      NotTemplate(t, rest);
      match a {
        case None =>
          ComponentPrinted(c, u);
          ParsePlain(ret, name + u, name, u);
          NamesRoundTrip(t, ret + [(name, false)], rest);
          assert ret + [(name, false)] + Listed(t) == ret + Listed(q);
        case Some(args) =>
          var b := PrintArgs(args, u);
          ArgsOneLine(args, u);
          IOneLine(b);
          ComponentPrinted(c, "I" + b);
          ArgsRoundTrip(args, u);
          ParseTemplate(ret, name + ("I" + b), name, b, u);
          NamesRoundTrip(t, ret + [(name, true)], rest);
          assert ret + [(name, true)] + Listed(t) == ret + Listed(q);
      }
  }

  lemma IOneLine(s: string)
    requires OneLine(s)
    ensures OneLine("I" + s)
  {
  }

  lemma NotTemplate(q: Qualified, rest: string)
    requires ValidNames(q) && OneLine(rest)
    ensures PrintNames(q, rest) != "" && PrintNames(q, rest)[0] != 'I'
  {
    if q.Cons? && q.head.Source? {
      assert IsDigit(Decimal(|q.head.text|)[0]);
    }
  }

  /** One argument is skipped, and then those in `u`. */
  lemma SkipOne(s: string, u: string)
    requires s != ""
    requires || (MatchCounted(s).Counted? && MatchCounted(s).rest == u)
             || (!IsDigit(s[0]) && MatchSubstitution(s) == Some(u))
             || (IsCode(s[0]) && s[1..] == u)
    ensures SkipArgs(s) == SkipArgs(u)
  {
    hide MatchCounted, MatchSubstitution, ParseNames, StartOf;
    if !IsDigit(s[0]) {
      NotCountedUnlessDigit(s);
    }
    if s[0] != 'S' {
      NoSubstitution(s);
    }
  }

  lemma SkipInner(s: string, u: string)
    requires s != "" && s[0] == 'I' && SkipArgs(s[1..]) == Ok(u)
    ensures SkipArgs(s) == SkipArgs(u)
  {
    NotCountedUnlessDigit(s);
    NoSubstitution(s);
  }

  lemma SkipNested(s: string, names: seq<(string, bool)>, u: string)
    requires s != "" && s[0] == 'N' && ParseNames([], StartOf(s)) == Ok((names, u))
    ensures SkipArgs(s) == SkipArgs(u)
  {
    NotCountedUnlessDigit(s);
    NoSubstitution(s);
  }

  lemma SkipEnd(rest: string)
    ensures SkipArgs("E" + rest) == Ok(rest)
  {
    NotCountedUnlessDigit("E" + rest);
    assert ("E" + rest)[1..] == rest;
  }

  /** Printed template arguments are skipped, with what follows them left over. */
  lemma {:induction false} ArgsRoundTrip(a: Args, rest: string)
    requires ValidArgs(a) && OneLine(rest)
    ensures SkipArgs(PrintArgs(a, rest)) == Ok(rest)
    decreases a
  {
    hide SkipArgs, ParseNames, OneLine, MatchSubstitution, MatchCounted, StartOf;
    var s := PrintArgs(a, rest);
    match a
    case End =>
      SkipEnd(rest);
    case Code(c, m) =>
      assert s[1..] == PrintArgs(m, rest);
      SkipOne(s, PrintArgs(m, rest));
      ArgsRoundTrip(m, rest);
    case Substitution(t, m) =>
      ArgsOneLine(m, rest);
      SubstitutionPrinted(t, PrintArgs(m, rest));
      SkipOne(s, PrintArgs(m, rest));
      ArgsRoundTrip(m, rest);
    case Named(t, m) =>
      ArgsOneLine(m, rest);
      NamePrinted(t, PrintArgs(m, rest));
      SkipOne(s, PrintArgs(m, rest));
      ArgsRoundTrip(m, rest);
    case Template(i, m) =>
      var u := PrintArgs(m, rest);
      ArgsOneLine(m, rest);
      assert s[1..] == PrintArgs(i, u);
      ArgsRoundTrip(i, u);
      SkipInner(s, u);
      ArgsRoundTrip(m, rest);
    case Nested(p, q, m) =>
      var u := PrintArgs(m, rest);
      ArgsOneLine(m, rest);
      NamesOneLine(q, u);
      PrefixPrinted(p, PrintNames(q, u));
      NamesRoundTrip(q, [], u);
      SkipNested(s, [] + Listed(q), u);
      ArgsRoundTrip(m, rest);
  }

  /** A printed nested name is read back as its components, with what follows it left over. */
  lemma NestedNameRoundTrip(p: Prefix, q: Qualified, rest: string)
    requires ValidPrefix(p) && ValidNames(q) && OneLine(rest)
    ensures NestedName("N" + PrintPrefix(p) + PrintNames(q, rest)) == Ok((Listed(q), rest))
  {
    NamesOneLine(q, rest);
    PrefixPrinted(p, PrintNames(q, rest));
    NamesRoundTrip(q, [], rest);
    assert [] + Listed(q) == Listed(q);
  }

  /** ... and so are printed template arguments skipped. */
  lemma TemplateRoundTrip(a: Args, rest: string)
    requires ValidArgs(a) && OneLine(rest)
    ensures SkipTemplate("I" + PrintArgs(a, rest)) == Ok(rest)
  {
    assert ("I" + PrintArgs(a, rest))[1..] == PrintArgs(a, rest);
    ArgsRoundTrip(a, rest);
  }
}
