/** The parser for mangled names: its regular expressions as scanning functions, the mutually recursive
    parsers of template arguments and nested names, and what they return. */
module ItaniumNames {

  import opened Wrappers

  // ---------------------------------------------------------------- regular expressions

  predicate IsDigit(c: char) {
    '0' <= c <= '9'
  }

  predicate IsSequenceId(c: char) {
    'A' <= c <= 'Z' || '0' <= c <= '9'
  }

  predicate IsQualifier(c: char) {
    c == 'r' || c == 'V' || c == 'K' || c == 'R' || c == 'O'
  }

  predicate NotE(c: char) {
    c != 'E'
  }

  predicate InLine(c: char) {
    c != '\n'
  }

  predicate OneLine(s: string) {
    forall i :: 0 <= i < |s| ==> s[i] != '\n'
  }

  /** The length of the longest prefix of characters of one class. */
  function Run(s: string, p: char -> bool): (n: nat)
    ensures n <= |s| && (forall i :: 0 <= i < n ==> p(s[i])) && (n < |s| ==> !p(s[n]))
    decreases |s|
  {
    if s == "" || !p(s[0]) then 0 else 1 + Run(s[1..], p)
  }

  /** What a dot repeated greedily matches: the rest of the line. */
  function Line(s: string): (r: string)
    ensures r <= s && (r == "" <==> s == "" || s[0] == '\n')
    ensures OneLine(s) ==> r == s
  {
    s[..Run(s, InLine)]
  }

  datatype Match = NoMatch | Groups(first: string, second: string)

  /** One or more digits, then one or more characters: the last digit is given back if nothing else
      is left for the second group. */
  function MatchNumber(s: string): Match {
    var k := Run(s, IsDigit);
    if k > 0 && Line(s[k..]) != "" then Groups(s[..k], Line(s[k..]))
    else if k > 1 then Groups(s[..k - 1], Line(s[k - 1..]))
    else NoMatch
  }

  /** One or more characters other than `E`, then one or more characters. */
  function MatchOperator(s: string): Match {
    var k := Run(s, NotE);
    if k == 0 then NoMatch
    else if k < |s| then Groups(s[..k], Line(s[k..]))
    else GiveBack(s, k - 1)
  }

  /** Gives characters back until one is left for the second group. */
  function GiveBack(s: string, k: nat): Match
    requires k < |s|
  {
    if k == 0 then NoMatch
    else if s[k] != '\n' then Groups(s[..k], Line(s[k..]))
    else GiveBack(s, k - 1)
  }

  /** A constructor or destructor name. */
  function MatchStructor(s: string): Match {
    if |s| > 2 && (s[0] == 'C' || s[0] == 'D') && '1' <= s[1] <= '3' && Line(s[2..]) != "" then
      Groups(s[..2], Line(s[2..]))
    else
      NoMatch
  }

  /** `S`, a sequence id, `_`, then one or more characters, which are returned. */
  function MatchSubstitution(s: string): Option<string> {
    if s == "" || s[0] != 'S' then None
    else
      var k := 1 + Run(s[1..], IsSequenceId);
      if k < |s| && s[k] == '_' && Line(s[k + 1..]) != "" then Some(Line(s[k + 1..])) else None
  }

  /** Any qualifiers, then one or more characters, which are returned. */
  function MatchQualifiers(s: string): Option<string> {
    var k := Run(s, IsQualifier);
    if Line(s[k..]) != "" then Some(Line(s[k..]))
    else if k > 0 then Some(Line(s[k - 1..]))
    else None
  }

  /** A way to split `s` into a first group of characters of class `p` and a second group. */
  ghost predicate Splits(s: string, p: char -> bool, k: nat) {
    0 < k <= |s| && (forall i :: 0 <= i < k ==> p(s[i])) && Line(s[k..]) != ""
  }

  /** `m` is what a greedy match returns: the split with the longest first group, if there is one. */
  ghost predicate Greedy(s: string, p: char -> bool, m: Match) {
    match m
    case NoMatch => forall k: nat :: !Splits(s, p, k)
    case Groups(a, b) =>
      a <= s && Splits(s, p, |a|) && b == Line(s[|a|..]) && forall k: nat :: Splits(s, p, k) ==> k <= |a|
  }

  lemma SplitAt(s: string, p: char -> bool, k: nat)
    requires k <= Run(s, p)
    ensures Splits(s, p, k) <==> 0 < k < |s| && s[k] != '\n'
    ensures k <= |s| && (Line(s[k..]) != "" <==> k < |s| && s[k] != '\n')
  {
    if k < |s| {
      assert s[k..][0] == s[k];
    }
  }

  lemma SplitsWithinRun(s: string, p: char -> bool, k: nat)
    requires Splits(s, p, k)
    ensures k <= Run(s, p)
  {
  }

  lemma GreedyAt(s: string, p: char -> bool, k: nat)
    requires Splits(s, p, k) && forall j: nat :: Splits(s, p, j) ==> j <= k
    ensures Greedy(s, p, Groups(s[..k], Line(s[k..])))
  {
    hide Splits, Line;
    assert |s[..k]| == k by {
      SplitsInside(s, p, k);
    }
  }

  lemma SplitsInside(s: string, p: char -> bool, k: nat)
    requires Splits(s, p, k)
    ensures 0 < k <= |s|
  {
  }

  lemma NumberIsGreedy(s: string)
    ensures Greedy(s, IsDigit, MatchNumber(s))
  {
    hide Splits, Line, Run, Greedy;
    var k := Run(s, IsDigit);
    SplitAt(s, IsDigit, k);
    if k > 0 {
      SplitAt(s, IsDigit, k - 1);
      assert IsDigit(s[k - 1]);
    }
    forall j: nat | Splits(s, IsDigit, j)
      ensures j <= k
    {
      SplitsWithinRun(s, IsDigit, j);
    }
    if Splits(s, IsDigit, k) {
      GreedyAt(s, IsDigit, k);
    } else if k > 1 {
      GreedyAt(s, IsDigit, k - 1);
    } else {
      GreedyNone(s, IsDigit);
    }
  }

  lemma GreedyNone(s: string, p: char -> bool)
    requires forall j: nat :: !Splits(s, p, j)
    ensures Greedy(s, p, NoMatch)
  {
  }

  lemma {:induction false} GiveBackIsGreedy(s: string, k: nat)
    requires k < |s| == Run(s, NotE)
    requires forall j: nat :: Splits(s, NotE, j) ==> j <= k
    ensures Greedy(s, NotE, GiveBack(s, k))
  {
    hide Splits, Line;
    SplitAt(s, NotE, k);
    if k > 0 && s[k] == '\n' {
      GiveBackIsGreedy(s, k - 1);
    }
  }

  lemma OperatorIsGreedy(s: string)
    ensures Greedy(s, NotE, MatchOperator(s))
  {
    hide Splits, Line, GiveBack;
    var k := Run(s, NotE);
    SplitAt(s, NotE, k);
    forall j: nat | Splits(s, NotE, j)
      ensures j <= k
    {
      SplitsWithinRun(s, NotE, j);
    }
    if k == |s| && k > 0 {
      GiveBackIsGreedy(s, k - 1);
    }
  }

  // ---------------------------------------------------------------- parsers

  function ToNat(digits: string): nat
    requires forall i :: 0 <= i < |digits| ==> IsDigit(digits[i])
    decreases |digits|
  {
    if digits == "" then 0
    else
      var k := |digits| - 1;
      assert IsDigit(digits[k]);
      10 * ToNat(digits[..k]) + (digits[k] as nat - '0' as nat)
  }

  /** The digits of a number, and what comes after as many characters as it says. */
  datatype Counted = NotCounted | Counted(digits: string, text: string, rest: string)

  function MatchCounted(s: string): (r: Counted)
    ensures r.Counted? ==> |r.rest| < |s| && r.digits != ""
  {
    match MatchNumber(s)
    case NoMatch => NotCounted
    case Groups(a, b) =>
      NumberIsGreedy(s);
      var n := if ToNat(a) < |b| then ToNat(a) else |b|;
      Counted(a, b[..n], b[n..])
  }

  datatype NameResult = NoName | Part(name: string, rest: string)

  function ParseName(arg: string): (r: NameResult)
    ensures r.Part? ==> |r.rest| < |arg| && r.name != ""
  {
    match MatchCounted(arg)
    case Counted(digits, text, rest) => Part(digits + text, rest)
    case NotCounted =>
      match MatchStructor(arg)
      case Groups(a, b) => Part(a, b)
      case NoMatch =>
        OperatorIsGreedy(arg);
        match MatchOperator(arg)
        case Groups(a, b) => Part(a, b)
        case NoMatch => NoName
  }

  /** What a parser returns; names outside of what it handles raise an exception. */
  datatype Outcome<T> = Ok(value: T) | Failed | TooComplex

  /** The parts of a name, each with whether it is a template, and the rest of the string. */
  type Names = (seq<(string, bool)>, string)

  function StartOf(arg: string): (r: string)
    requires arg != ""
    ensures |r| < |arg|
  {
    var tmp := match MatchSubstitution(arg[1..]) case Some(t) => t case None => arg[1..];
    match MatchQualifiers(tmp) case Some(t) => t case None => tmp
  }

  /** Skips template arguments up to the `E` that ends them. */
  function SkipArgs(tmp: string): (r: Outcome<string>)
    ensures r.Ok? ==> |r.value| < |tmp|
    decreases |tmp|
  {
    if tmp == "" then Failed
    else
      match MatchCounted(tmp)
      case Counted(_, _, rest) => SkipArgs(rest)
      case NotCounted =>
        match MatchSubstitution(tmp)
        case Some(t) => SkipArgs(t)
        case None =>
          if tmp[0] == 'I' then
            match SkipArgs(tmp[1..]) case Ok(t) => SkipArgs(t) case Failed => Failed case TooComplex => TooComplex
          else if tmp[0] == 'N' then
            match ParseNames([], StartOf(tmp))
            case Ok((_, t)) => SkipArgs(t)
            case Failed => Failed
            case TooComplex => TooComplex
          else if tmp[0] == 'L' || tmp[0] == 'X' then TooComplex
          else if tmp[0] == 'E' then Ok(tmp[1..])
          else SkipArgs(tmp[1..])
  }

  /** Parses names up to the `E` that ends them. */
  function ParseNames(ret: seq<(string, bool)>, tmp: string): (r: Outcome<Names>)
    ensures r.Ok? ==> |r.value.1| < |tmp|
    decreases |tmp|
  {
    if tmp == "" then Failed
    else if tmp[0] == 'E' then Ok((ret, tmp[1..]))
    else
      match ParseName(tmp)
      case NoName => Failed
      case Part(name, rest) =>
        if rest != "" && rest[0] == 'I' then
          match SkipArgs(rest[1..])
          case Ok(t) => ParseNames(ret + [(name, true)], t)
          case Failed => Failed
          case TooComplex => TooComplex
        else ParseNames(ret + [(name, false)], rest)
  }

  // ---------------------------------------------------------------- what is left is a suffix

  ghost predicate Suffix(s: string, r: string) {
    |r| <= |s| && r == s[|s| - |r|..]
  }

  /** `r` is what follows an `E` of `s`. */
  ghost predicate AfterE(s: string, r: string) {
    |r| < |s| && Suffix(s, r) && s[|s| - |r| - 1] == 'E'
  }

  lemma SuffixTransitive(s: string, t: string, r: string)
    requires OneLine(s) && Suffix(s, t) && Suffix(t, r)
    ensures Suffix(s, r) && OneLine(r)
    ensures AfterE(t, r) ==> AfterE(s, r)
  {
    var k, j := |s| - |t|, |t| - |r|;
    assert s[k..][j..] == s[k + j..];
    assert forall i :: 0 <= i < |r| ==> r[i] == s[k + j + i];
  }

  lemma LineIsRest(s: string, k: nat)
    requires OneLine(s) && k <= |s|
    ensures Line(s[k..]) == s[k..] && Suffix(s, s[k..]) && OneLine(s[k..])
  {
    assert forall i :: 0 <= i < |s[k..]| ==> s[k..][i] == s[k + i];
  }

  lemma CountedSuffix(s: string)
    requires OneLine(s) && MatchCounted(s).Counted?
    ensures Suffix(s, MatchCounted(s).rest) && OneLine(MatchCounted(s).rest)
  {
    NumberIsGreedy(s);
    var m := MatchNumber(s);
    LineIsRest(s, |m.first|);
    var n := |m.second| - |MatchCounted(s).rest|;
    assert m.second[n..] == MatchCounted(s).rest && Suffix(m.second, m.second[n..]);
    SuffixTransitive(s, m.second, m.second[n..]);
  }

  lemma SubstitutionSuffix(s: string)
    requires OneLine(s) && MatchSubstitution(s).Some?
    ensures Suffix(s, MatchSubstitution(s).value) && OneLine(MatchSubstitution(s).value)
  {
    var k := 1 + Run(s[1..], IsSequenceId);
    LineIsRest(s, k + 1);
  }

  lemma QualifiersSuffix(s: string)
    requires OneLine(s) && MatchQualifiers(s).Some?
    ensures Suffix(s, MatchQualifiers(s).value) && OneLine(MatchQualifiers(s).value)
  {
    var k := Run(s, IsQualifier);
    LineIsRest(s, k);
    if k > 0 {
      LineIsRest(s, k - 1);
    }
  }

  lemma StartSuffix(s: string)
    requires s != "" && OneLine(s)
    ensures Suffix(s, StartOf(s)) && OneLine(StartOf(s))
  {
    hide Suffix, OneLine, MatchQualifiers, MatchSubstitution;
    LineIsRest(s, 1);
    var u := s[1..];
    var tmp := match MatchSubstitution(u) case Some(t) => t case None => u;
    if MatchSubstitution(u).Some? {
      SubstitutionSuffix(u);
      SuffixTransitive(s, u, tmp);
    }
    if MatchQualifiers(tmp).Some? {
      QualifiersSuffix(tmp);
      SuffixTransitive(s, tmp, StartOf(s));
    }
  }

  lemma NameSuffix(s: string)
    requires OneLine(s) && ParseName(s).Part?
    ensures Suffix(s, ParseName(s).rest) && OneLine(ParseName(s).rest)
  {
    if MatchCounted(s).Counted? {
      CountedSuffix(s);
    } else if MatchStructor(s).Groups? {
      LineIsRest(s, 2);
    } else {
      OperatorIsGreedy(s);
      LineIsRest(s, |MatchOperator(s).first|);
    }
  }

  /** Skipping the arguments of a template leaves what follows some `E`. */
  lemma {:induction false} SkipArgsSuffix(tmp: string)
    requires OneLine(tmp) && SkipArgs(tmp).Ok?
    ensures AfterE(tmp, SkipArgs(tmp).value)
    decreases |tmp|
  {
    var r := SkipArgs(tmp).value;
    LineIsRest(tmp, 1);
    if MatchCounted(tmp).Counted? {
      CountedSuffix(tmp);
      SkipArgsSuffix(MatchCounted(tmp).rest);
      SuffixTransitive(tmp, MatchCounted(tmp).rest, r);
    } else if MatchSubstitution(tmp).Some? {
      SubstitutionSuffix(tmp);
      SkipArgsSuffix(MatchSubstitution(tmp).value);
      SuffixTransitive(tmp, MatchSubstitution(tmp).value, r);
    } else if tmp[0] == 'I' {
      SkipArgsSuffix(tmp[1..]);
      var t := SkipArgs(tmp[1..]).value;
      SuffixTransitive(tmp, tmp[1..], t);
      SkipArgsSuffix(t);
      SuffixTransitive(tmp, t, r);
    } else if tmp[0] == 'N' {
      StartSuffix(tmp);
      ParseNamesSuffix([], StartOf(tmp));
      var t := ParseNames([], StartOf(tmp)).value.1;
      SuffixTransitive(tmp, StartOf(tmp), t);
      SkipArgsSuffix(t);
      SuffixTransitive(tmp, t, r);
    } else if tmp[0] != 'E' {
      SkipArgsSuffix(tmp[1..]);
      SuffixTransitive(tmp, tmp[1..], r);
    }
  }

  /** Parsing a nested name leaves what follows some `E`. */
  lemma {:induction false} ParseNamesSuffix(ret: seq<(string, bool)>, tmp: string)
    requires OneLine(tmp) && ParseNames(ret, tmp).Ok?
    ensures AfterE(tmp, ParseNames(ret, tmp).value.1)
    decreases |tmp|
  {
    var r := ParseNames(ret, tmp).value.1;
    if tmp[0] != 'E' {
      var name, rest := ParseName(tmp).name, ParseName(tmp).rest;
      NameSuffix(tmp);
      if rest != "" && rest[0] == 'I' {
        LineIsRest(rest, 1);
        SkipArgsSuffix(rest[1..]);
        var t := SkipArgs(rest[1..]).value;
        SuffixTransitive(tmp, rest, rest[1..]);
        SuffixTransitive(tmp, rest[1..], t);
        ParseNamesSuffix(ret + [(name, true)], t);
        SuffixTransitive(tmp, t, r);
      } else {
        ParseNamesSuffix(ret + [(name, false)], rest);
        SuffixTransitive(tmp, rest, r);
      }
    }
  }

  // ---------------------------------------------------------------- the parsers as they run

  function SkipTemplate(arg: string): Outcome<string>
    requires arg != "" && arg[0] == 'I'
  {
    SkipArgs(arg[1..])
  }

  function NestedName(arg: string): Outcome<Names>
    requires arg != "" && arg[0] == 'N'
  {
    ParseNames([], StartOf(arg))
  }

  /** Whatever is parsed, what is left is a proper suffix of the argument, behind an `E`. */
  lemma ParsersLeaveSuffix(arg: string)
    requires arg != "" && OneLine(arg)
    ensures arg[0] == 'I' && SkipTemplate(arg).Ok? ==> AfterE(arg, SkipTemplate(arg).value)
    ensures arg[0] == 'N' && NestedName(arg).Ok? ==> AfterE(arg, NestedName(arg).value.1)
  {
    if arg[0] == 'I' && SkipTemplate(arg).Ok? {
      LineIsRest(arg, 1);
      SkipArgsSuffix(arg[1..]);
      SuffixTransitive(arg, arg[1..], SkipTemplate(arg).value);
    }
    if arg[0] == 'N' && NestedName(arg).Ok? {
      StartSuffix(arg);
      ParseNamesSuffix([], StartOf(arg));
      SuffixTransitive(arg, StartOf(arg), NestedName(arg).value.1);
    }
  }

  /** What becomes of the arguments that are left; nothing is left of a failed parse. */
  function SkipLeft(tmp: Option<string>): Outcome<string> {
    match tmp case None => Failed case Some(t) => SkipArgs(t)
  }

  function ParseLeft(ret: seq<(string, bool)>, tmp: Option<string>): Outcome<Names> {
    match tmp case None => Failed case Some(t) => ParseNames(ret, t)
  }

  function Size(tmp: Option<string>): nat {
    match tmp case None => 0 case Some(t) => |t|
  }

  method SkipItaniumTemplate(arg: string) returns (r: Outcome<string>)
    requires arg != "" && arg[0] == 'I'
    ensures r == SkipTemplate(arg)
    decreases |arg|
  {
    var tmp := Some(arg[1..]);
    while tmp.Some? && tmp.value != ""
      invariant SkipLeft(tmp) == SkipTemplate(arg) && Size(tmp) < |arg|
      decreases Size(tmp)
    {
      var t := tmp.value;
      var m := MatchCounted(t);
      if m.Counted? {
        tmp := Some(m.rest);
        continue;
      }
      var s := MatchSubstitution(t);
      if s.Some? {
        tmp := s;
      } else if t[0] == 'I' {
        var inner := SkipItaniumTemplate(t);
        if inner.TooComplex? {
          return TooComplex;
        }
        tmp := if inner.Ok? then Some(inner.value) else None;
      } else if t[0] == 'N' {
        var inner := ParseItaniumNestedName(t);
        if inner.TooComplex? {
          return TooComplex;
        }
        tmp := if inner.Ok? then Some(inner.value.1) else None;
      } else if t[0] == 'L' || t[0] == 'X' {
        return TooComplex;
      } else if t[0] == 'E' {
        return Ok(t[1..]);
      } else {
        tmp := Some(t[1..]);
      }
    }
    return Failed;
  }

  method ParseItaniumNestedName(arg: string) returns (r: Outcome<Names>)
    requires arg != "" && arg[0] == 'N'
    ensures r == NestedName(arg)
    decreases |arg|
  {
    var ret := [];
    var s := MatchSubstitution(arg[1..]);
    var start := if s.Some? then s.value else arg[1..];
    var q := MatchQualifiers(start);
    var tmp := Some(if q.Some? then q.value else start);
    assert tmp.value == StartOf(arg);
    while tmp.Some? && tmp.value != ""
      invariant ParseLeft(ret, tmp) == NestedName(arg) && Size(tmp) < |arg|
      decreases Size(tmp)
    {
      var t := tmp.value;
      if t[0] == 'E' {
        return Ok((ret, t[1..]));
      }
      var part := ParseName(t);
      if part.NoName? {
        return Failed;
      }
      tmp := Some(part.rest);
      var isTemplate := false;
      if part.rest != "" && part.rest[0] == 'I' {
        var inner := SkipItaniumTemplate(part.rest);
        if inner.TooComplex? {
          return TooComplex;
        }
        tmp := if inner.Ok? then Some(inner.value) else None;
        isTemplate := true;
      }
      ret := ret + [(part.name, isTemplate)];
    }
    return Failed;
  }
}
