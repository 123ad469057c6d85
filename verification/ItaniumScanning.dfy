/** What the scanning functions and the parsers of mangled names make of any line, spelled out. */
module ItaniumScanning {
  import opened ItaniumNames
  import opened Wrappers

  lemma {:induction false} RunIs(s: string, p: char -> bool, k: nat)
    requires k <= |s| && (forall i :: 0 <= i < k ==> p(s[i])) && (k < |s| ==> !p(s[k]))
    ensures Run(s, p) == k
    decreases k
  {
    if k > 0 {
      assert forall i :: 0 <= i < k - 1 ==> s[1..][i] == s[i + 1];
      RunIs(s[1..], p, k - 1);
    }
  }

  /** Where the line ends that `k` is on; it has characters from there on. */
  ghost predicate LineTo(s: string, k: nat, e: nat) {
    k < e <= |s| && (forall i :: k <= i < e ==> s[i] != '\n') && (e < |s| ==> s[e] == '\n')
  }

  lemma LineIs(s: string, k: nat, e: nat)
    requires LineTo(s, k, e)
    ensures Line(s[k..]) == s[k..e]
  {
    assert forall i :: 0 <= i < e - k ==> s[k..][i] == s[k + i];
    RunIs(s[k..], InLine, e - k);
  }

  // ---------------------------------------------------------------- before the first name

  /** `S`, capitals and digits, `_`, and something behind it. */
  ghost predicate SubstitutionUpTo(s: string, k: nat) {
    && 0 < k < |s| - 1 && s[0] == 'S' && s[k] == '_'
    && forall i :: 0 < i < k ==> 'A' <= s[i] <= 'Z' || '0' <= s[i] <= '9'
  }

  /** What comes behind a substitution is taken up to the end of its line. */
  lemma SubstitutionIff(s: string)
    ensures MatchSubstitution(s).Some? <==> exists k: nat :: SubstitutionUpTo(s, k) && s[k + 1] != '\n'
    ensures forall k: nat, j: nat, e: nat :: SubstitutionUpTo(s, k) && j == k + 1 && LineTo(s, j, e) ==>
      MatchSubstitution(s) == Some(s[j..e])
  {
    hide Line;
    if s != "" && s[0] == 'S' {
      var n := 1 + Run(s[1..], IsSequenceId);
      forall i | 0 < i < n
        ensures IsSequenceId(s[i])
      {
        assert s[i] == s[1..][i - 1];
      }
      assert n < |s| ==> s[n] == s[1..][n - 1];
      forall k: nat | SubstitutionUpTo(s, k)
        ensures k == n
      {
        assert forall i :: 0 <= i < k - 1 ==> s[1..][i] == s[i + 1];
        RunIs(s[1..], IsSequenceId, k - 1);
      }
      if MatchSubstitution(s).Some? {
        assert SubstitutionUpTo(s, n);
      }
      var m := n + 1;
      forall e: nat | LineTo(s, m, e)
        ensures Line(s[m..]) == s[m..e]
      {
        LineIs(s, m, e);
      }
    }
  }

  /** How many qualifiers a line starts with. */
  ghost predicate QualifiersUpTo(s: string, k: nat) {
    && k <= |s| && (forall i :: 0 <= i < k ==> s[i] in "rVKRO")
    && (k < |s| ==> s[k] !in "rVKRO")
  }

  /** Qualifiers are skipped, and nothing else; if nothing else is on the line, the last of them is left. */
  lemma QualifiersSkipped(s: string, k: nat)
    requires QualifiersUpTo(s, k)
    ensures forall e: nat :: LineTo(s, k, e) ==> MatchQualifiers(s) == Some(s[k..e])
    ensures k == |s| || s[k] == '\n' ==> MatchQualifiers(s) == if k == 0 then None else Some([s[k - 1]])
  {
    hide Line;
    RunIs(s, IsQualifier, k);
    forall e: nat | LineTo(s, k, e)
      ensures Line(s[k..]) == s[k..e]
    {
      LineIs(s, k, e);
    }
    if k > 0 && (k == |s| || s[k] == '\n') {
      LineIs(s, k - 1, k);
      assert s[k - 1..k] == [s[k - 1]];
    }
  }

  /** A line that starts with neither a substitution nor a qualifier is not skipped at all. */
  lemma NothingSkipped(arg: string)
    requires |arg| > 1 && OneLine(arg) && arg[1] != 'S' && arg[1] !in "rVKRO"
    ensures StartOf(arg) == arg[1..]
  {
    QualifiersSkipped(arg[1..], 0);
    assert LineTo(arg[1..], 0, |arg| - 1);
    assert MatchSubstitution(arg[1..]) == None;
  }

  // ---------------------------------------------------------------- names

  /** The line starts with a number of `k` digits and more. A number that is all there is leaves its
      last digit over. */
  ghost predicate NumberUpTo(s: string, k: nat) {
    && 0 < k < |s| && (forall i :: 0 <= i < k ==> '0' <= s[i] <= '9')
    && ('0' <= s[k] <= '9' ==> k + 1 == |s|)
  }

  lemma NumberMatched(s: string, k: nat)
    requires OneLine(s) && NumberUpTo(s, k)
    ensures MatchNumber(s) == Groups(s[..k], s[k..])
    ensures forall i :: 0 <= i < k ==> IsDigit(s[..k][i])
  {
    hide OneLine, Line;
    LineIsRest(s, k);
    if '0' <= s[k] <= '9' {
      RunIs(s, IsDigit, k + 1);
      LineIsRest(s, k + 1);
    } else {
      RunIs(s, IsDigit, k);
    }
  }

  /** A name that starts with a number: the number, and as many characters as it says, or as there are. */
  lemma NumberedName(s: string, k: nat)
    requires OneLine(s) && NumberUpTo(s, k)
    ensures forall i :: 0 <= i < k ==> IsDigit(s[..k][i])
    ensures var n := ToNat(s[..k]);
            var e := if k + n < |s| then k + n else |s|;
            ParseName(s) == Part(s[..e], s[e..])
  {
    hide OneLine, Line, MatchNumber, ToNat, Run, MatchStructor, MatchOperator;
    NumberMatched(s, k);
    var n := ToNat(s[..k]);
    var e := if k + n < |s| then k + n else |s|;
    assert s[..k] + s[k..][..e - k] == s[..e] && s[k..][e - k..] == s[e..];
  }

  lemma Uncounted(s: string)
    requires |s| < 2 || !('0' <= s[0] <= '9')
    ensures MatchCounted(s) == NotCounted
  {
    if s != "" && '0' <= s[0] <= '9' {
      assert Run(s, IsDigit) <= 1;
      assert Line(s[1..]) == "";
    }
  }

  /** A structor is taken from any text, up to the end of its line. */
  lemma StructorIff(s: string)
    ensures MatchStructor(s).Groups? <==> |s| > 2 && s[0] in "CD" && s[1] in "123" && s[2] != '\n'
    ensures forall e: nat :: LineTo(s, 2, e) && s[0] in "CD" && s[1] in "123" ==>
      MatchStructor(s) == Groups(s[..2], s[2..e])
  {
    assert |s| > 2 ==> ('1' <= s[1] <= '3' <==> s[1] in "123");
    forall e: nat | LineTo(s, 2, e) && s[0] in "CD" && s[1] in "123"
      ensures Line(s[2..]) == s[2..e]
    {
      LineIs(s, 2, e);
    }
  }

  /** A constructor or a destructor. */
  lemma StructorName(s: string)
    requires OneLine(s) && |s| > 2 && s[0] in "CD" && s[1] in "123"
    ensures ParseName(s) == Part(s[..2], s[2..])
  {
    Uncounted(s);
    LineIsRest(s, 2);
  }

  /** Any other name is taken for an operator, and goes on up to the next `E`, or up to the last character. */
  lemma OperatorName(s: string, k: nat)
    requires OneLine(s) && |s| > 1 && !('0' <= s[0] <= '9') && s[0] != 'E'
    requires !(|s| > 2 && s[0] in "CD" && s[1] in "123")
    requires 0 < k < |s| && (forall i :: 0 <= i < k ==> s[i] != 'E') && (s[k] == 'E' || k + 1 == |s|)
    ensures ParseName(s) == Part(s[..k], s[k..])
  {
    hide OneLine, Line;
    Uncounted(s);
    LineIsRest(s, k);
    NoStructor(s);
    if s[k] == 'E' {
      RunIs(s, NotE, k);
    } else {
      RunIs(s, NotE, k + 1);
      NoBreak(s, k);
    }
  }

  lemma NoStructor(s: string)
    requires !(|s| > 2 && s[0] in "CD" && s[1] in "123")
    ensures MatchStructor(s) == NoMatch
  {
    assert |s| > 2 ==> ('1' <= s[1] <= '3' <==> s[1] in "123");
  }

  lemma NoBreak(s: string, k: nat)
    requires OneLine(s) && k < |s|
    ensures s[k] != '\n'
  {
  }

  /** Nothing but a line that is too short or starts with `E` has no name. */
  lemma NoNameIff(s: string)
    requires OneLine(s)
    ensures ParseName(s) == NoName <==> |s| < 2 || s[0] == 'E'
  {
    hide OneLine, Line, MatchCounted, MatchStructor;
    if |s| < 2 || s[0] == 'E' {
      Uncounted(s);
      NoStructor(s);
      if s != "" && s[0] != 'E' {
        RunIs(s, NotE, 1);
      }
    } else if '0' <= s[0] <= '9' {
      var k := NumberAt(s);
      NumberedName(s, k);
    } else if |s| > 2 && s[0] in "CD" && s[1] in "123" {
      StructorName(s);
    } else {
      var k := OperatorAt(s, 1);
      OperatorName(s, k);
    }
  }

  lemma NumberAt(s: string) returns (k: nat)
    requires |s| > 1 && '0' <= s[0] <= '9'
    ensures NumberUpTo(s, k)
  {
    var n := Run(s, IsDigit);
    k := if n < |s| then n else n - 1;
    assert forall i :: 0 <= i < n ==> IsDigit(s[i]);
  }

  lemma {:induction false} OperatorAt(s: string, j: nat) returns (k: nat)
    requires 0 < j < |s| && forall i :: 0 <= i < j ==> s[i] != 'E'
    ensures 0 < k < |s| && (forall i :: 0 <= i < k ==> s[i] != 'E') && (s[k] == 'E' || k + 1 == |s|)
    decreases |s| - j
  {
    k := j;
    if s[j] != 'E' && j + 1 < |s| {
      k := OperatorAt(s, j + 1);
    }
  }

  /** On one line, a name and what is left of it make up what was there. */
  lemma NameAndRest(s: string)
    requires OneLine(s) && ParseName(s).Part?
    ensures ParseName(s).name + ParseName(s).rest == s
  {
    hide OneLine, ParseName;
    NoNameIff(s);
    if '0' <= s[0] <= '9' {
      var k := NumberAt(s);
      NumberedName(s, k);
    } else if |s| > 2 && s[0] in "CD" && s[1] in "123" {
      StructorName(s);
    } else {
      var k := OperatorAt(s, 1);
      OperatorName(s, k);
    }
  }

  // ---------------------------------------------------------------- template arguments that are refused

  /** Characters that are skipped one by one. */
  ghost predicate Codes(s: string) {
    forall i :: 0 <= i < |s| ==> !('0' <= s[i] <= '9') && s[i] !in "SINLXE"
  }

  lemma {:induction false} CodesSkipped(codes: string, rest: string)
    requires Codes(codes)
    ensures SkipArgs(codes + rest) == SkipArgs(rest)
    decreases |codes|
  {
    hide SkipArgs;
    if codes == "" {
      assert codes + rest == rest;
    } else {
      var s := codes + rest;
      assert s[1..] == codes[1..] + rest;
      CodeSkipped(s);
      CodesSkipped(codes[1..], rest);
    }
  }

  lemma NoCode(c: char)
    ensures c in "SINLXE" <==> c == 'S' || c == 'I' || c == 'N' || c == 'L' || c == 'X' || c == 'E'
  {
  }

  lemma NoSubstitutionAt(s: string)
    requires s == "" || s[0] != 'S'
    ensures MatchSubstitution(s) == None
  {
  }

  lemma CodeSkipped(s: string)
    requires s != "" && !('0' <= s[0] <= '9') && s[0] !in "SINLXE"
    ensures SkipArgs(s) == SkipArgs(s[1..])
  {
    hide MatchCounted, MatchSubstitution, ParseNames, StartOf;
    NoCode(s[0]);
    Uncounted(s);
    NoSubstitutionAt(s);
  }

  /** An expression among the arguments raises an exception, */
  lemma ExpressionIsTooComplex(codes: string, c: char, rest: string)
    requires Codes(codes) && (c == 'L' || c == 'X')
    ensures SkipTemplate("I" + codes + [c] + rest) == TooComplex
  {
    hide SkipArgs;
    var arg := "I" + codes + [c] + rest;
    assert arg[1..] == codes + ([c] + rest);
    CodesSkipped(codes, [c] + rest);
    ExpressionFirst([c] + rest);
  }

  lemma ExpressionFirst(s: string)
    requires s != "" && (s[0] == 'L' || s[0] == 'X')
    ensures SkipArgs(s) == TooComplex
  {
    Uncounted(s);
    NoSubstitutionAt(s);
  }

  /** which goes through all templates around it; */
  lemma InnerIsTooComplex(codes: string, arg: string)
    requires Codes(codes) && arg != "" && arg[0] == 'I' && SkipTemplate(arg) == TooComplex
    ensures SkipTemplate("I" + codes + arg) == TooComplex
  {
    hide SkipArgs;
    assert ("I" + codes + arg)[1..] == codes + arg;
    CodesSkipped(codes, arg);
    TemplateFirst(arg);
  }

  lemma TemplateFirst(s: string)
    requires s != "" && s[0] == 'I' && (SkipArgs(s[1..]) == TooComplex || SkipArgs(s[1..]) == Failed)
    ensures SkipArgs(s) == SkipArgs(s[1..])
  {
    Uncounted(s);
    NoSubstitutionAt(s);
  }

  /** and arguments without an end fail. */
  lemma EndlessFails(codes: string)
    requires Codes(codes)
    ensures SkipTemplate("I" + codes) == Failed
  {
    hide SkipArgs;
    assert ("I" + codes)[1..] == codes + "";
    CodesSkipped(codes, "");
    assert SkipArgs("") == Failed by {
      NothingToSkip();
    }
  }

  lemma NothingToSkip()
    ensures SkipArgs("") == Failed
  {
  }
}
