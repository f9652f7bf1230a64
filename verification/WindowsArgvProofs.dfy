/** The quoted command line splits back into the argument vector, for all arguments. */
module WindowsArgvProofs {
  import opened WindowsArgv

  /** Both replacements in one pass. */
  function Escaped(v: Text): Text
    decreases |v|
  {
    var n := LeadingRun(v);
    if n == |v| then Slashes(2 * n)
    else if v[n] == QUOTE then Slashes(2 * n + 1) + [QUOTE] + Escaped(v[n + 1..])
    else v[..n + 1] + Escaped(v[n + 1..])
  }

  lemma {:induction false} RunIsSlashes(v: Text)
    ensures v[..LeadingRun(v)] == Slashes(LeadingRun(v))
  {
    if v != [] && v[0] == BACKSLASH {
      RunIsSlashes(v[1..]);
      assert v[..LeadingRun(v)] == [v[0]] + v[1..][..LeadingRun(v[1..])];
    }
  }

  lemma {:induction false} AllSlashes(n: nat)
    ensures forall k :: 0 <= k < n ==> Slashes(n)[k] == BACKSLASH
  {
    if n > 0 {
      AllSlashes(n - 1);
    }
  }

  lemma {:induction false} SlashesAdd(m: nat, n: nat)
    ensures Slashes(m) + Slashes(n) == Slashes(m + n)
  {
    AllSlashes(m);
    AllSlashes(n);
    AllSlashes(m + n);
  }

  lemma {:induction false} TrailingRunOfSlashes(n: nat)
    ensures TrailingRun(Slashes(n)) == n
  {
    if n > 0 {
      AllSlashes(n);
      AllSlashes(n - 1);
      assert Slashes(n)[..n - 1] == Slashes(n - 1);
      TrailingRunOfSlashes(n - 1);
    }
  }

  /** Only what follows the last other unit counts. */
  lemma {:induction false} TrailingRunBehind(a: Text, b: Text)
    requires a != [] && a[|a| - 1] != BACKSLASH
    ensures TrailingRun(a + b) == TrailingRun(b)
    decreases |b|
  {
    if b == [] {
      assert a + b == a;
    } else if b[|b| - 1] == BACKSLASH {
      assert (a + b)[..|a + b| - 1] == a + b[..|b| - 1];
      TrailingRunBehind(a, b[..|b| - 1]);
    }
  }

  lemma {:induction false} OnePass(v: Text)
    ensures DoubleTrailing(EscapeQuotes(v)) == Escaped(v)
    decreases |v|
  {
    var n := LeadingRun(v);
    if n == |v| {
      RunIsSlashes(v);
      assert v == v[..n];
      TrailingRunOfSlashes(n);
      SlashesAdd(n, n);
    } else {
      var head := if v[n] == QUOTE then Slashes(2 * n + 1) + [QUOTE] else v[..n + 1];
      var rest := v[n + 1..];
      OnePass(rest);
      TrailingAppend(head, EscapeQuotes(rest));
    }
  }

  lemma TrailingAppend(a: Text, b: Text)
    requires a != [] && a[|a| - 1] != BACKSLASH
    ensures DoubleTrailing(a + b) == a + DoubleTrailing(b)
  {
    TrailingRunBehind(a, b);
    assert a + b + Slashes(TrailingRun(b)) == a + (b + Slashes(TrailingRun(b)));
  }

  lemma {:induction false} EscapedAtMostDoubles(v: Text)
    ensures |Escaped(v)| <= 2 * |v|
    decreases |v|
  {
    var n := LeadingRun(v);
    if n < |v| {
      EscapedAtMostDoubles(v[n + 1..]);
    }
  }

  /** `|quote(v)| <= 2|v| + 2`, so the length check bounds the work of quoting. */
  lemma QuoteAtMostDoubles(v: Text)
    ensures |Quote(v)| <= 2 * |v| + 2
  {
    OnePass(v);
    EscapedAtMostDoubles(v);
  }

  // ------------------------------------------------------------- the round trip

  predicate EndsArgument(tail: Text) {
    tail == [] || tail[0] == SPACE
  }

  lemma {:induction false} ParseSlashes(n: nat, s: Text, quoted: bool, slashes: nat, arg: Text)
    ensures ParseArgument(Slashes(n) + s, quoted, slashes, arg) == ParseArgument(s, quoted, slashes + n, arg)
  {
    if n == 0 {
      assert Slashes(n) + s == s;
    } else {
      assert (Slashes(n) + s)[1..] == Slashes(n - 1) + s;
      ParseSlashes(n - 1, s, quoted, slashes + 1, arg);
    }
  }

  lemma {:induction false} ParsePlain(v: Text, tail: Text, slashes: nat, arg: Text)
    requires NUL !in v && EndsArgument(tail)
    requires forall k :: 0 <= k < |v| ==> !IsBlank(v[k]) && v[k] != QUOTE
    ensures ParseArgument(v + tail, false, slashes, arg) == (arg + Slashes(slashes) + v, tail)
    decreases |v|
  {
    if v == [] {
      assert v + tail == tail;
      assert arg + Slashes(slashes) + v == arg + Slashes(slashes);
    } else {
      assert (v + tail)[1..] == v[1..] + tail;
      if v[0] == BACKSLASH {
        ParsePlain(v[1..], tail, slashes + 1, arg);
        SlashesAdd(slashes, 1);
        assert Slashes(1) == [BACKSLASH];
        assert arg + Slashes(slashes + 1) + v[1..] == arg + Slashes(slashes) + v;
      } else {
        ParsePlain(v[1..], tail, 0, arg + Slashes(slashes) + [v[0]]);
        assert arg + Slashes(slashes) + [v[0]] + Slashes(0) + v[1..] == arg + Slashes(slashes) + v;
      }
    }
  }

  lemma ParseClosingQuote(n: nat, tail: Text, arg: Text)
    requires EndsArgument(tail)
    ensures ParseArgument(Slashes(2 * n) + ([QUOTE] + tail), true, 0, arg) == (arg + Slashes(n), tail)
  {
    ParseSlashes(2 * n, [QUOTE] + tail, true, 0, arg);
    assert ([QUOTE] + tail)[1..] == tail;
    assert arg + Slashes(n) + Slashes(0) == arg + Slashes(n);
  }

  lemma ParseEscapedQuote(n: nat, more: Text, arg: Text)
    ensures ParseArgument(Slashes(2 * n + 1) + ([QUOTE] + more), true, 0, arg)
         == ParseArgument(more, true, 0, arg + Slashes(n) + [QUOTE])
  {
    ParseSlashes(2 * n + 1, [QUOTE] + more, true, 0, arg);
    QuoteBehindOddRun([QUOTE] + more, 2 * n + 1, n, arg);
    Tail(QUOTE, more);
  }

  lemma QuoteBehindOddRun(s: Text, slashes: nat, n: nat, arg: Text)
    requires s != [] && s[0] == QUOTE && slashes == 2 * n + 1
    ensures ParseArgument(s, true, slashes, arg) == ParseArgument(s[1..], true, 0, arg + Slashes(n) + [QUOTE])
  {
    assert slashes % 2 == 1 && slashes / 2 == n;
  }

  lemma Tail(u: Unit, more: Text)
    ensures ([u] + more)[1..] == more
  {
  }

  lemma ParseOtherUnit(n: nat, u: Unit, more: Text, arg: Text)
    requires u != QUOTE && u != BACKSLASH && u != NUL
    ensures ParseArgument(Slashes(n) + ([u] + more), true, 0, arg) == ParseArgument(more, true, 0, arg + Slashes(n) + [u])
  {
    ParseSlashes(n, [u] + more, true, 0, arg);
    assert ([u] + more)[1..] == more;
  }

  /** Inside the quotes, escaping is undone unit by unit until the closing quote. */
  lemma {:induction false} ParseEscaped(v: Text, tail: Text, arg: Text)
    requires NUL !in v && EndsArgument(tail)
    ensures ParseArgument(Escaped(v) + ([QUOTE] + tail), true, 0, arg) == (arg + v, tail)
    decreases |v|
  {
    var n := LeadingRun(v);
    RunIsSlashes(v);
    if n == |v| {
      assert v == v[..n];
      ParseClosingQuote(n, tail, arg);
    } else {
      var u, rest := v[n], v[n + 1..];
      var more := Escaped(rest) + ([QUOTE] + tail);
      ParseEscaped(rest, tail, arg + Slashes(n) + [u]);
      SplitAt(v, n, arg);
      if u == QUOTE {
        ParseEscapedQuote(n, more, arg);
        Reassociate(Slashes(2 * n + 1), QUOTE, Escaped(rest), [QUOTE] + tail);
      } else {
        ParseOtherUnit(n, u, more, arg);
        assert v[..n + 1] == v[..n] + [u];
        Reassociate(Slashes(n), u, Escaped(rest), [QUOTE] + tail);
      }
    }
  }

  lemma Reassociate(a: Text, u: Unit, b: Text, c: Text)
    ensures a + [u] + b + c == a + ([u] + (b + c))
  {
  }

  lemma SplitAt(v: Text, n: nat, arg: Text)
    requires n < |v| && v[..n] == Slashes(n)
    ensures arg + Slashes(n) + [v[n]] + v[n + 1..] == arg + v
  {
  }

  lemma ParseQuoted(v: Text, tail: Text)
    requires NUL !in v && EndsArgument(tail)
    ensures ParseArgument(Quote(v) + tail, false, 0, []) == (v, tail)
  {
    if NeedsQuotes(v) {
      OnePass(v);
      Regroup(Escaped(v), tail);
      OpeningQuote(Escaped(v) + ([QUOTE] + tail));
      ParseEscaped(v, tail, []);
      assert [] + v == v;
    } else {
      ParsePlain(v, tail, 0, []);
      assert [] + Slashes(0) + v == v;
    }
  }

  lemma Regroup(body: Text, tail: Text)
    ensures [QUOTE] + body + [QUOTE] + tail == [QUOTE] + (body + ([QUOTE] + tail))
  {
  }

  lemma OpeningQuote(s: Text)
    ensures ParseArgument([QUOTE] + s, false, 0, []) == ParseArgument(s, true, 0, [])
  {
    assert ([QUOTE] + s)[1..] == s;
    assert [] + Slashes(0) == [];
  }

  lemma QuoteStartsArgument(v: Text)
    requires NUL !in v
    ensures Quote(v) != [] && !IsBlank(Quote(v)[0]) && Quote(v)[0] != NUL
  {
  }

  /** Every list of arguments without NUL is recovered exactly from its joined quotation. */
  lemma {:induction false} ArgumentsAreRecovered(args: seq<Text>)
    requires forall k :: 0 <= k < |args| ==> NUL !in args[k]
    ensures ParseArguments(Join(args, false)) == args
    decreases |args|
  {
    if args != [] {
      var line := Join(args, false);
      var tail := if |args| == 1 then [] else [SPACE] + Join(args[1..], false);
      assert line == Quote(args[0]) + tail;
      QuoteStartsArgument(args[0]);
      ParseQuoted(args[0], tail);
      ArgumentsAreRecovered(args[1..]);
      if |args| > 1 {
        SkipOneSpace(Join(args[1..], false));
      }
      assert args == [args[0]] + args[1..];
    }
  }

  lemma SkipOneSpace(s: Text)
    ensures ParseArguments([SPACE] + s) == ParseArguments(s)
  {
    assert ([SPACE] + s)[1..] == s;
  }

  /** The computed length is the length of the line with its final NUL exactly when there
      are arguments; for a bare program it counts one separator too many. */
  lemma LengthIsExactWithArguments(program: Text, args: seq<Text>)
    ensures CommandLineLength(program, args, false) == |CommandLine(program, args)| + 1 + (if args == [] then 1 else 0)
  {
  }

  // ------------------------------------------------------------ the program name

  lemma {:induction false} ParseProgramPart(v: Text, s: Text, quoted: bool, name: Text)
    requires NUL !in v && QUOTE !in v && (quoted || forall k :: 0 <= k < |v| ==> !IsBlank(v[k]))
    ensures ParseProgram(v + s, quoted, name) == ParseProgram(s, quoted, name + v)
    decreases |v|
  {
    if v == [] {
      assert v + s == s && name + v == name;
    } else {
      assert (v + s)[1..] == v[1..] + s;
      ParseProgramPart(v[1..], s, quoted, name + [v[0]]);
      assert name + [v[0]] + v[1..] == name + v;
    }
  }

  lemma {:induction false} ParseProgramDropsQuotes(s: Text, quoted: bool, name: Text)
    requires QUOTE !in name
    ensures QUOTE !in ParseProgram(s, quoted, name).0
    decreases |s|
  {
    if !(AtEnd(s) || (!quoted && IsBlank(s[0]))) {
      ParseProgramDropsQuotes(s[1..], !quoted, name);
      if s[0] != QUOTE {
        ParseProgramDropsQuotes(s[1..], quoted, name + [s[0]]);
      }
    }
  }

  lemma {:induction false} NoQuotesToEscape(v: Text)
    requires QUOTE !in v
    ensures EscapeQuotes(v) == v
    decreases |v|
  {
    var n := LeadingRun(v);
    if n < |v| {
      NoQuotesToEscape(v[n + 1..]);
      assert v == v[..n + 1] + v[n + 1..];
    }
  }

  /** The quoting follows the rules for arguments, but the program name is read without
      escapes: it is recovered exactly if it contains no quote, and does not both need
      quoting and end in a backslash. */
  lemma ProgramIsRecoveredExactlyWhen(program: Text, tail: Text)
    requires NUL !in program && EndsArgument(tail)
    ensures ParseProgram(Quote(program) + tail, false, []) == (program, tail)
       <==> QUOTE !in program && !(NeedsQuotes(program) && TrailingRun(program) > 0)
  {
    if QUOTE in program {
      QuotedNameIsLost(program, Quote(program) + tail);
    } else if NeedsQuotes(program) {
      QuotedProgram(program, tail);
      DoublingKeeps(program);
    } else {
      BareProgram(program, tail);
    }
  }

  lemma QuotedNameIsLost(program: Text, line: Text)
    requires QUOTE in program
    ensures ParseProgram(line, false, []).0 != program
  {
    ParseProgramDropsQuotes(line, false, []);
  }

  lemma DoublingKeeps(v: Text)
    ensures DoubleTrailing(v) == v <==> TrailingRun(v) == 0
  {
    if TrailingRun(v) > 0 {
      assert |DoubleTrailing(v)| == |v| + TrailingRun(v);
    }
  }

  lemma BareProgram(program: Text, tail: Text)
    requires NUL !in program && !NeedsQuotes(program) && EndsArgument(tail)
    ensures ParseProgram(Quote(program) + tail, false, []) == (program, tail)
  {
    ParseProgramPart(program, tail, false, []);
    assert [] + program == program;
    assert ParseProgram(tail, false, program) == (program, tail);
  }

  lemma QuotedProgram(program: Text, tail: Text)
    requires NUL !in program && QUOTE !in program && EndsArgument(tail) && NeedsQuotes(program)
    ensures ParseProgram(Quote(program) + tail, false, []) == (DoubleTrailing(program), tail)
  {
    NoQuotesToEscape(program);
    AllSlashes(TrailingRun(program));
    Regroup(DoubleTrailing(program), tail);
    ProgramInQuotes(DoubleTrailing(program), tail);
  }

  lemma ProgramInQuotes(body: Text, tail: Text)
    requires NUL !in body && QUOTE !in body && EndsArgument(tail)
    ensures ParseProgram([QUOTE] + (body + ([QUOTE] + tail)), false, []) == (body, tail)
  {
    Tail(QUOTE, body + ([QUOTE] + tail));
    Tail(QUOTE, tail);
    ParseProgramPart(body, [QUOTE] + tail, true, []);
    assert [] + body == body;
    ProgramQuote([QUOTE] + tail, true, body);
    assert ParseProgram(tail, false, body) == (body, tail);
    ProgramQuote([QUOTE] + (body + ([QUOTE] + tail)), false, []);
  }

  lemma ProgramQuote(s: Text, quoted: bool, name: Text)
    requires s != [] && s[0] == QUOTE
    ensures ParseProgram(s, quoted, name) == ParseProgram(s[1..], !quoted, name)
  {
  }

  /** What passes the check is split back into program and arguments. */
  lemma AcceptedLinesRoundTrip(program: Text, args: seq<Text>)
    requires AssertArgv(program, args, false).Success?
    requires QUOTE !in program && !(NeedsQuotes(program) && TrailingRun(program) > 0)
    ensures var (name, rest) := ParseProgram(CommandLine(program, args), false, []);
            name == program && ParseArguments(rest) == args
    ensures |CommandLine(program, args)| + 1 <= MAX_LINE
  {
    var tail := if args == [] then [] else [SPACE] + Join(args, false);
    ProgramIsRecoveredExactlyWhen(program, tail);
    ArgumentsAreRecovered(args);
    SkipOneSpace(Join(args, false));
  }
}
