/** Windows command lines (src/platform/shell.ts): the quoting of argument vectors and the
    length check. Strings are sequences of UTF-16 code units, which is what the length
    limit counts. */
module WindowsArgv {
  import opened Wrappers
  import opened Common

  type Unit = int
  type Text = seq<Unit>

  const NUL: Unit := 0
  const TAB: Unit := 9
  const SPACE: Unit := 32
  const QUOTE: Unit := 34
  const BACKSLASH: Unit := 92

  const MAX_LINE := 32767

  function Slashes(n: nat): (s: Text)
    ensures |s| == n
  {
    if n == 0 then [] else [BACKSLASH] + Slashes(n - 1)
  }

  /** The number of backslashes at the start, and at the end, of a text. */
  function LeadingRun(v: Text): (n: nat)
    ensures n <= |v|
    ensures n < |v| ==> v[n] != BACKSLASH
  {
    if v == [] || v[0] != BACKSLASH then 0 else 1 + LeadingRun(v[1..])
  }

  function TrailingRun(v: Text): (n: nat)
    ensures n <= |v|
  {
    if v == [] || v[|v| - 1] != BACKSLASH then 0 else 1 + TrailingRun(v[..|v| - 1])
  }

  /** `value.replace(/(\\*)"/g, '$1$1\\"')`: the backslashes before a quote are doubled and
      the quote is escaped; matching resumes behind each match. */
  function EscapeQuotes(v: Text): Text
    decreases |v|
  {
    var n := LeadingRun(v);
    if n == |v| then v
    else if v[n] == QUOTE then Slashes(2 * n + 1) + [QUOTE] + EscapeQuotes(v[n + 1..])
    else v[..n + 1] + EscapeQuotes(v[n + 1..])
  }

  /** `.replace(/(\\+)$/g, '$1$1')`. */
  function DoubleTrailing(v: Text): Text {
    v + Slashes(TrailingRun(v))
  }

  predicate NeedsQuotes(v: Text) {
    v == [] || exists k :: 0 <= k < |v| && (IsSpace(v[k]) || v[k] == QUOTE)
  }

  function Quote(v: Text): Text {
    if !NeedsQuotes(v) then v else [QUOTE] + DoubleTrailing(EscapeQuotes(v)) + [QUOTE]
  }

  /** `args.map(...).join(' ')`. */
  function Join(args: seq<Text>, verbatim: bool): Text {
    if args == [] then []
    else
      var head := if verbatim then args[0] else Quote(args[0]);
      if |args| == 1 then head else head + [SPACE] + Join(args[1..], verbatim)
  }

  function CommandLineLength(program: Text, args: seq<Text>, verbatim: bool): nat {
    |Quote(program)| + 1 + |Join(args, verbatim)| + 1
  }

  function AssertArgv(program: Text, args: seq<Text>, verbatim: bool): Result<nat> {
    if NUL in program || (exists k :: 0 <= k < |args| && NUL in args[k]) then Failure(INVALID_INPUT)
    else if CommandLineLength(program, args, verbatim) > MAX_LINE then Failure(RESOURCE_LIMIT)
    else Success(CommandLineLength(program, args, verbatim))
  }

  /** The line that is passed to the operating system, without its final NUL. */
  function CommandLine(program: Text, args: seq<Text>): Text {
    Quote(program) + (if args == [] then [] else [SPACE] + Join(args, false))
  }

  // ------------------------------------------------------------ the other side

  predicate IsBlank(u: Unit) {
    u == SPACE || u == TAB
  }

  predicate AtEnd(s: Text) {
    s == [] || s[0] == NUL
  }

  /** One argument by the rules of Microsoft's "Parsing C command-line arguments", unit by
      unit: `slashes` backslashes are pending and `arg` is complete so far. */
  function ParseArgument(s: Text, quoted: bool, slashes: nat, arg: Text): (r: (Text, Text))
    ensures |r.1| <= |s|
    decreases |s|
  {
    if AtEnd(s) || (!quoted && IsBlank(s[0])) then (arg + Slashes(slashes), s)
    else if s[0] == BACKSLASH then ParseArgument(s[1..], quoted, slashes + 1, arg)
    else if s[0] == QUOTE then
      // 2n backslashes and a quote: n backslashes and a delimiter; 2n+1: n and a literal.
      var arg' := arg + Slashes(slashes / 2);
      if slashes % 2 == 1 then ParseArgument(s[1..], quoted, 0, arg' + [QUOTE])
      else if quoted && |s| > 1 && s[1] == QUOTE then ParseArgument(s[2..], quoted, 0, arg' + [QUOTE])
      else ParseArgument(s[1..], !quoted, 0, arg')
    else ParseArgument(s[1..], quoted, 0, arg + Slashes(slashes) + [s[0]])
  }

  function SkipBlanks(s: Text): (r: Text)
    ensures |r| <= |s|
    ensures r != [] ==> !IsBlank(r[0])
  {
    if s != [] && IsBlank(s[0]) then SkipBlanks(s[1..]) else s
  }

  function ParseArguments(s: Text): seq<Text>
    decreases |s|
  {
    var t := SkipBlanks(s);
    if AtEnd(t) then []
    else
      var (arg, rest) := ParseArgument(t, false, 0, []);
      if |rest| < |s| then [arg] + ParseArguments(rest) else [arg]
  }

  /** The program name: quotes only group, escapes do not apply. */
  function ParseProgram(s: Text, quoted: bool, name: Text): (Text, Text)
    decreases |s|
  {
    if AtEnd(s) || (!quoted && IsBlank(s[0])) then (name, s)
    else if s[0] == QUOTE then ParseProgram(s[1..], !quoted, name)
    else ParseProgram(s[1..], quoted, name + [s[0]])
  }
}
