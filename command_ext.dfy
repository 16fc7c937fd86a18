/** Commands as the tool spawns them: how a command line is rendered for
    the log, and how a finished process becomes a result. */
module CommandExt {
  import opened Common

  /** An OS string: program names and arguments need not be valid UTF-8. */
  datatype OsText = Utf8(text: string) | NonUtf8(bytes: seq<bv8>)

  datatype Command = Command(program: OsText, args: seq<OsText>)

  /** What became of a spawned process. */
  datatype ProcessOutput =
    | Exited(success: bool, stdout: string, stderr: string)
    | LaunchFailed(reason: string)

  /** The argument for a path. */
  function PathArg(p: Path): OsText {
    Utf8(Display(p))
  }

  /** Arguments for a list of texts, in order. */
  function Texts(ss: seq<string>): (args: seq<OsText>)
    ensures |args| == |ss|
    ensures forall i :: 0 <= i < |ss| ==> args[i] == Utf8(ss[i])
  {
    if ss == [] then [] else [Utf8(ss[0])] + Texts(ss[1..])
  }

  /** Arguments for a list of paths, in order. */
  function PathArgs(ps: seq<Path>): (args: seq<OsText>)
    ensures |args| == |ps|
    ensures forall i :: 0 <= i < |ps| ==> args[i] == PathArg(ps[i])
  {
    if ps == [] then [] else [PathArg(ps[0])] + PathArgs(ps[1..])
  }

  function ProgramText(program: OsText): string {
    match program
    case Utf8(t) => t
    case NonUtf8(_) => "[Non-UTF8 Program]"
  }

  function ArgumentText(arg: OsText): string {
    match arg
    case Utf8(t) => t
    case NonUtf8(_) => "[Non-UTF8 Argument]"
  }

  /** `parts.join(" ")` */
  function JoinSpaced(parts: seq<string>): string
    requires parts != []
  {
    if |parts| == 1 then parts[0] else parts[0] + " " + JoinSpaced(parts[1..])
  }

  /** The text of each argument, in order. */
  function ArgumentTexts(args: seq<OsText>): (texts: seq<string>)
    ensures |texts| == |args|
    ensures forall i :: 0 <= i < |args| ==> texts[i] == ArgumentText(args[i])
  {
    if args == [] then [] else [ArgumentText(args[0])] + ArgumentTexts(args[1..])
  }

  /** `CliStr::cli_str`: the program, then every argument, space separated. */
  function CliStr(c: Command): (s: string)
    ensures c.args == [] ==> s == ProgramText(c.program)
  {
    JoinSpaced([ProgramText(c.program)] + ArgumentTexts(c.args))
  }

  /** Each argument preceded by one space. */
  function SpacedArguments(args: seq<OsText>): string {
    if args == [] then "" else " " + ArgumentText(args[0]) + SpacedArguments(args[1..])
  }

  lemma {:induction false} JoinSpacedUnfolds(first: string, rest: seq<OsText>)
    ensures JoinSpaced([first] + ArgumentTexts(rest)) == first + SpacedArguments(rest)
    decreases |rest|
  {
    if rest != [] {
      var next := ArgumentText(rest[0]);
      JoinSpacedUnfolds(next, rest[1..]);
      assert ([first] + ArgumentTexts(rest))[1..] == [next] + ArgumentTexts(rest[1..]);
    }
  }

  /** The rendered command line is the program's text followed, for every
      argument in order, by a single space and the argument's text. */
  lemma CliStrIsProgramThenSpacedArguments(c: Command)
    ensures CliStr(c) == ProgramText(c.program) + SpacedArguments(c.args)
  {
    JoinSpacedUnfolds(ProgramText(c.program), c.args);
  }

  /** Split a text at every space. */
  function SplitSpaces(s: string): (parts: seq<string>)
    ensures parts != []
    decreases |s|
  {
    var i := FirstSpace(s);
    if i == |s| then [s] else [s[..i]] + SplitSpaces(s[i + 1..])
  }

  function FirstSpace(s: string): (i: nat)
    ensures i <= |s|
    ensures i < |s| ==> s[i] == ' '
    ensures forall j :: 0 <= j < i ==> s[j] != ' '
  {
    if s == [] then 0 else if s[0] == ' ' then 0 else 1 + FirstSpace(s[1..])
  }

  /** Joining with spaces can be undone when no part holds a space. */
  lemma {:induction false} SplitJoinSpaced(parts: seq<string>)
    requires parts != []
    requires forall k, j :: 0 <= k < |parts| && 0 <= j < |parts[k]| ==> parts[k][j] != ' '
    ensures SplitSpaces(JoinSpaced(parts)) == parts
  {
    var s := JoinSpaced(parts);
    var head := parts[0];
    if |parts| == 1 {
      assert FirstSpace(s) == |s|;
    } else {
      var rest := JoinSpaced(parts[1..]);
      assert s == head + " " + rest;
      assert FirstSpace(s) == |head| by {
        assert s[|head|] == ' ';
      }
      assert s[..|head|] == head;
      assert s[|head| + 1..] == rest;
      SplitJoinSpaced(parts[1..]);
    }
  }

  /** When no program or argument text holds a space, the log line gives
      back the program and every argument, in order. */
  lemma CliStrRecoversArguments(c: Command)
    requires forall j :: 0 <= j < |ProgramText(c.program)| ==> ProgramText(c.program)[j] != ' '
    requires forall k, j :: 0 <= k < |c.args| && 0 <= j < |ArgumentText(c.args[k])| ==> ArgumentText(c.args[k])[j] != ' '
    ensures SplitSpaces(CliStr(c)) == [ProgramText(c.program)] + ArgumentTexts(c.args)
  {
    var parts := [ProgramText(c.program)] + ArgumentTexts(c.args);
    forall k, j | 0 <= k < |parts| && 0 <= j < |parts[k]| ensures parts[k][j] != ' ' {
      if k > 0 { assert parts[k] == ArgumentText(c.args[k - 1]); }
    }
    SplitJoinSpaced(parts);
  }

  /** `ExecuteCommand::execute`, given what the process did: its standard
      output on a successful exit; otherwise an error whose cause is its
      standard error, or the reason it could not be started. */
  function Execute(output: ProcessOutput): (r: Result<string>)
    ensures r.Ok? <==> output.Exited? && output.success
    ensures r.Ok? ==> r.value == output.stdout
    ensures output.Exited? && !output.success ==> r == Err(Error(output.stderr, []))
    ensures output.LaunchFailed? ==> r == Err(Error(output.reason, []))
  {
    match output
    case Exited(success, stdout, stderr) =>
      if success then Ok(stdout) else Fail(stderr)
    case LaunchFailed(reason) => Fail(reason)
  }
}
