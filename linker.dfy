/** The linker: one command that turns the object files into the project's
    executable or library. */
module Linker {
  import opened Common
  import Config
  import opened Extension
  import opened CommandExt
  import opened Host

  datatype Linker = Linker(toolchain: Config.Toolchain)

  /** The artifact kind a link strategy produces. */
  function OutputKind(strategy: Config.LinkStrategy): (kind: Extension)
    ensures kind != Object
  {
    match strategy
    case Executable => Extension.Executable
    case StaticLibrary => Extension.StaticLibrary
    case DynamicLibrary => Extension.DynamicLibrary
  }

  /** The program that links: the archiver for a static library, the
      compiler otherwise. */
  function LinkProgram(t: Config.Toolchain, strategy: Config.LinkStrategy): (program: string)
    ensures strategy.StaticLibrary? ==> program == t.archiver
    ensures !strategy.StaticLibrary? ==> program == t.compiler
  {
    if strategy.StaticLibrary? then t.archiver else t.compiler
  }

  /** The output file: the strategy's artifact name for `name` in `outDir`,
      on the platform the compiler targets (also for a static library). */
  function OutputFile(t: Config.Toolchain, host: Host, strategy: Config.LinkStrategy, outDir: Path, name: string): (out: Path)
    ensures |out| == |outDir| + 1 && out[..|outDir|] == outDir
  {
    outDir + [host.ArtifactName(OutputKind(strategy), name, t.compiler)]
  }

  /** The arguments that select the strategy and name the output file. */
  function StrategyArgs(strategy: Config.LinkStrategy, out: Path): (args: seq<OsText>)
    ensures |args| >= 2 && args[|args| - 1] == PathArg(out)
    ensures Utf8("-o") in args <==> !strategy.StaticLibrary?
  {
    match strategy
    case Executable => [Utf8("-o"), PathArg(out)]
    case StaticLibrary => [Utf8("rcs"), PathArg(out)]
    case DynamicLibrary => [Utf8("-shared"), Utf8("-o"), PathArg(out)]
  }

  /** The whole link command. */
  function LinkCommand(t: Config.Toolchain, strategy: Config.LinkStrategy, objects: seq<Path>, out: Path): Command {
    Command(Utf8(LinkProgram(t, strategy)), StrategyArgs(strategy, out) + Texts(t.linkerFlags) + PathArgs(objects))
  }

  /** The shape of a link command: the strategy's arguments first (with
      `-o` except for an archive), then the toolchain's linker flags for all
      three strategies, then every object file once, in order, last. */
  lemma LinkCommandShape(t: Config.Toolchain, strategy: Config.LinkStrategy, objects: seq<Path>, out: Path)
    ensures var args := LinkCommand(t, strategy, objects, out).args;
      var p := |StrategyArgs(strategy, out)|;
      && p == (if strategy.DynamicLibrary? then 3 else 2)
      && args[p - 1] == PathArg(out)
      && (strategy.Executable? ==> args[0] == Utf8("-o"))
      && (strategy.StaticLibrary? ==> args[0] == Utf8("rcs") && Utf8("-o") !in args[..p])
      && (strategy.DynamicLibrary? ==> args[0] == Utf8("-shared") && args[1] == Utf8("-o"))
      && |args| == p + |t.linkerFlags| + |objects|
      && (forall j :: 0 <= j < |t.linkerFlags| ==> args[p + j] == Utf8(t.linkerFlags[j]))
      && (forall j :: 0 <= j < |objects| ==> args[p + |t.linkerFlags| + j] == PathArg(objects[j]))
  {
  }

  /** `Linker::link`: builds the command argument by argument, runs it and
      answers the output path, or the failure of the run. */
  method Link(l: Linker, host: Host, strategy: Config.LinkStrategy, objects: seq<Path>, outDir: Path, name: string)
    returns (r: Result<Path>, cmd: Command)
    ensures cmd == LinkCommand(l.toolchain, strategy, objects, OutputFile(l.toolchain, host, strategy, outDir, name))
    ensures r.Ok? <==> Execute(host.run(cmd)).Ok?
    ensures r.Ok? ==> r.value == OutputFile(l.toolchain, host, strategy, outDir, name)
    ensures r.Err? ==> r.error == Execute(host.run(cmd)).error
  {
    var program: string;
    var args: seq<OsText>;
    var out: Path;
    match strategy {
      case Executable =>
        program := l.toolchain.compiler;
        out := outDir + [host.ArtifactName(Extension.Executable, name, l.toolchain.compiler)];
        args := [Utf8("-o"), PathArg(out)];
        assert args == StrategyArgs(strategy, out);
      case StaticLibrary =>
        program := l.toolchain.archiver;
        args := [Utf8("rcs")];
        out := outDir + [host.ArtifactName(Extension.StaticLibrary, name, l.toolchain.compiler)];
        args := args + [PathArg(out)];
        assert args == StrategyArgs(strategy, out);
      case DynamicLibrary =>
        program := l.toolchain.compiler;
        args := [Utf8("-shared")];
        out := outDir + [host.ArtifactName(Extension.DynamicLibrary, name, l.toolchain.compiler)];
        args := args + [Utf8("-o"), PathArg(out)];
        assert args == StrategyArgs(strategy, out);
    }
    assert out == OutputFile(l.toolchain, host, strategy, outDir, name);
    assert program == LinkProgram(l.toolchain, strategy);
    args := args + Texts(l.toolchain.linkerFlags);
    ghost var head := args;
    var i := 0;
    while i < |objects|
      invariant 0 <= i <= |objects|
      invariant args == head + PathArgs(objects[..i])
    {
      assert objects[..i + 1] == objects[..i] + [objects[i]];
      PathArgsAppend(objects[..i], objects[i]);
      args := args + [PathArg(objects[i])];
      i := i + 1;
    }
    assert objects[..|objects|] == objects;
    cmd := Command(Utf8(program), args);
    assert cmd == LinkCommand(l.toolchain, strategy, objects, out);
    var status := Execute(host.run(cmd));
    if status.Err? {
      return Err(status.error), cmd;
    }
    return Ok(out), cmd;
  }

  lemma PathArgsAppend(ps: seq<Path>, p: Path)
    ensures PathArgs(ps + [p]) == PathArgs(ps) + [PathArg(p)]
  {
  }
}
