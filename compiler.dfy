/** The incremental compiler: every source file is compiled into an object
    file named after a digest of its path and content, unless that object
    file already exists. */
module Compiler {
  import opened Common
  import opened FileTree
  import Config
  import opened Extension
  import opened CommandExt
  import opened Host
  import FilesFetcher

  /** The lowercase hexadecimal digit for `d`. */
  function HexDigit(d: nat): (c: char)
    requires d < 16
    ensures '0' <= c <= '9' || 'a' <= c <= 'f'
  {
    if d < 10 then ('0' as int + d) as char else ('a' as int + d - 10) as char
  }

  function DigitValue(c: char): Option<nat> {
    if '0' <= c <= '9' then Some(c as int - '0' as int)
    else if 'a' <= c <= 'f' then Some(c as int - 'a' as int + 10)
    else None
  }

  /** `format!("{:02x}", byte)`: two digits, high nibble first. */
  function HexByte(b: Byte): string {
    [HexDigit(b as int / 16), HexDigit(b as int % 16)]
  }

  /** Every byte as two lowercase hexadecimal digits, in byte order. */
  function Hex(bytes: seq<Byte>): (s: string)
    ensures |s| == 2 * |bytes|
  {
    if bytes == [] then "" else HexByte(bytes[0]) + Hex(bytes[1..])
  }

  /** The text holds only lowercase hexadecimal digits. */
  lemma {:induction false} HexDigits(bytes: seq<Byte>)
    ensures forall j :: 0 <= j < |Hex(bytes)| ==> DigitValue(Hex(bytes)[j]).Some?
  {
    if bytes != [] {
      HexDigits(bytes[1..]);
      var s := Hex(bytes);
      forall j | 0 <= j < |s| ensures DigitValue(s[j]).Some? {
        if j >= 2 {
          assert s[j] == Hex(bytes[1..])[j - 2];
        }
      }
    }
  }

  /** Decoding hexadecimal text, two digits per byte. */
  function Unhex(s: string): Option<seq<Byte>>
    decreases |s|
  {
    if s == [] then Some([])
    else if |s| == 1 then None
    else
      match (DigitValue(s[0]), DigitValue(s[1]), Unhex(s[2..]))
      case (Some(h), Some(l), Some(rest)) =>
        if h < 16 && l < 16 then Some([(h * 16 + l) as Byte] + rest) else None
      case _ => None
  }

  /** Hexadecimal encoding loses nothing. */
  lemma {:induction false} HexRoundTrip(bytes: seq<Byte>)
    ensures Unhex(Hex(bytes)) == Some(bytes)
  {
    if bytes != [] {
      var s := Hex(bytes);
      var b := bytes[0] as int;
      assert s[..2] == HexByte(bytes[0]) && s[2..] == Hex(bytes[1..]);
      assert DigitValue(s[0]) == Some(b / 16);
      assert DigitValue(s[1]) == Some(b % 16);
      HexRoundTrip(bytes[1..]);
      assert [bytes[0]] + bytes[1..] == bytes;
    }
  }

  /** So a 32-byte digest is 64 characters, and different digests print
      differently. */
  lemma HexOfDigest(d1: Digest, d2: Digest)
    ensures |Hex(d1)| == 64
    ensures Hex(d1) == Hex(d2) ==> d1 == d2
  {
    HexRoundTrip(d1);
    HexRoundTrip(d2);
  }

  /** `hash`: the cache stem of a source file, `<file name>.<hex digest>`,
      where the digest is taken over the path's debug form, a dash and the
      file's content. */
  function Hash(root: Node, src: Path, sha256: string -> Digest): (r: Result<string>)
    ensures r.Ok? <==> FinalComponent(src).Some? && ReadFile(root, src).Ok?
    ensures FinalComponent(src).None? ==> r == Fail("Failed to get file name from " + Debug(src))
  {
    match FinalComponent(src)
    case None => Fail("Failed to get file name from " + Debug(src))
    case Some(fileName) =>
      var content :- ReadFile(root, src);
      Ok(fileName + "." + Hex(sha256(Debug(src) + "-" + content)))
  }

  /** The two parts of a stem: the file name and the digest. */
  function StemParts(stem: string): Option<(string, Digest)> {
    if |stem| < 65 || stem[|stem| - 65] != '.' then None
    else
      match Unhex(stem[|stem| - 64..])
      case Some(d) => if |d| == 32 then Some((stem[..|stem| - 65], d)) else None
      case None => None
  }

  /** A stem gives back the source's file name and the digest of its path
      and content. */
  lemma HashRoundTrip(root: Node, src: Path, sha256: string -> Digest)
    requires Hash(root, src, sha256).Ok?
    ensures StemParts(Hash(root, src, sha256).value)
            == Some((FinalComponent(src).value, sha256(Debug(src) + "-" + ReadFile(root, src).value)))
  {
    var d := sha256(Debug(src) + "-" + ReadFile(root, src).value);
    var name := FinalComponent(src).value;
    var stem := name + "." + Hex(d);
    HexOfDigest(d, d);
    HexRoundTrip(d);
    assert stem[|stem| - 64..] == Hex(d);
    assert stem[..|stem| - 65] == name;
  }

  /** The stem depends on the path and the content only: two filesystems
      holding the same text at `src` give the same stem. */
  lemma HashDependsOnPathAndContent(r1: Node, r2: Node, src: Path, sha256: string -> Digest)
    requires ReadFile(r1, src) == ReadFile(r2, src)
    ensures Hash(r1, src, sha256) == Hash(r2, src, sha256)
  {
  }

  /** The compiler's settings: a profile, a toolchain and the directory of
      dependency headers. */
  datatype Compiler = Compiler(profile: Config.Profile, toolchain: Config.Toolchain, includePath: Path)

  /** The optimisation flag, if the profile asks for one. */
  function OptimizationArgs(level: Config.OptimizationLevel): seq<OsText> {
    match Config.AsGccFlag(level)
    case None => []
    case Some(flag) => [Utf8(flag)]
  }

  /** The arguments for compiling `src` into `obj`. */
  function CompileArgs(c: Compiler, pic: bool, src: Path, obj: Path): seq<OsText> {
    OptimizationArgs(c.profile.optimizationLevel)
      + [Utf8("-I"), PathArg(c.includePath)]
      + Texts(c.toolchain.compilerFlags)
      + (if pic then [Utf8("-fPIC")] else [])
      + [Utf8("-c"), PathArg(src), Utf8("-o"), PathArg(obj)]
  }

  /** The compiler invocation for one source, built one argument group
      after the other. */
  method CompileCommand(c: Compiler, pic: bool, src: Path, obj: Path) returns (cmd: Command)
    ensures cmd == Command(Utf8(c.toolchain.compiler), CompileArgs(c, pic, src, obj))
  {
    var args: seq<OsText> := [];
    match Config.AsGccFlag(c.profile.optimizationLevel) {
      case Some(level) => args := args + [Utf8(level)];
      case None =>
    }
    ghost var opt := args;
    assert opt == OptimizationArgs(c.profile.optimizationLevel);
    args := args + [Utf8("-I"), PathArg(c.includePath)];
    args := args + Texts(c.toolchain.compilerFlags);
    ghost var flagged := args;
    if pic {
      args := args + [Utf8("-fPIC")];
    }
    assert args == flagged + (if pic then [Utf8("-fPIC")] else []);
    args := args + [Utf8("-c"), PathArg(src)];
    args := args + [Utf8("-o"), PathArg(obj)];
    assert args == flagged + (if pic then [Utf8("-fPIC")] else []) + [Utf8("-c"), PathArg(src), Utf8("-o"), PathArg(obj)];
    cmd := Command(Utf8(c.toolchain.compiler), args);
  }

  /** The argument order: the optimisation flag if any, then `-I` and the
      header directory, then the toolchain's flags in order, then `-fPIC`
      exactly for position-independent code, then `-c` with the source and
      `-o` with the object as the last four. */
  lemma CompileArgsOrder(c: Compiler, pic: bool, src: Path, obj: Path)
    ensures var args := CompileArgs(c, pic, src, obj);
      var o := if Config.AsGccFlag(c.profile.optimizationLevel).Some? then 1 else 0;
      var f := |c.toolchain.compilerFlags|;
      && |args| == o + 2 + f + (if pic then 1 else 0) + 4
      && (o == 1 ==> args[0] == Utf8(Config.AsGccFlag(c.profile.optimizationLevel).value))
      && args[o] == Utf8("-I") && args[o + 1] == PathArg(c.includePath)
      && (forall j :: 0 <= j < f ==> args[o + 2 + j] == Utf8(c.toolchain.compilerFlags[j]))
      && (pic ==> args[o + 2 + f] == Utf8("-fPIC"))
      && args[|args| - 4..] == [Utf8("-c"), PathArg(src), Utf8("-o"), PathArg(obj)]
  {
  }

  /** Where the object file of a source with cache stem `stem` goes. */
  function ObjectPath(c: Compiler, host: Host, stem: string, outDir: Path): Path {
    outDir + [host.ArtifactName(Object, stem, c.toolchain.compiler)]
  }

  /** The outcome of compiling a list of sources: the object files, or the
      first error, and the compiler processes run, in order. */
  datatype Compilation = Compilation(objects: Result<seq<Path>>, runs: seq<Command>)

  function After(objects: seq<Path>, runs: seq<Command>, rest: Compilation): Compilation {
    Compilation(FilesFetcher.AfterFound(objects, rest.objects), runs + rest.runs)
  }

  /** What happened to one source: its object path and the compiler runs
      made for it, or the error that stopped the compilation. */
  datatype SourceStep =
    | Compiled(objectFile: Path, runs: seq<Command>)
    | Failed(error: Error, runs: seq<Command>)

  /** One iteration of `Compiler::compile`. */
  function CompileSource(c: Compiler, root: Node, host: Host, src: Path, outDir: Path, pic: bool): SourceStep
  {
    match WithContext(Hash(root, src, host.sha256), "Failed to hash source file " + Debug(src))
    case Err(e) => Failed(e, [])
    case Ok(stem) =>
      var obj := ObjectPath(c, host, stem, outDir);
      if Exists(root, obj) then Compiled(obj, [])
      else
        var cmd := Command(Utf8(c.toolchain.compiler), CompileArgs(c, pic, src, obj));
        match WithContext(Execute(host.run(cmd)), "Failed to compile file " + Debug(src))
        case Err(e) => Failed(e, [cmd])
        case Ok(_) => Compiled(obj, [cmd])
  }

  /** The object file of a source is named after its stem; the compiler
      runs at most once, exactly when that file is missing, and a run that
      fails fails the source. */
  lemma CompileSourceOutcome(c: Compiler, root: Node, host: Host, src: Path, outDir: Path, pic: bool)
    ensures var step := CompileSource(c, root, host, src, outDir, pic);
      && (step.Compiled? ==> Hash(root, src, host.sha256).Ok?)
      && (step.Compiled? ==> step.objectFile == ObjectPath(c, host, Hash(root, src, host.sha256).value, outDir))
      && (step.Compiled? ==> (step.runs == [] <==> Exists(root, step.objectFile)))
      && (|step.runs| <= 1)
      && (step.Compiled? && step.runs != [] ==>
            step.runs == [Command(Utf8(c.toolchain.compiler), CompileArgs(c, pic, src, step.objectFile))]
            && Execute(host.run(step.runs[0])).Ok?)
      && (step.Failed? && step.runs != [] ==> Execute(host.run(step.runs[0])).Err?)
      && (Hash(root, src, host.sha256).Err? ==>
            step == Failed(WithContext(Hash(root, src, host.sha256), "Failed to hash source file " + Debug(src)).error, []))
  {
  }

  /** `Compiler::compile` over the filesystem `root`: the sources in order,
      stopping at the first failure. */
  function CompileFrom(c: Compiler, root: Node, host: Host, sources: seq<Path>, outDir: Path, pic: bool): Compilation
    decreases |sources|
  {
    if sources == [] then Compilation(Ok([]), [])
    else
      match CompileSource(c, root, host, sources[0], outDir, pic)
      case Failed(e, runs) => Compilation(Err(e), runs)
      case Compiled(obj, runs) => After([obj], runs, CompileFrom(c, root, host, sources[1..], outDir, pic))
  }

  lemma AfterNothing(rest: Compilation)
    ensures After([], [], rest) == rest
  {
    FilesFetcher.AfterFoundNothing(rest.objects);
  }

  lemma AfterTwice(o1: seq<Path>, r1: seq<Command>, o2: seq<Path>, r2: seq<Command>, rest: Compilation)
    ensures After(o1, r1, After(o2, r2, rest)) == After(o1 + o2, r1 + r2, rest)
  {
    FilesFetcher.AfterFoundTwice(o1, o2, rest.objects);
    assert r1 + (r2 + rest.runs) == (r1 + r2) + rest.runs;
  }

  /** `Compiler::compile`: one object path per source, in order; the compiler
      runs only for sources whose object file is missing. */
  method Compile(c: Compiler, fs: FileSystem, host: Host, sources: seq<Path>, outDir: Path, pic: bool)
    returns (r: Result<seq<Path>>, runs: seq<Command>)
    ensures Compilation(r, runs) == CompileFrom(c, fs.root, host, sources, outDir, pic)
  {
    var objects: seq<Path> := [];
    runs := [];
    var i := 0;
    AfterNothing(CompileFrom(c, fs.root, host, sources, outDir, pic));
    assert sources[0..] == sources;
    while i < |sources|
      invariant 0 <= i <= |sources|
      invariant CompileFrom(c, fs.root, host, sources, outDir, pic)
                == After(objects, runs, CompileFrom(c, fs.root, host, sources[i..], outDir, pic))
    {
      var src := sources[i];
      assert sources[i..][1..] == sources[i + 1..];
      var stem := WithContext(Hash(fs.root, src, host.sha256), "Failed to hash source file " + Debug(src));
      if stem.Err? {
        return Err(stem.error), runs;
      }
      var output := ObjectPath(c, host, stem.value, outDir);
      ghost var rest := CompileFrom(c, fs.root, host, sources[i + 1..], outDir, pic);
      assert CompileFrom(c, fs.root, host, sources[i..], outDir, pic)
             == match CompileSource(c, fs.root, host, src, outDir, pic)
                case Failed(e, failedRuns) => Compilation(Err(e), failedRuns)
                case Compiled(o, okRuns) => After([o], okRuns, rest);
      if Exists(fs.root, output) {
        AfterTwice(objects, runs, [output], [], CompileFrom(c, fs.root, host, sources[i + 1..], outDir, pic));
        objects := objects + [output];
        runs := runs + [];
      } else {
        var cmd := CompileCommand(c, pic, src, output);
        var status := WithContext(Execute(host.run(cmd)), "Failed to compile file " + Debug(src));
        if status.Err? {
          return Err(status.error), runs + [cmd];
        }
        AfterTwice(objects, runs, [output], [cmd], CompileFrom(c, fs.root, host, sources[i + 1..], outDir, pic));
        objects := objects + [output];
        runs := runs + [cmd];
      }
      i := i + 1;
    }
    assert objects + [] == objects && runs + [] == runs;
    return Ok(objects), runs;
  }

  /** A successful compilation starts with the first source's object. */
  lemma CompileFromUnfolds(c: Compiler, root: Node, host: Host, sources: seq<Path>, outDir: Path, pic: bool)
    requires sources != []
    requires CompileFrom(c, root, host, sources, outDir, pic).objects.Ok?
    ensures CompileSource(c, root, host, sources[0], outDir, pic).Compiled?
    ensures CompileFrom(c, root, host, sources[1..], outDir, pic).objects.Ok?
    ensures CompileFrom(c, root, host, sources, outDir, pic).objects.value
            == [CompileSource(c, root, host, sources[0], outDir, pic).objectFile]
               + CompileFrom(c, root, host, sources[1..], outDir, pic).objects.value
  {
  }

  /** On success there is exactly one object per source, in source order,
      whether the source was compiled or skipped. */
  lemma {:induction false} OneObjectPerSource(c: Compiler, root: Node, host: Host, sources: seq<Path>, outDir: Path, pic: bool, k: nat)
    requires CompileFrom(c, root, host, sources, outDir, pic).objects.Ok?
    requires k < |sources|
    ensures |CompileFrom(c, root, host, sources, outDir, pic).objects.value| == |sources|
    ensures Hash(root, sources[k], host.sha256).Ok?
    ensures CompileFrom(c, root, host, sources, outDir, pic).objects.value[k]
            == ObjectPath(c, host, Hash(root, sources[k], host.sha256).value, outDir)
    decreases |sources|
  {
    CompileFromUnfolds(c, root, host, sources, outDir, pic);
    if |sources| == 1 {
      assert sources[1..] == [];
    } else {
      OneObjectPerSource(c, root, host, sources[1..], outDir, pic, if k > 0 then k - 1 else 0);
      if k > 0 {
        assert sources[1..][k - 1] == sources[k];
      }
    }
  }

  /** The compiler runs the sources whose object file is missing, each once
      and in order, and no others. */
  function MissingRuns(c: Compiler, root: Node, host: Host, sources: seq<Path>, outDir: Path, pic: bool): seq<Command>
    decreases |sources|
  {
    if sources == [] then []
    else
      var src := sources[0];
      var later := MissingRuns(c, root, host, sources[1..], outDir, pic);
      match Hash(root, src, host.sha256)
      case Err(_) => later
      case Ok(stem) =>
        var obj := ObjectPath(c, host, stem, outDir);
        if Exists(root, obj) then later
        else [Command(Utf8(c.toolchain.compiler), CompileArgs(c, pic, src, obj))] + later
  }

  lemma {:induction false} CompileRunsExactlyMissing(c: Compiler, root: Node, host: Host, sources: seq<Path>, outDir: Path, pic: bool)
    requires CompileFrom(c, root, host, sources, outDir, pic).objects.Ok?
    ensures CompileFrom(c, root, host, sources, outDir, pic).runs == MissingRuns(c, root, host, sources, outDir, pic)
    decreases |sources|
  {
    if sources != [] {
      CompileFromUnfolds(c, root, host, sources, outDir, pic);
      CompileFromCases(c, root, host, sources, outDir, pic);
      CompileRunsExactlyMissing(c, root, host, sources[1..], outDir, pic);
      MissingRunsOfCompiled(c, root, host, sources, outDir, pic);
    }
  }

  /** Past a source that compiled, the missing runs are the runs made for it
      followed by those of the rest. */
  lemma MissingRunsOfCompiled(c: Compiler, root: Node, host: Host, sources: seq<Path>, outDir: Path, pic: bool)
    requires sources != [] && CompileSource(c, root, host, sources[0], outDir, pic).Compiled?
    ensures MissingRuns(c, root, host, sources, outDir, pic)
            == CompileSource(c, root, host, sources[0], outDir, pic).runs + MissingRuns(c, root, host, sources[1..], outDir, pic)
  {
    CompileSourceOutcome(c, root, host, sources[0], outDir, pic);
  }

  /** A compilation that stopped at a source made at most one run for it,
      and that run failed; one that went past it continues with the rest. */
  lemma CompileFromCases(c: Compiler, root: Node, host: Host, sources: seq<Path>, outDir: Path, pic: bool)
    requires sources != []
    ensures var step := CompileSource(c, root, host, sources[0], outDir, pic);
      var all := CompileFrom(c, root, host, sources, outDir, pic);
      && (step.Failed? ==> all.objects.Err? && all.runs == step.runs && |all.runs| <= 1)
      && (step.Compiled? ==> all == After([step.objectFile], step.runs, CompileFrom(c, root, host, sources[1..], outDir, pic)))
  {
  }

  /** Every process in `runs` exited successfully. */
  predicate RunsSucceeded(host: Host, runs: seq<Command>) {
    forall j :: 0 <= j < |runs| ==> Execute(host.run(runs[j])).Ok?
  }

  lemma RunsSucceededAppend(host: Host, a: seq<Command>, b: seq<Command>)
    requires RunsSucceeded(host, a) && RunsSucceeded(host, b)
    ensures RunsSucceeded(host, a + b)
  {
    forall j | 0 <= j < |a + b| ensures Execute(host.run((a + b)[j])).Ok? {
      if j >= |a| { assert (a + b)[j] == b[j - |a|]; }
    }
  }

  /** Every process in `runs` but the last exited successfully. */
  predicate EarlierSucceeded(host: Host, runs: seq<Command>) {
    forall j :: 0 <= j < |runs| - 1 ==> Execute(host.run(runs[j])).Ok?
  }

  /** Every compiler run but the last succeeded, and on success all did. */
  lemma CompileStopsAtFirstFailure(c: Compiler, root: Node, host: Host, sources: seq<Path>, outDir: Path, pic: bool)
    ensures var comp := CompileFrom(c, root, host, sources, outDir, pic);
      && EarlierSucceeded(host, comp.runs)
      && (comp.objects.Ok? ==> RunsSucceeded(host, comp.runs))
  {
    EarlierRunsSucceeded(c, root, host, sources, outDir, pic);
    if CompileFrom(c, root, host, sources, outDir, pic).objects.Ok? {
      RunsSucceededOnSuccess(c, root, host, sources, outDir, pic);
    }
  }

  lemma {:induction false} EarlierRunsSucceeded(c: Compiler, root: Node, host: Host, sources: seq<Path>, outDir: Path, pic: bool)
    ensures EarlierSucceeded(host, CompileFrom(c, root, host, sources, outDir, pic).runs)
    decreases |sources|
  {
    if sources != [] {
      var step := CompileSource(c, root, host, sources[0], outDir, pic);
      var rest := CompileFrom(c, root, host, sources[1..], outDir, pic);
      CompileFromCases(c, root, host, sources, outDir, pic);
      if step.Compiled? {
        CompileSourceOutcome(c, root, host, sources[0], outDir, pic);
        EarlierRunsSucceeded(c, root, host, sources[1..], outDir, pic);
        EarlierSucceededAfter(host, step.runs, rest.runs);
      }
    }
  }

  lemma {:induction false} RunsSucceededOnSuccess(c: Compiler, root: Node, host: Host, sources: seq<Path>, outDir: Path, pic: bool)
    requires CompileFrom(c, root, host, sources, outDir, pic).objects.Ok?
    ensures RunsSucceeded(host, CompileFrom(c, root, host, sources, outDir, pic).runs)
    decreases |sources|
  {
    if sources != [] {
      var step := CompileSource(c, root, host, sources[0], outDir, pic);
      var rest := CompileFrom(c, root, host, sources[1..], outDir, pic);
      CompileFromUnfolds(c, root, host, sources, outDir, pic);
      CompileFromCases(c, root, host, sources, outDir, pic);
      CompileSourceOutcome(c, root, host, sources[0], outDir, pic);
      RunsSucceededOnSuccess(c, root, host, sources[1..], outDir, pic);
      RunsSucceededAppend(host, step.runs, rest.runs);
    }
  }

  /** Runs that all succeeded, followed by runs all but the last of which
      succeeded: all but the last succeeded. */
  lemma EarlierSucceededAfter(host: Host, a: seq<Command>, b: seq<Command>)
    requires |a| <= 1 && (a != [] ==> Execute(host.run(a[0])).Ok?)
    requires EarlierSucceeded(host, b)
    ensures EarlierSucceeded(host, a + b)
  {
    forall j | 0 <= j < |a + b| - 1 ensures Execute(host.run((a + b)[j])).Ok? {
      if j >= |a| { assert (a + b)[j] == b[j - |a|]; }
    }
  }

  /** `cmd` runs the compiler of `c`, with the arguments `c` gives for some
      source and object, position-independent exactly when `pic`. */
  ghost predicate RunOf(c: Compiler, pic: bool, cmd: Command) {
    exists src: Path, obj: Path :: cmd == Command(Utf8(c.toolchain.compiler), CompileArgs(c, pic, src, obj))
  }

  ghost predicate RunsOf(c: Compiler, pic: bool, runs: seq<Command>) {
    forall j :: 0 <= j < |runs| ==> RunOf(c, pic, runs[j])
  }

  /** A run made for one source is a run of `c`. */
  lemma SourceRunsOf(c: Compiler, root: Node, host: Host, src: Path, outDir: Path, pic: bool)
    ensures RunsOf(c, pic, CompileSource(c, root, host, src, outDir, pic).runs)
  {
    var step := CompileSource(c, root, host, src, outDir, pic);
    if step.runs != [] {
      var obj := ObjectPath(c, host, Hash(root, src, host.sha256).value, outDir);
      assert step.runs[0] == Command(Utf8(c.toolchain.compiler), CompileArgs(c, pic, src, obj));
    }
  }

  lemma RunsOfAppend(c: Compiler, pic: bool, a: seq<Command>, b: seq<Command>)
    requires RunsOf(c, pic, a) && RunsOf(c, pic, b)
    ensures RunsOf(c, pic, a + b)
  {
    forall j | 0 <= j < |a + b| ensures RunOf(c, pic, (a + b)[j]) {
      if j >= |a| { assert (a + b)[j] == b[j - |a|]; }
    }
  }

  /** Every compiler run of a compilation, failed or not, uses the same
      settings and the same choice of position-independent code. */
  lemma {:induction false} CompileRunsOf(c: Compiler, root: Node, host: Host, sources: seq<Path>, outDir: Path, pic: bool)
    ensures RunsOf(c, pic, CompileFrom(c, root, host, sources, outDir, pic).runs)
    decreases |sources|
  {
    if sources != [] {
      var step := CompileSource(c, root, host, sources[0], outDir, pic);
      SourceRunsOf(c, root, host, sources[0], outDir, pic);
      if step.Compiled? {
        CompileRunsOf(c, root, host, sources[1..], outDir, pic);
        RunsOfAppend(c, pic, step.runs, CompileFrom(c, root, host, sources[1..], outDir, pic).runs);
      }
    }
  }

  /** Every object of a successful compilation lies directly in the output
      directory. */
  lemma ObjectsInOutDir(c: Compiler, root: Node, host: Host, sources: seq<Path>, outDir: Path, pic: bool)
    requires CompileFrom(c, root, host, sources, outDir, pic).objects.Ok?
    ensures var objects := CompileFrom(c, root, host, sources, outDir, pic).objects.value;
      forall k :: 0 <= k < |objects| ==> |objects[k]| == |outDir| + 1 && objects[k][..|outDir|] == outDir
  {
    var objects := CompileFrom(c, root, host, sources, outDir, pic).objects.value;
    if sources != [] {
      OneObjectPerSource(c, root, host, sources, outDir, pic, 0);
    }
    forall k | 0 <= k < |objects| ensures |objects[k]| == |outDir| + 1 && objects[k][..|outDir|] == outDir {
      OneObjectPerSource(c, root, host, sources, outDir, pic, k);
    }
  }
}
