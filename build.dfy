/** The `build` command: read the configuration, lay out the directories,
    fetch the dependencies and their headers, compile every dependency and
    then the project, and link. */
module Build {
  import opened Common
  import opened FileTree
  import opened CommandExt
  import opened Host
  import Config
  import Cli
  import ConfigurationParser
  import DependencyPath
  import TargetPath
  import DependencySourceFetcher
  import DependencyIncludeFetcher
  import FilesFetcher
  import Compiler
  import Linker

  /** `fetch_profile`: the profile configured for the mode, or the mode's
      default: `-O` for development, `-Ofast` for release. */
  function FetchProfile(config: Config.Config, mode: Cli.BuildModeCli): (p: Config.Profile)
    ensures mode.Development? && config.profiles.development.Some? ==> p == config.profiles.development.value
    ensures mode.Development? && config.profiles.development.None? ==> p.optimizationLevel == Config.O
    ensures mode.Release? && config.profiles.release.Some? ==> p == config.profiles.release.value
    ensures mode.Release? && config.profiles.release.None? ==> p.optimizationLevel == Config.Ofast
  {
    match mode
    case Development =>
      if config.profiles.development.Some? then config.profiles.development.value else Config.Profile(Config.O)
    case Release =>
      if config.profiles.release.Some? then config.profiles.release.value else Config.Profile(Config.Ofast)
  }

  /** The profile of one mode does not depend on the other mode's entry. */
  lemma ProfileOfOtherModeIgnored(c1: Config.Config, c2: Config.Config, mode: Cli.BuildModeCli)
    requires mode.Development? ==> c1.profiles.development == c2.profiles.development
    requires mode.Release? ==> c1.profiles.release == c2.profiles.release
    ensures FetchProfile(c1, mode) == FetchProfile(c2, mode)
  {
  }

  /** Position-independent code is generated exactly for a project linked
      as a dynamic library. */
  function Pic(config: Config.Config): (pic: bool)
    ensures pic <==> config.project.linkStrategy == Config.DynamicLibrary
  {
    config.project.linkStrategy.DynamicLibrary?
  }

  // Compiling the dependencies.

  /** The filesystem after a stage, the objects it produced or the error
      that stopped it, and the compiler runs it made. */
  datatype Stage = Stage(root: Node, objects: Result<seq<Path>>, runs: seq<Command>)

  function AfterStage(objects: seq<Path>, runs: seq<Command>, rest: Stage): Stage {
    Stage(rest.root, FilesFetcher.AfterFound(objects, rest.objects), runs + rest.runs)
  }

  lemma AfterStageNothing(rest: Stage)
    ensures AfterStage([], [], rest) == rest
  {
    FilesFetcher.AfterFoundNothing(rest.objects);
  }

  lemma AfterStageTwice(o1: seq<Path>, r1: seq<Command>, o2: seq<Path>, r2: seq<Command>, rest: Stage)
    ensures AfterStage(o1, r1, AfterStage(o2, r2, rest)) == AfterStage(o1 + o2, r1 + r2, rest)
  {
    FilesFetcher.AfterFoundTwice(o1, o2, rest.objects);
    assert r1 + (r2 + rest.runs) == (r1 + r2) + rest.runs;
  }

  /** The object directory of one dependency. */
  function ArtifactCache(depCache: Path, artifact: DependencySourceFetcher.Artifact): Path {
    depCache + [artifact.dependency.name]
  }

  /** One iteration of the dependency loop: create the dependency's object
      directory, find its C sources below `<artifact>/src` and compile them
      into that directory. */
  function CompileArtifact(c: Compiler.Compiler, host: Host, root: Node, artifact: DependencySourceFetcher.Artifact, depCache: Path, pic: bool): Stage {
    var target := ArtifactCache(depCache, artifact);
    var name := artifact.dependency.name;
    var made := CreateDirAllWithContext(root, target, "Failed to create directory " + Debug(target));
    if made.result.Err? then Stage(root, Err(made.result.error), [])
    else
      match WithContext(FilesFetcher.FilesAt(made.root, artifact.path + ["src"], "c"), "Failed to fetch source files for dependency " + name)
      case Err(e) => Stage(made.root, Err(e), [])
      case Ok(sources) =>
        var compiled := Compiler.CompileFrom(c, made.root, host, sources, target, pic);
        Stage(made.root, WithContext(compiled.objects, "Failed to compile dependency '" + name + "' artifact"), compiled.runs)
  }

  /** The dependency loop: every artifact in order, stopping at the first
      failure; the objects of all artifacts, in artifact order. */
  function CompileArtifacts(c: Compiler.Compiler, host: Host, root: Node, artifacts: seq<DependencySourceFetcher.Artifact>, depCache: Path, pic: bool): Stage
    decreases |artifacts|, 2
  {
    if artifacts == [] then Stage(root, Ok([]), [])
    else CompileFirstArtifact(c, host, root, artifacts, depCache, pic)
  }

  function CompileFirstArtifact(c: Compiler.Compiler, host: Host, root: Node, artifacts: seq<DependencySourceFetcher.Artifact>, depCache: Path, pic: bool): Stage
    requires artifacts != []
    decreases |artifacts|, 1
  {
    CompileArtifactThenRest(c, host, root, artifacts[0], artifacts[1..], depCache, pic)
  }


  /** The loop from `artifact` on: that artifact, then, unless it failed,
      the `rest`. */
  function CompileArtifactThenRest(c: Compiler.Compiler, host: Host, root: Node, artifact: DependencySourceFetcher.Artifact,
                                   rest: seq<DependencySourceFetcher.Artifact>, depCache: Path, pic: bool): Stage
    decreases |rest| + 1, 0
  {
    var first := CompileArtifact(c, host, root, artifact, depCache, pic);
    if first.objects.Err? then first
    else AfterStage(first.objects.value, first.runs, CompileArtifacts(c, host, first.root, rest, depCache, pic))
  }

  /** The loop's first iteration, and what follows it. */
  lemma CompileArtifactsUnfolds(c: Compiler.Compiler, host: Host, root: Node, artifacts: seq<DependencySourceFetcher.Artifact>, depCache: Path, pic: bool)
    requires artifacts != []
    ensures var first := CompileArtifact(c, host, root, artifacts[0], depCache, pic);
      CompileArtifacts(c, host, root, artifacts, depCache, pic)
      == if first.objects.Err? then first
         else AfterStage(first.objects.value, first.runs, CompileArtifacts(c, host, first.root, artifacts[1..], depCache, pic))
  {
    assert CompileArtifacts(c, host, root, artifacts, depCache, pic)
           == CompileFirstArtifact(c, host, root, artifacts, depCache, pic)
           == CompileArtifactThenRest(c, host, root, artifacts[0], artifacts[1..], depCache, pic);
  }

  // The whole build.

  /** What a build did: the filesystem after it, its result, the compiler
      runs in order and the link command if linking was reached; or
      `OutOfFuel` when the dependency graph is nested deeper than the fuel. */
  datatype Outcome =
    | Finished(root: Node, result: Result<()>, compiles: seq<Command>, link: Option<Command>)
    | OutOfFuel

  /** From the compilation of the dependencies on: the project's sources
      compiled into the project cache and everything linked into the
      output directory. */
  function CompileAndLinkFrom(host: Host, root: Node, project: Path, config: Config.Config, c: Compiler.Compiler,
                              artifacts: seq<DependencySourceFetcher.Artifact>, targets: TargetPath.TargetPath): Outcome
  {
    var pic := Pic(config);
    var deps := CompileArtifacts(c, host, root, artifacts, targets.DependencyCache(), pic);
    if deps.objects.Err? then Finished(deps.root, Err(deps.objects.error), deps.runs, None)
    else
      match WithContext(FilesFetcher.FilesAt(deps.root, project + ["src"], "c"), "Failed to fetch source files for project")
      case Err(e) => Finished(deps.root, Err(e), deps.runs, None)
      case Ok(sources) =>
        var own := Compiler.CompileFrom(c, deps.root, host, sources, targets.ProjectCache(), pic);
        if own.objects.Err? then
          Finished(deps.root, Err(WithContext(own.objects, "Failed to compile project files").error), deps.runs + own.runs, None)
        else
          var strategy := config.project.linkStrategy;
          var out := Linker.OutputFile(c.toolchain, host, strategy, targets.Output(), config.project.name);
          var cmd := Linker.LinkCommand(c.toolchain, strategy, deps.objects.value + own.objects.value, out);
          var linked := match WithContext(Execute(host.run(cmd)), "Failed to link project")
            case Err(e) => Err(e)
            case Ok(_) => Ok(());
          Finished(deps.root, linked, deps.runs + own.runs, Some(cmd))
  }

  /** From the fetching of the dependencies on. */
  function FetchAndCompileFrom(host: Host, root: Node, project: Path, config: Config.Config, c: Compiler.Compiler,
                               layout: DependencyPath.DependencyPath, targets: TargetPath.TargetPath, fuel: nat): Outcome
  {
    match DependencySourceFetcher.FetchAll(host, root, config.registries, config.dependencies, layout.sources, fuel)
    case OutOfFuel => OutOfFuel
    case Resolution(fetched, result) =>
      match WithContext(result, "Failed to fetch dependency sources")
      case Err(e) => Finished(fetched, Err(e), [], None)
      case Ok(artifacts) =>
        var headers := DependencyIncludeFetcher.FetchHeaders(fetched, artifacts, layout.includes);
        if headers.result.Err? then
          Finished(headers.root, Err(WithContext(headers.result, "Failed to fetch dependency headers").error), [], None)
        else CompileAndLinkFrom(host, headers.root, project, config, c, artifacts, targets)
  }

  /** From the directory layout on, once the configuration is read and
      the toolchain chosen. */
  function LayOutAndBuildFrom(host: Host, root: Node, project: Path, config: Config.Config, mode: Cli.BuildModeCli,
                              toolchainName: string, toolchain: Config.Toolchain, fuel: nat): Outcome
  {
    var deps := DependencyPath.CreateFrom(root, project);
    if deps.result.Err? then Finished(deps.root, Err(deps.result.error), [], None)
    else
      var target := TargetPath.CreateFrom(deps.root, project, mode.ToString(), toolchainName);
      if target.result.Err? then Finished(target.root, Err(target.result.error), [], None)
      else
        var layout := deps.result.value;
        var c := Compiler.Compiler(FetchProfile(config, mode), toolchain, layout.includes);
        FetchAndCompileFrom(host, target.root, project, config, c, layout, target.result.value, fuel)
  }

  /** `build`. The toolchain override of the command line chooses the
      toolchain; its link-strategy argument is not consulted. */
  function BuildFrom(host: Host, root: Node, args: Cli.BuildArgs, fuel: nat): Outcome {
    match WithContext(ConfigurationParser.Parse(root, args.path, host.parseConfig), "Corge project is not detected")
    case Err(e) => Finished(root, Err(e), [], None)
    case Ok(config) =>
      match WithContext(Config.SelectToolchain(config, args.toolchain), "Failed to find toolchain in build.yaml file")
      case Err(e) => Finished(root, Err(e), [], None)
      case Ok(selected) => LayOutAndBuildFrom(host, root, args.path, config, args.BuildMode(), selected.0, selected.1, fuel)
  }

  /** The outcome a build method answers with. */
  function Concluded(root: Node, r: Option<Result<()>>, compiles: seq<Command>, link: Option<Command>): Outcome {
    match r
    case None => OutOfFuel
    case Some(result) => Finished(root, result, compiles, link)
  }

  method Build(fs: FileSystem, host: Host, args: Cli.BuildArgs, fuel: nat)
    returns (r: Option<Result<()>>, compiles: seq<Command>, link: Option<Command>)
    requires fs.Valid()
    modifies fs
    ensures fs.Valid()
    ensures Concluded(fs.root, r, compiles, link) == BuildFrom(host, old(fs.root), args, fuel)
  {
    var project := args.path;
    var config := WithContext(ConfigurationParser.Parse(fs.root, project, host.parseConfig), "Corge project is not detected");
    if config.Err? {
      return Some(Err(config.error)), [], None;
    }
    var mode := args.BuildMode();
    var selected := WithContext(Config.SelectToolchain(config.value, args.toolchain), "Failed to find toolchain in build.yaml file");
    if selected.Err? {
      return Some(Err(selected.error)), [], None;
    }
    var (toolchainName, toolchain) := selected.value;
    r, compiles, link := LayOutAndBuild(fs, host, project, config.value, mode, toolchainName, toolchain, fuel);
  }

  method LayOutAndBuild(fs: FileSystem, host: Host, project: Path, config: Config.Config, mode: Cli.BuildModeCli,
                        toolchainName: string, toolchain: Config.Toolchain, fuel: nat)
    returns (r: Option<Result<()>>, compiles: seq<Command>, link: Option<Command>)
    requires fs.Valid()
    modifies fs
    ensures fs.Valid()
    ensures Concluded(fs.root, r, compiles, link) == LayOutAndBuildFrom(host, old(fs.root), project, config, mode, toolchainName, toolchain, fuel)
  {
    var layout := DependencyPath.Create(fs, project);
    if layout.Err? {
      return Some(Err(layout.error)), [], None;
    }
    var targets := TargetPath.Create(fs, project, mode.ToString(), toolchainName);
    if targets.Err? {
      return Some(Err(targets.error)), [], None;
    }
    var profile := FetchProfile(config, mode);
    var c := Compiler.Compiler(profile, toolchain, layout.value.includes);
    assert layout.value == DependencyPath.Layout(project);
    DependencyPath.LayoutSiblings(project);
    r, compiles, link := FetchAndCompile(fs, host, project, config, c, layout.value, targets.value, fuel);
  }

  method FetchAndCompile(fs: FileSystem, host: Host, project: Path, config: Config.Config, c: Compiler.Compiler,
                         layout: DependencyPath.DependencyPath, targets: TargetPath.TargetPath, fuel: nat)
    returns (r: Option<Result<()>>, compiles: seq<Command>, link: Option<Command>)
    requires fs.Valid()
    requires Diverge(layout.sources, layout.includes)
    modifies fs
    ensures fs.Valid()
    ensures Concluded(fs.root, r, compiles, link) == FetchAndCompileFrom(host, old(fs.root), project, config, c, layout, targets, fuel)
  {
    ghost var before := fs.root;
    var fetched := DependencySourceFetcher.Fetch(fs, host, config.registries, config.dependencies, layout.sources, fuel);
    if fetched.None? {
      return None, [], None;
    }
    if fetched.value.Err? {
      return Some(Err(WithContext(fetched.value, "Failed to fetch dependency sources").error)), [], None;
    }
    var artifacts := fetched.value.value;
    DependencySourceFetcher.ArtifactsAtTheirPaths(host, before, config.registries, config.dependencies, layout.sources, fuel);
    forall k | 0 <= k < |artifacts| ensures Diverge(artifacts[k].path, layout.includes) {
      DivergeBelow(layout.sources, layout.includes, [artifacts[k].dependency.name], []);
      assert layout.includes + [] == layout.includes;
    }
    var headers := DependencyIncludeFetcher.Fetch(fs, artifacts, layout.includes);
    if headers.Err? {
      return Some(Err(WithContext(headers, "Failed to fetch dependency headers").error)), [], None;
    }
    var result;
    result, compiles, link := CompileAndLink(fs, host, project, config, c, artifacts, targets);
    r := Some(result);
  }

  method CompileAndLink(fs: FileSystem, host: Host, project: Path, config: Config.Config, c: Compiler.Compiler,
                        artifacts: seq<DependencySourceFetcher.Artifact>, targets: TargetPath.TargetPath)
    returns (r: Result<()>, compiles: seq<Command>, link: Option<Command>)
    requires fs.Valid()
    modifies fs
    ensures fs.Valid()
    ensures Finished(fs.root, r, compiles, link) == CompileAndLinkFrom(host, old(fs.root), project, config, c, artifacts, targets)
  {
    var pic := Pic(config);
    var objects;
    objects, compiles := CompileDependencies(fs, host, c, artifacts, targets.DependencyCache(), pic);
    if objects.Err? {
      return Err(objects.error), compiles, None;
    }
    var sources := FilesFetcher.FetchFiles(fs, project, "c");
    if sources.Err? {
      return Err(WithContext(sources, "Failed to fetch source files for project").error), compiles, None;
    }
    var own, runs := Compiler.Compile(c, fs, host, sources.value, targets.ProjectCache(), pic);
    if own.Err? {
      return Err(WithContext(own, "Failed to compile project files").error), compiles + runs, None;
    }
    compiles := compiles + runs;
    var output, cmd := Linker.Link(Linker.Linker(c.toolchain), host, config.project.linkStrategy, objects.value + own.value,
                                   targets.Output(), config.project.name);
    if output.Err? {
      return Err(WithContext(output, "Failed to link project").error), compiles, Some(cmd);
    }
    return Ok(()), compiles, Some(cmd);
  }

  /** The dependency loop. */
  method CompileDependencies(fs: FileSystem, host: Host, c: Compiler.Compiler, artifacts: seq<DependencySourceFetcher.Artifact>, depCache: Path, pic: bool)
    returns (r: Result<seq<Path>>, runs: seq<Command>)
    requires fs.Valid()
    modifies fs
    ensures fs.Valid()
    ensures Stage(fs.root, r, runs) == CompileArtifacts(c, host, old(fs.root), artifacts, depCache, pic)
  {
    var objects: seq<Path> := [];
    runs := [];
    AfterStageNothing(CompileArtifacts(c, host, fs.root, artifacts, depCache, pic));
    assert artifacts[0..] == artifacts;
    var i := 0;
    while i < |artifacts|
      invariant 0 <= i <= |artifacts|
      invariant fs.Valid()
      invariant CompileArtifacts(c, host, old(fs.root), artifacts, depCache, pic)
                == AfterStage(objects, runs, CompileArtifacts(c, host, fs.root, artifacts[i..], depCache, pic))
    {
      assert artifacts[i..][0] == artifacts[i] && artifacts[i..][1..] == artifacts[i + 1..];
      var artifactObjects, artifactRuns := CompileArtifactStep(fs, host, c, artifacts[i..], depCache, pic);
      if artifactObjects.Err? {
        return Err(artifactObjects.error), runs + artifactRuns;
      }
      AfterStageTwice(objects, runs, artifactObjects.value, artifactRuns,
                      CompileArtifacts(c, host, fs.root, artifacts[i + 1..], depCache, pic));
      objects := objects + artifactObjects.value;
      runs := runs + artifactRuns;
      i := i + 1;
    }
    assert artifacts[i..] == [] && objects + [] == objects && runs + [] == runs;
    return Ok(objects), runs;
  }

  method CompileArtifactStep(fs: FileSystem, host: Host, c: Compiler.Compiler, artifacts: seq<DependencySourceFetcher.Artifact>, depCache: Path, pic: bool)
    returns (objects: Result<seq<Path>>, runs: seq<Command>)
    requires fs.Valid()
    requires artifacts != []
    modifies fs
    ensures fs.Valid()
    ensures objects.Err? ==> Stage(fs.root, objects, runs) == CompileArtifacts(c, host, old(fs.root), artifacts, depCache, pic)
    ensures objects.Ok? ==> CompileArtifacts(c, host, old(fs.root), artifacts, depCache, pic)
                            == AfterStage(objects.value, runs, CompileArtifacts(c, host, fs.root, artifacts[1..], depCache, pic))
  {
    CompileArtifactsUnfolds(c, host, fs.root, artifacts, depCache, pic);
    var artifact := artifacts[0];
    var target := ArtifactCache(depCache, artifact);
    var name := artifact.dependency.name;
    var made := fs.CreateDirAll(target);
    if made.Err? {
      return Err(WithContext(made, "Failed to create directory " + Debug(target)).error), [];
    }
    var sources := FilesFetcher.FetchFiles(fs, artifact.path, "c");
    if sources.Err? {
      return Err(WithContext(sources, "Failed to fetch source files for dependency " + name).error), [];
    }
    var compiled;
    compiled, runs := Compiler.Compile(c, fs, host, sources.value, target, pic);
    objects := WithContext(compiled, "Failed to compile dependency '" + name + "' artifact");
  }

  // What the dependency loop guarantees.

  lemma CompilationRunsSucceeded(c: Compiler.Compiler, host: Host, root: Node, sources: seq<Path>, outDir: Path, pic: bool)
    requires Compiler.CompileFrom(c, root, host, sources, outDir, pic).objects.Ok?
    ensures Compiler.RunsSucceeded(host, Compiler.CompileFrom(c, root, host, sources, outDir, pic).runs)
  {
    Compiler.CompileStopsAtFirstFailure(c, root, host, sources, outDir, pic);
  }


  /** A dependency that compiled made only successful compiler runs. */
  lemma ArtifactRunSucceeded(c: Compiler.Compiler, host: Host, root: Node, artifact: DependencySourceFetcher.Artifact, depCache: Path, pic: bool)
    requires CompileArtifact(c, host, root, artifact, depCache, pic).objects.Ok?
    ensures Compiler.RunsSucceeded(host, CompileArtifact(c, host, root, artifact, depCache, pic).runs)
  {
    var made := Edit(root, ArtifactCache(depCache, artifact), MakeDir, true).value;
    var sources := FilesFetcher.FilesAt(made, artifact.path + ["src"], "c").value;
    CompilationRunsSucceeded(c, host, made, sources, ArtifactCache(depCache, artifact), pic);
  }

  /** When every dependency compiled, every compiler run succeeded. */
  lemma {:induction false} ArtifactRunsSucceeded(c: Compiler.Compiler, host: Host, root: Node, artifacts: seq<DependencySourceFetcher.Artifact>, depCache: Path, pic: bool)
    requires CompileArtifacts(c, host, root, artifacts, depCache, pic).objects.Ok?
    ensures Compiler.RunsSucceeded(host, CompileArtifacts(c, host, root, artifacts, depCache, pic).runs)
    decreases |artifacts|
  {
    if artifacts != [] {
      CompileArtifactsUnfolds(c, host, root, artifacts, depCache, pic);
      var first := CompileArtifact(c, host, root, artifacts[0], depCache, pic);
      var rest := CompileArtifacts(c, host, first.root, artifacts[1..], depCache, pic);
      ArtifactRunSucceeded(c, host, root, artifacts[0], depCache, pic);
      ArtifactRunsSucceeded(c, host, first.root, artifacts[1..], depCache, pic);
      Compiler.RunsSucceededAppend(host, first.runs, rest.runs);
    }
  }

  /** Every path of `objects` is a file directly in the object directory
      of one of `artifacts`. */
  predicate InArtifactCaches(objects: seq<Path>, depCache: Path, artifacts: seq<DependencySourceFetcher.Artifact>) {
    forall k :: 0 <= k < |objects| ==>
      exists j :: 0 <= j < |artifacts| && |objects[k]| == |depCache| + 2
                  && objects[k][..|depCache| + 1] == ArtifactCache(depCache, artifacts[j])
  }

  /** The objects of one dependency lie in its own object directory. */
  lemma ArtifactObjectsInItsCache(c: Compiler.Compiler, host: Host, root: Node, artifact: DependencySourceFetcher.Artifact, depCache: Path, pic: bool)
    requires CompileArtifact(c, host, root, artifact, depCache, pic).objects.Ok?
    ensures var objects := CompileArtifact(c, host, root, artifact, depCache, pic).objects.value;
      forall k :: 0 <= k < |objects| ==>
        |objects[k]| == |depCache| + 2 && objects[k][..|depCache| + 1] == ArtifactCache(depCache, artifact)
  {
    var made := Edit(root, ArtifactCache(depCache, artifact), MakeDir, true).value;
    var sources := FilesFetcher.FilesAt(made, artifact.path + ["src"], "c").value;
    Compiler.ObjectsInOutDir(c, made, host, sources, ArtifactCache(depCache, artifact), pic);
  }

  lemma InArtifactCachesConcat(first: seq<Path>, rest: seq<Path>, depCache: Path, artifacts: seq<DependencySourceFetcher.Artifact>)
    requires artifacts != []
    requires forall k :: 0 <= k < |first| ==>
      |first[k]| == |depCache| + 2 && first[k][..|depCache| + 1] == ArtifactCache(depCache, artifacts[0])
    requires InArtifactCaches(rest, depCache, artifacts[1..])
    ensures InArtifactCaches(first + rest, depCache, artifacts)
  {
    var objects := first + rest;
    forall k | 0 <= k < |objects|
      ensures exists j :: 0 <= j < |artifacts| && |objects[k]| == |depCache| + 2
                          && objects[k][..|depCache| + 1] == ArtifactCache(depCache, artifacts[j])
    {
      if k < |first| {
        assert objects[k] == first[k];
      } else {
        assert objects[k] == rest[k - |first|];
        var j :| 0 <= j < |artifacts[1..]| && |objects[k]| == |depCache| + 2
                 && objects[k][..|depCache| + 1] == ArtifactCache(depCache, artifacts[1..][j]);
        assert artifacts[1..][j] == artifacts[j + 1];
      }
    }
  }

  /** Every dependency object lies in the object directory of one of the
      artifacts, directly below the dependency cache. */
  lemma {:induction false} ArtifactObjectsPlaced(c: Compiler.Compiler, host: Host, root: Node, artifacts: seq<DependencySourceFetcher.Artifact>, depCache: Path, pic: bool)
    requires CompileArtifacts(c, host, root, artifacts, depCache, pic).objects.Ok?
    ensures InArtifactCaches(CompileArtifacts(c, host, root, artifacts, depCache, pic).objects.value, depCache, artifacts)
    decreases |artifacts|
  {
    if artifacts != [] {
      CompileArtifactsUnfolds(c, host, root, artifacts, depCache, pic);
      var first := CompileArtifact(c, host, root, artifacts[0], depCache, pic);
      var rest := CompileArtifacts(c, host, first.root, artifacts[1..], depCache, pic);
      ArtifactObjectsPlaced(c, host, first.root, artifacts[1..], depCache, pic);
      ArtifactObjectsInItsCache(c, host, root, artifacts[0], depCache, pic);
      InArtifactCachesConcat(first.objects.value, rest.objects.value, depCache, artifacts);
    }
  }

  /** The dependency loop writes nothing outside the dependency cache. */
  lemma {:induction false} ArtifactsWriteOnlyCache(c: Compiler.Compiler, host: Host, root: Node, artifacts: seq<DependencySourceFetcher.Artifact>, depCache: Path, pic: bool, q: Path)
    requires Diverge(depCache, q)
    ensures Lookup(CompileArtifacts(c, host, root, artifacts, depCache, pic).root, q) == Lookup(root, q)
    decreases |artifacts|
  {
    if artifacts != [] {
      var target := ArtifactCache(depCache, artifacts[0]);
      CompileArtifactsUnfolds(c, host, root, artifacts, depCache, pic);
      var first := CompileArtifact(c, host, root, artifacts[0], depCache, pic);
      DivergeBelow(depCache, q, [artifacts[0].dependency.name], []);
      assert q + [] == q;
      if Edit(root, target, MakeDir, true).Ok? {
        EditFrame(root, target, MakeDir, true, q);
      }
      if first.objects.Ok? {
        ArtifactsWriteOnlyCache(c, host, first.root, artifacts[1..], depCache, pic, q);
      }
    }
  }

  /** Every compiler run of the dependency loop uses the compiler `c` and
      the same choice of position-independent code. */
  lemma {:induction false} ArtifactRunsOf(c: Compiler.Compiler, host: Host, root: Node, artifacts: seq<DependencySourceFetcher.Artifact>, depCache: Path, pic: bool)
    ensures Compiler.RunsOf(c, pic, CompileArtifacts(c, host, root, artifacts, depCache, pic).runs)
    decreases |artifacts|
  {
    if artifacts != [] {
      CompileArtifactsUnfolds(c, host, root, artifacts, depCache, pic);
      var first := CompileArtifact(c, host, root, artifacts[0], depCache, pic);
      var target := ArtifactCache(depCache, artifacts[0]);
      if Edit(root, target, MakeDir, true).Ok? {
        var made := Edit(root, target, MakeDir, true).value;
        var sources := FilesFetcher.FilesAt(made, artifacts[0].path + ["src"], "c");
        if sources.Ok? {
          Compiler.CompileRunsOf(c, made, host, sources.value, target, pic);
        }
      }
      if first.objects.Ok? {
        ArtifactRunsOf(c, host, first.root, artifacts[1..], depCache, pic);
        Compiler.RunsOfAppend(c, pic, first.runs, CompileArtifacts(c, host, first.root, artifacts[1..], depCache, pic).runs);
      }
    }
  }

  // What the build guarantees.

  /** The linker runs only after every compiler run succeeded, and a build
      succeeds only when the linker does. */
  lemma CompileAndLinkInOrder(host: Host, root: Node, project: Path, config: Config.Config, c: Compiler.Compiler,
                              artifacts: seq<DependencySourceFetcher.Artifact>, targets: TargetPath.TargetPath)
    ensures var o := CompileAndLinkFrom(host, root, project, config, c, artifacts, targets);
      && o.Finished?
      && (o.link.Some? ==> Compiler.RunsSucceeded(host, o.compiles))
      && (o.result.Ok? ==> o.link.Some? && Execute(host.run(o.link.value)).Ok?)
  {
    var pic := Pic(config);
    var deps := CompileArtifacts(c, host, root, artifacts, targets.DependencyCache(), pic);
    if deps.objects.Ok? {
      var found := FilesFetcher.FilesAt(deps.root, project + ["src"], "c");
      if found.Ok? {
        var own := Compiler.CompileFrom(c, deps.root, host, found.value, targets.ProjectCache(), pic);
        if own.objects.Ok? {
          ArtifactRunsSucceeded(c, host, root, artifacts, targets.DependencyCache(), pic);
          CompilationRunsSucceeded(c, host, deps.root, found.value, targets.ProjectCache(), pic);
          Compiler.RunsSucceededAppend(host, deps.runs, own.runs);
        }
      }
    }
  }

  /** Dependencies and project are compiled alike: every compiler run uses
      the compiler `c`, position-independent exactly for a dynamic library. */
  lemma CompileAndLinkRunsOf(host: Host, root: Node, project: Path, config: Config.Config, c: Compiler.Compiler,
                             artifacts: seq<DependencySourceFetcher.Artifact>, targets: TargetPath.TargetPath)
    ensures Compiler.RunsOf(c, Pic(config), CompileAndLinkFrom(host, root, project, config, c, artifacts, targets).compiles)
  {
    var pic := Pic(config);
    var deps := CompileArtifacts(c, host, root, artifacts, targets.DependencyCache(), pic);
    ArtifactRunsOf(c, host, root, artifacts, targets.DependencyCache(), pic);
    if deps.objects.Ok? {
      var found := FilesFetcher.FilesAt(deps.root, project + ["src"], "c");
      if found.Ok? {
        var own := Compiler.CompileFrom(c, deps.root, host, found.value, targets.ProjectCache(), pic);
        Compiler.CompileRunsOf(c, deps.root, host, found.value, targets.ProjectCache(), pic);
        Compiler.RunsOfAppend(c, pic, deps.runs, own.runs);
      }
    }
  }

  /** Nothing is compiled or linked unless every dependency was fetched and
      had its headers projected. */
  lemma CompilesOnlyAfterFetch(host: Host, root: Node, project: Path, config: Config.Config, c: Compiler.Compiler,
                               layout: DependencyPath.DependencyPath, targets: TargetPath.TargetPath, fuel: nat)
    ensures var o := FetchAndCompileFrom(host, root, project, config, c, layout, targets, fuel);
      var fetched := DependencySourceFetcher.FetchAll(host, root, config.registries, config.dependencies, layout.sources, fuel);
      o.Finished? && (o.compiles != [] || o.link.Some?) ==>
        && fetched.Resolution? && fetched.result.Ok?
        && DependencyIncludeFetcher.FetchHeaders(fetched.root, fetched.result.value, layout.includes).result.Ok?
  {
  }

  /** Every compiler run of a build, for a dependency or for the project,
      uses the profile of the build mode, the chosen toolchain and the
      dependency header directory, and generates position-independent code
      exactly for a dynamic library. */
  lemma LayOutAndBuildCompilesAlike(host: Host, root: Node, project: Path, config: Config.Config, mode: Cli.BuildModeCli,
                                    toolchainName: string, toolchain: Config.Toolchain, fuel: nat)
    ensures var o := LayOutAndBuildFrom(host, root, project, config, mode, toolchainName, toolchain, fuel);
      var c := Compiler.Compiler(FetchProfile(config, mode), toolchain, DependencyPath.Layout(project).includes);
      o.Finished? ==> Compiler.RunsOf(c, Pic(config), o.compiles)
  {
    var deps := DependencyPath.CreateFrom(root, project);
    var target := TargetPath.CreateFrom(deps.root, project, mode.ToString(), toolchainName);
    if deps.result.Ok? && target.result.Ok? {
      var layout := deps.result.value;
      var c := Compiler.Compiler(FetchProfile(config, mode), toolchain, layout.includes);
      var fetched := DependencySourceFetcher.FetchAll(host, target.root, config.registries, config.dependencies, layout.sources, fuel);
      if fetched.Resolution? && fetched.result.Ok? {
        var headers := DependencyIncludeFetcher.FetchHeaders(fetched.root, fetched.result.value, layout.includes);
        CompileAndLinkRunsOf(host, headers.root, project, config, c, fetched.result.value, target.result.value);
      }
    }
  }

  /** Compiling and linking write only what the dependency loop writes. */
  lemma CompileAndLinkRoot(host: Host, root: Node, project: Path, config: Config.Config, c: Compiler.Compiler,
                           artifacts: seq<DependencySourceFetcher.Artifact>, targets: TargetPath.TargetPath)
    ensures CompileAndLinkFrom(host, root, project, config, c, artifacts, targets).Finished?
    ensures CompileAndLinkFrom(host, root, project, config, c, artifacts, targets).root
            == CompileArtifacts(c, host, root, artifacts, targets.DependencyCache(), Pic(config)).root
  {
  }

  /** What is linked: the dependency objects, each in its artifact's object
      directory, followed by the project's objects, each directly in the
      project cache, into the strategy's output file in the output
      directory. */
  lemma LinkedObjects(host: Host, root: Node, project: Path, config: Config.Config, c: Compiler.Compiler,
                      artifacts: seq<DependencySourceFetcher.Artifact>, targets: TargetPath.TargetPath)
    requires CompileAndLinkFrom(host, root, project, config, c, artifacts, targets).link.Some?
    ensures var depCache := targets.DependencyCache();
      var deps := CompileArtifacts(c, host, root, artifacts, depCache, Pic(config));
      var sources := FilesFetcher.FilesAt(deps.root, project + ["src"], "c");
      && deps.objects.Ok? && sources.Ok?
      && var own := Compiler.CompileFrom(c, deps.root, host, sources.value, targets.ProjectCache(), Pic(config));
      && own.objects.Ok?
      && CompileAndLinkFrom(host, root, project, config, c, artifacts, targets).link.value
         == Linker.LinkCommand(c.toolchain, config.project.linkStrategy, deps.objects.value + own.objects.value,
                               Linker.OutputFile(c.toolchain, host, config.project.linkStrategy, targets.Output(), config.project.name))
      && InArtifactCaches(deps.objects.value, depCache, artifacts)
      && (forall k :: 0 <= k < |own.objects.value| ==>
            |own.objects.value[k]| == |targets.ProjectCache()| + 1
            && own.objects.value[k][..|targets.ProjectCache()|] == targets.ProjectCache())
  {
    var deps := CompileArtifacts(c, host, root, artifacts, targets.DependencyCache(), Pic(config));
    var sources := FilesFetcher.FilesAt(deps.root, project + ["src"], "c");
    ArtifactObjectsPlaced(c, host, root, artifacts, targets.DependencyCache(), Pic(config));
    Compiler.ObjectsInOutDir(c, deps.root, host, sources.value, targets.ProjectCache(), Pic(config));
  }

  /** Past the directory layout, a build writes only below the dependency
      sources, the dependency headers and the dependency object cache. */
  lemma FetchAndCompileWritesOnlyBelow(host: Host, root: Node, project: Path, config: Config.Config, c: Compiler.Compiler,
                                        layout: DependencyPath.DependencyPath, targets: TargetPath.TargetPath, fuel: nat, q: Path)
    requires Diverge(layout.sources, q) && Diverge(layout.includes, q) && Diverge(targets.DependencyCache(), q)
    ensures var o := FetchAndCompileFrom(host, root, project, config, c, layout, targets, fuel);
      o.Finished? ==> Lookup(o.root, q) == Lookup(root, q)
  {
    var fetched := DependencySourceFetcher.FetchAll(host, root, config.registries, config.dependencies, layout.sources, fuel);
    if fetched.Resolution? {
      DependencySourceFetcher.WritesOnlySources(host, root, config.registries, config.dependencies, layout.sources, fuel, q);
    }
    if fetched.Resolution? && fetched.result.Ok? {
      var artifacts := fetched.result.value;
      var headers := DependencyIncludeFetcher.FetchHeaders(fetched.root, artifacts, layout.includes);
      DependencyIncludeFetcher.FetchWritesOnlyIncludes(fetched.root, artifacts, layout.includes, q);
      if headers.result.Ok? {
        CompileAndLinkRoot(host, headers.root, project, config, c, artifacts, targets);
        ArtifactsWriteOnlyCache(c, host, headers.root, artifacts, targets.DependencyCache(), Pic(config), q);
      }
    }
  }

  /** Every directory a build creates or writes below lies inside the
      project, so it parts ways with any path outside the project. */
  lemma LayoutInsideProject(project: Path, mode: string, toolchain: string, q: Path)
    requires Diverge(project, q)
    ensures var d := DependencyPath.Layout(project);
      var t := TargetPath.Layout(project, mode, toolchain);
      && Diverge(d.sources, q) && Diverge(d.includes, q) && Diverge(t.DependencyCache(), q)
      && !IsPrefix(q, d.sources) && !IsPrefix(q, d.includes)
      && !IsPrefix(q, t.ProjectCache()) && !IsPrefix(q, t.DependencyCache()) && !IsPrefix(q, t.Output())
  {
    var d := DependencyPath.Layout(project);
    var t := TargetPath.Layout(project, mode, toolchain);
    var base := ["target", mode, toolchain];
    assert q + [] == q;
    assert t.ProjectCache() == project + (base + ["cache", "project"]);
    assert t.DependencyCache() == project + (base + ["cache", "dependency"]);
    assert t.Output() == project + (base + ["output"]);
    DivergeBelow(project, q, ["dependency", "source"], []);
    DivergeBelow(project, q, ["dependency", "include"], []);
    DivergeBelow(project, q, base + ["cache", "project"], []);
    DivergeBelow(project, q, base + ["cache", "dependency"], []);
    DivergeBelow(project, q, base + ["output"], []);
    DivergeNotPrefix(d.sources, q);
    DivergeNotPrefix(d.includes, q);
    DivergeNotPrefix(t.ProjectCache(), q);
    DivergeNotPrefix(t.DependencyCache(), q);
    DivergeNotPrefix(t.Output(), q);
  }

  /** Laying out the project's directories changes nothing outside it. */
  lemma LayoutKeepsOutside(root: Node, project: Path, mode: string, toolchain: string, q: Path)
    requires Diverge(project, q)
    ensures var deps := DependencyPath.CreateFrom(root, project);
      && Lookup(deps.root, q) == Lookup(root, q)
      && Lookup(TargetPath.CreateFrom(deps.root, project, mode, toolchain).root, q) == Lookup(root, q)
  {
    LayoutInsideProject(project, mode, toolchain, q);
    DependencyPath.CreateKeepsOthers(root, project, q);
    TargetPath.CreateKeepsOthers(DependencyPath.CreateFrom(root, project).root, project, mode, toolchain, q);
  }

  /** Past the choice of toolchain, a build writes nothing outside the
      project directory. */
  lemma LayOutAndBuildWritesOnlyInsideProject(host: Host, root: Node, project: Path, config: Config.Config, mode: Cli.BuildModeCli,
                                               toolchainName: string, toolchain: Config.Toolchain, fuel: nat, q: Path)
    requires Diverge(project, q)
    ensures var o := LayOutAndBuildFrom(host, root, project, config, mode, toolchainName, toolchain, fuel);
      o.Finished? ==> Lookup(o.root, q) == Lookup(root, q)
  {
    LayoutKeepsOutside(root, project, mode.ToString(), toolchainName, q);
    var deps := DependencyPath.CreateFrom(root, project);
    var target := TargetPath.CreateFrom(deps.root, project, mode.ToString(), toolchainName);
    if deps.result.Ok? && target.result.Ok? {
      var layout := DependencyPath.Layout(project);
      var targets := TargetPath.Layout(project, mode.ToString(), toolchainName);
      var c := Compiler.Compiler(FetchProfile(config, mode), toolchain, layout.includes);
      FetchAndCompileWritesOnlyBelow(host, target.root, project, config, c, layout, targets, fuel, q);
    }
  }

  /** A build writes nothing outside the project directory. */
  lemma BuildWritesOnlyInsideProject(host: Host, root: Node, args: Cli.BuildArgs, fuel: nat, q: Path)
    requires Diverge(args.path, q)
    ensures var o := BuildFrom(host, root, args, fuel);
      o.Finished? ==> Lookup(o.root, q) == Lookup(root, q)
  {
    var config := WithContext(ConfigurationParser.Parse(root, args.path, host.parseConfig), "Corge project is not detected");
    if config.Ok? {
      var selected := WithContext(Config.SelectToolchain(config.value, args.toolchain), "Failed to find toolchain in build.yaml file");
      if selected.Ok? {
        LayOutAndBuildWritesOnlyInsideProject(host, root, args.path, config.value, args.BuildMode(), selected.value.0, selected.value.1, fuel, q);
      }
    }
  }

  /** Past the directory layout, the linker runs only after every compiler
      run succeeded, and a successful build ran it successfully. */
  lemma FetchAndCompileLinksAfterCleanCompiles(host: Host, root: Node, project: Path, config: Config.Config, c: Compiler.Compiler,
                                                layout: DependencyPath.DependencyPath, targets: TargetPath.TargetPath, fuel: nat)
    ensures var o := FetchAndCompileFrom(host, root, project, config, c, layout, targets, fuel);
      && (o.Finished? && o.link.Some? ==> Compiler.RunsSucceeded(host, o.compiles))
      && (o.Finished? && o.result.Ok? ==> o.link.Some? && Execute(host.run(o.link.value)).Ok?)
  {
    var fetched := DependencySourceFetcher.FetchAll(host, root, config.registries, config.dependencies, layout.sources, fuel);
    if fetched.Resolution? && fetched.result.Ok? {
      var headers := DependencyIncludeFetcher.FetchHeaders(fetched.root, fetched.result.value, layout.includes);
      CompileAndLinkInOrder(host, headers.root, project, config, c, fetched.result.value, targets);
    }
  }

  /** Past the choice of toolchain, the same order holds. */
  lemma LayOutAndBuildLinksAfterCleanCompiles(host: Host, root: Node, project: Path, config: Config.Config, mode: Cli.BuildModeCli,
                                               toolchainName: string, toolchain: Config.Toolchain, fuel: nat)
    ensures var o := LayOutAndBuildFrom(host, root, project, config, mode, toolchainName, toolchain, fuel);
      && (o.Finished? && o.link.Some? ==> Compiler.RunsSucceeded(host, o.compiles))
      && (o.Finished? && o.result.Ok? ==> o.link.Some? && Execute(host.run(o.link.value)).Ok?)
  {
    var deps := DependencyPath.CreateFrom(root, project);
    var target := TargetPath.CreateFrom(deps.root, project, mode.ToString(), toolchainName);
    if deps.result.Ok? && target.result.Ok? {
      var c := Compiler.Compiler(FetchProfile(config, mode), toolchain, deps.result.value.includes);
      FetchAndCompileLinksAfterCleanCompiles(host, target.root, project, config, c, deps.result.value, target.result.value, fuel);
    }
  }

  /** Whatever the build did, the linker ran only after every compiler run
      succeeded, and a successful build ran the linker successfully. */
  lemma BuildLinksAfterCleanCompiles(host: Host, root: Node, args: Cli.BuildArgs, fuel: nat)
    ensures var o := BuildFrom(host, root, args, fuel);
      && (o.Finished? && o.link.Some? ==> Compiler.RunsSucceeded(host, o.compiles))
      && (o.Finished? && o.result.Ok? ==> o.link.Some? && Execute(host.run(o.link.value)).Ok?)
  {
    var config := WithContext(ConfigurationParser.Parse(root, args.path, host.parseConfig), "Corge project is not detected");
    if config.Ok? {
      var selected := WithContext(Config.SelectToolchain(config.value, args.toolchain), "Failed to find toolchain in build.yaml file");
      if selected.Ok? {
        LayOutAndBuildLinksAfterCleanCompiles(host, root, args.path, config.value, args.BuildMode(), selected.value.0, selected.value.1, fuel);
      }
    }
  }

  /** A build without a readable, parsable configuration, or whose
      toolchain cannot be found, changes nothing and runs nothing. */
  lemma EarlyFailuresChangeNothing(host: Host, root: Node, args: Cli.BuildArgs, fuel: nat)
    requires ConfigurationParser.Parse(root, args.path, host.parseConfig).Err?
             || Config.SelectToolchain(ConfigurationParser.Parse(root, args.path, host.parseConfig).value, args.toolchain).Err?
    ensures var o := BuildFrom(host, root, args, fuel);
      o.Finished? && o.root == root && o.result.Err? && o.compiles == [] && o.link.None?
  {
  }

  /** The link-strategy argument of the command line never changes a
      build: the strategy comes from the configuration. */
  lemma LinkArgumentIgnored(host: Host, root: Node, args: Cli.BuildArgs, fuel: nat, strategy: Config.LinkStrategy)
    ensures BuildFrom(host, root, args.(link := strategy), fuel) == BuildFrom(host, root, args, fuel)
  {
  }
}
