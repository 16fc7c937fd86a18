/** The `compdb` command: a `compile_commands.json` with one record per C
    source of the project. */
module CompilationDatabase {
  import opened Common
  import opened FileTree
  import opened FilesFetcher
  import DependencyPath
  import CompilationDatabasePath

  /** One record of the compilation database. */
  datatype CompileCommand = CompileCommand(directory: string, file: string, command: string)

  /** The record of one canonical source path. The command always names
      GCC, whatever toolchain the project configures. */
  function Record(projectDir: Path, includeDir: Path, source: Path): (c: CompileCommand)
    ensures c.directory == Display(projectDir) && c.file == Display(source)
    ensures c.command == "gcc -c " + c.file + " -I " + Display(includeDir)
  {
    var file := Display(source);
    CompileCommand(Display(projectDir), file, "gcc -c " + file + " -I " + Display(includeDir))
  }

  /** The records of the sources, in order; each source is canonicalised
      first, and the first that cannot be fails the whole collection. */
  function Records(root: Node, sources: seq<Path>, projectDir: Path, includeDir: Path): (r: Result<seq<CompileCommand>>)
    ensures r.Ok? <==> forall k :: 0 <= k < |sources| ==> Exists(root, sources[k])
    ensures r.Ok? ==> |r.value| == |sources|
    ensures r.Ok? ==> forall k :: 0 <= k < |sources| ==> r.value[k] == Record(projectDir, includeDir, sources[k])
    ensures r.Err? ==> r.error == Error("No such file or directory", [])
  {
    if sources == [] then Ok([])
    else
      match Canonicalize(root, sources[0])
      case Err(e) => Err(e)
      case Ok(source) =>
        match Records(root, sources[1..], projectDir, includeDir)
        case Err(e) => Err(e)
        case Ok(rest) => Ok([Record(projectDir, includeDir, source)] + rest)
  }

  /** The records for a project, on the filesystem once its directories
      exist: the C sources below `<project>/src` in discovery order, with
      the canonical project and dependency include directories. */
  function Database(root: Node, project: Path): Result<seq<CompileCommand>> {
    var sources :- WithContext(FilesAt(root, project + ["src"], "c"), "Failed to fetch source files for project");
    var projectDir :- Canonicalize(root, project);
    var includeDir :- Canonicalize(root, DependencyPath.Layout(project).includes);
    match Records(root, sources, projectDir, includeDir)
    case Err(e) => Fail("Failed to generate compile commands: " + Message(e))
    case Ok(records) => Ok(records)
  }

  /** `compilation_database`: create the dependency and database
      directories, collect the records and write them, serialised by
      `toJson`, to `compile_commands.json`. */
  function Generate(root: Node, project: Path, toJson: seq<CompileCommand> -> string): Changed<()> {
    var deps := DependencyPath.CreateFrom(root, project);
    if deps.result.Err? then Changed(deps.root, Err(deps.result.error))
    else
      var db := CompilationDatabasePath.CreateFrom(deps.root, project);
      if db.result.Err? then Changed(db.root, Err(db.result.error))
      else
        match Database(db.root, project)
        case Err(e) => Changed(db.root, Err(e))
        case Ok(records) =>
          match Edit(db.root, db.result.value.json, PutFile(toJson(records)), false)
          case Err(e) => Changed(db.root, Err(e))
          case Ok(root') => Changed(root', Ok(()))
  }

  method CompilationDatabase(fs: FileSystem, project: Path, toJson: seq<CompileCommand> -> string) returns (r: Result<()>)
    requires fs.Valid()
    modifies fs
    ensures fs.Valid()
    ensures Changed(fs.root, r) == Generate(old(fs.root), project, toJson)
  {
    var deps := DependencyPath.Create(fs, project);
    if deps.Err? {
      return Err(deps.error);
    }
    var db := CompilationDatabasePath.Create(fs, project);
    if db.Err? {
      return Err(db.error);
    }
    var sources := FetchFiles(fs, project, "c");
    if sources.Err? {
      return Err(WithContext(sources, "Failed to fetch source files for project").error);
    }
    var projectDir := Canonicalize(fs.root, project);
    if projectDir.Err? {
      return Err(projectDir.error);
    }
    var includeDir := Canonicalize(fs.root, deps.value.includes);
    if includeDir.Err? {
      return Err(includeDir.error);
    }
    var records := Records(fs.root, sources.value, projectDir.value, includeDir.value);
    if records.Err? {
      return Fail("Failed to generate compile commands: " + Message(records.error));
    }
    var written := fs.Write(db.value.json, toJson(records.value));
    if written.Err? {
      return Err(written.error);
    }
    return Ok(());
  }

  /** On the filesystem the database is generated from, canonicalising a
      discovered source cannot fail: there is exactly one record per C
      source below `<project>/src`, in discovery order, all with the same
      project directory, each command compiling the record's own file. */
  lemma OneRecordPerSource(root: Node, project: Path)
    requires FilesAt(root, project + ["src"], "c").Ok?
    requires Exists(root, project) && Exists(root, DependencyPath.Layout(project).includes)
    ensures Database(root, project).Ok?
    ensures var sources := FilesAt(root, project + ["src"], "c").value;
      var records := Database(root, project).value;
      && |records| == |sources|
      && forall k :: 0 <= k < |records| ==>
           && records[k] == Record(project, DependencyPath.Layout(project).includes, sources[k])
           && records[k].directory == Display(project)
  {
    var at := project + ["src"];
    var n := Lookup(root, at).value;
    var sources := FilesAt(root, at, "c").value;
    forall k | 0 <= k < |sources| ensures Exists(root, sources[k]) {
      FilesInSound(n, at, "c", k);
      var q := sources[k];
      LookupAppend(root, at, q[|at|..]);
      assert at + q[|at|..] == q;
    }
  }

  /** Dependency sources are never listed: every record is for a C file
      below `<project>/src`, apart from the dependency sources directory. */
  lemma NoDependencySources(root: Node, project: Path, k: nat)
    requires FilesAt(root, project + ["src"], "c").Ok?
    requires k < |FilesAt(root, project + ["src"], "c").value|
    ensures var source := FilesAt(root, project + ["src"], "c").value[k];
      && IsPrefix(project + ["src"], source)
      && Diverge(source, DependencyPath.Layout(project).sources)
      && PathExtension(source) == Some("c")
  {
    var at := project + ["src"];
    var source := FilesAt(root, at, "c").value[k];
    FilesInSound(Lookup(root, at).value, at, "c", k);
    assert source[|project|] == "src";
    assert DependencyPath.Layout(project).sources[|project|] == "dependency";
  }

  /** The records the database holds for the sources a walk found: one
      per source, in order, with the project and its dependency include
      directory. */
  function RecordsFor(project: Path, sources: seq<Path>): (records: seq<CompileCommand>)
    ensures |records| == |sources|
  {
    seq(|sources|, k requires 0 <= k < |sources| => Record(project, DependencyPath.Layout(project).includes, sources[k]))
  }

  /** The tree the records are collected from: after the dependency and
      database directories are created. */
  function LaidOut(root: Node, project: Path): Node {
    CompilationDatabasePath.CreateFrom(DependencyPath.CreateFrom(root, project).root, project).root
  }

  /** Creating the directories leaves `<project>/src`, and hence the source
      walk, as it was. */
  lemma LaidOutKeepsSources(root: Node, project: Path)
    ensures FilesAt(LaidOut(root, project), project + ["src"], "c") == FilesAt(root, project + ["src"], "c")
  {
    var at := project + ["src"];
    var d := DependencyPath.Layout(project);
    assert !IsPrefix(at, d.sources) && !IsPrefix(at, d.includes) by {
      assert d.sources[|project|] != at[|project|];
      assert d.includes[|project|] != at[|project|];
    }
    DependencyPath.CreateKeepsOthers(root, project, at);
    var deps := DependencyPath.CreateFrom(root, project).root;
    var dir := CompilationDatabasePath.Directory(project);
    if Edit(deps, dir, MakeDir, true).Ok? {
      assert !IsPrefix(at, dir) by { assert dir[|project|] != at[|project|]; }
      EditOnlyTouches(deps, dir, MakeDir, true, at);
    }
  }

  /** The JSON file is written last: when generation fails, whatever was at
      its path is still there, and on success it holds the serialised
      records, one per C source below `<project>/src`. */
  lemma WrittenOnlyOnSuccess(root: Node, project: Path, toJson: seq<CompileCommand> -> string)
    ensures var g := Generate(root, project, toJson);
      var json := CompilationDatabasePath.Layout(project).json;
      && (g.result.Err? ==> Lookup(g.root, json) == Lookup(root, json))
      && (g.result.Ok? ==>
            && FilesAt(root, project + ["src"], "c").Ok?
            && Lookup(g.root, json) == Some(File(toJson(RecordsFor(project, FilesAt(root, project + ["src"], "c").value)))))
  {
    if Generate(root, project, toJson).result.Err? {
      FailureKeepsJson(root, project, toJson);
    } else {
      SuccessWritesJson(root, project, toJson);
    }
  }

  lemma FailureKeepsJson(root: Node, project: Path, toJson: seq<CompileCommand> -> string)
    requires Generate(root, project, toJson).result.Err?
    ensures var json := CompilationDatabasePath.Layout(project).json;
      Lookup(Generate(root, project, toJson).root, json) == Lookup(root, json)
  {
    var json := CompilationDatabasePath.Layout(project).json;
    var d := DependencyPath.Layout(project);
    assert !IsPrefix(json, d.sources) && !IsPrefix(json, d.includes) by {
      assert d.sources[|project|] != json[|project|];
      assert d.includes[|project|] != json[|project|];
    }
    DependencyPath.CreateKeepsOthers(root, project, json);
    var deps := DependencyPath.CreateFrom(root, project);
    if deps.result.Ok? {
      var db := CompilationDatabasePath.CreateFrom(deps.root, project);
      if db.result.Ok? {
        CompilationDatabasePath.CreateMakesOnlyDirectory(deps.root, project);
      }
    }
  }

  /** A successful generation wrote the records collected on the laid-out
      tree to the JSON path. */
  lemma GenerateWrote(root: Node, project: Path, toJson: seq<CompileCommand> -> string)
    requires Generate(root, project, toJson).result.Ok?
    ensures var laid := LaidOut(root, project);
      && Database(laid, project).Ok?
      && Edit(laid, CompilationDatabasePath.Layout(project).json, PutFile(toJson(Database(laid, project).value)), false).Ok?
      && Generate(root, project, toJson).root
         == Edit(laid, CompilationDatabasePath.Layout(project).json, PutFile(toJson(Database(laid, project).value)), false).value
  {
  }

  /** The records collected on the laid-out tree are those of the sources
      that were below `<project>/src` before. */
  lemma LaidOutRecords(root: Node, project: Path)
    requires Database(LaidOut(root, project), project).Ok?
    ensures FilesAt(root, project + ["src"], "c").Ok?
    ensures Database(LaidOut(root, project), project).value == RecordsFor(project, FilesAt(root, project + ["src"], "c").value)
  {
    var laid := LaidOut(root, project);
    LaidOutKeepsSources(root, project);
    OneRecordPerSource(laid, project);
  }

  /** A successful generation leaves at the JSON path the serialisation of
      exactly one record per C source that was below `<project>/src`, in
      discovery order. */
  lemma SuccessWritesJson(root: Node, project: Path, toJson: seq<CompileCommand> -> string)
    requires Generate(root, project, toJson).result.Ok?
    ensures FilesAt(root, project + ["src"], "c").Ok?
    ensures var json := CompilationDatabasePath.Layout(project).json;
      Lookup(Generate(root, project, toJson).root, json)
        == Some(File(toJson(RecordsFor(project, FilesAt(root, project + ["src"], "c").value))))
  {
    var json := CompilationDatabasePath.Layout(project).json;
    var laid := LaidOut(root, project);
    GenerateWrote(root, project, toJson);
    LaidOutRecords(root, project);
    EditAt(laid, json, PutFile(toJson(Database(laid, project).value)), false);
  }
}
