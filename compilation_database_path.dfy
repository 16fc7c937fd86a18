/** Where the compilation database of a project is written. */
module CompilationDatabasePath {
  import opened Common
  import opened FileTree

  datatype CompilationDatabasePath = CompilationDatabasePath(json: Path)

  function Directory(project: Path): Path {
    project + ["compilation_database"]
  }

  /** `<project>/compilation_database/compile_commands.json` */
  function Layout(project: Path): (c: CompilationDatabasePath)
    ensures |c.json| == |project| + 2
    ensures c.json[..|c.json| - 1] == Directory(project)
    ensures c.json[|c.json| - 1] == "compile_commands.json"
  {
    CompilationDatabasePath(Directory(project) + ["compile_commands.json"])
  }

  /** `CompilationDatabasePath::create`: only the directory is created. */
  function CreateFrom(root: Node, project: Path): (c: Changed<CompilationDatabasePath>)
    ensures c.result.Ok? ==> c.result.value == Layout(project)
    ensures c.result.Err? ==> c.root == root && Message(c.result.error) == "Failed to create compilation database directory"
  {
    var made := CreateDirAllWithContext(root, Directory(project), "Failed to create compilation database directory");
    if made.result.Err? then Changed(made.root, Err(made.result.error))
    else Changed(made.root, Ok(Layout(project)))
  }

  method Create(fs: FileSystem, project: Path) returns (r: Result<CompilationDatabasePath>)
    requires fs.Valid()
    modifies fs
    ensures fs.Valid()
    ensures Changed(fs.root, r) == CreateFrom(old(fs.root), project)
  {
    var made := fs.CreateDirAll(Directory(project));
    if made.Err? {
      return Err(WithContext(made, "Failed to create compilation database directory").error);
    }
    return Ok(Layout(project));
  }

  /** After success the directory exists, while the JSON file is neither
      created nor changed, and creating again changes nothing. */
  lemma CreateMakesOnlyDirectory(root: Node, project: Path)
    requires CreateFrom(root, project).result.Ok?
    ensures var after := CreateFrom(root, project).root;
      && Lookup(after, Directory(project)).Some? && IsDirectory(Lookup(after, Directory(project)).value)
      && Lookup(after, Layout(project).json) == Lookup(root, Layout(project).json)
      && CreateFrom(after, project) == CreateFrom(root, project)
  {
    var after := CreateFrom(root, project).root;
    MakeDirMakesDirectory(root, Directory(project), true);
    EditOnlyTouches(root, Directory(project), MakeDir, true, Layout(project).json);
    MakeExistingDir(after, Directory(project), true);
  }
}
