/** Where dependencies live inside a project: their fetched sources and the
    headers projected out of them. */
module DependencyPath {
  import opened Common
  import opened FileTree

  datatype DependencyPath = DependencyPath(sources: Path, includes: Path)

  /** `<project>/dependency/source` and `<project>/dependency/include`. */
  function Layout(project: Path): (d: DependencyPath)
    ensures |d.sources| == |d.includes| == |project| + 2
    ensures d.sources[..|project| + 1] == d.includes[..|project| + 1] == project + ["dependency"]
  {
    DependencyPath(project + ["dependency", "source"], project + ["dependency", "include"])
  }

  /** The two directories are distinct siblings: neither lies inside the
      other. */
  lemma LayoutSiblings(project: Path)
    ensures Diverge(Layout(project).sources, Layout(project).includes)
  {
    var d := Layout(project);
    assert d.sources[|project| + 1] != d.includes[|project| + 1];
  }

  /** `DependencyPath::create`: the layout, after creating both directories. */
  function CreateFrom(root: Node, project: Path): (c: Changed<DependencyPath>)
    ensures c.result.Ok? ==> c.result.value == Layout(project)
  {
    var d := Layout(project);
    var first := CreateDirAllWithContext(root, d.sources, "Failed to create dependencies source directory");
    if first.result.Err? then Changed(first.root, Err(first.result.error))
    else
      var second := CreateDirAllWithContext(first.root, d.includes, "Failed to create dependencies include directory");
      if second.result.Err? then Changed(second.root, Err(second.result.error))
      else Changed(second.root, Ok(d))
  }

  method Create(fs: FileSystem, project: Path) returns (r: Result<DependencyPath>)
    requires fs.Valid()
    modifies fs
    ensures fs.Valid()
    ensures Changed(fs.root, r) == CreateFrom(old(fs.root), project)
  {
    var d := Layout(project);
    var made := fs.CreateDirAll(d.sources);
    if made.Err? {
      return Err(WithContext(made, "Failed to create dependencies source directory").error);
    }
    made := fs.CreateDirAll(d.includes);
    if made.Err? {
      return Err(WithContext(made, "Failed to create dependencies include directory").error);
    }
    return Ok(d);
  }

  /** After success both directories exist. */
  lemma CreateMakesDirectories(root: Node, project: Path)
    requires CreateFrom(root, project).result.Ok?
    ensures var after := CreateFrom(root, project).root;
      && Lookup(after, Layout(project).sources).Some? && IsDirectory(Lookup(after, Layout(project).sources).value)
      && Lookup(after, Layout(project).includes).Some? && IsDirectory(Lookup(after, Layout(project).includes).value)
  {
    var d := Layout(project);
    var r1 := Edit(root, d.sources, MakeDir, true).value;
    MakeDirMakesDirectory(root, d.sources, true);
    MakeDirMakesDirectory(r1, d.includes, true);
    LayoutSiblings(project);
    EditFrame(r1, d.includes, MakeDir, true, d.sources);
  }

  /** Creating the layout a second time changes nothing. */
  lemma CreateIdempotent(root: Node, project: Path)
    requires CreateFrom(root, project).result.Ok?
    ensures CreateFrom(CreateFrom(root, project).root, project) == CreateFrom(root, project)
  {
    var after := CreateFrom(root, project).root;
    var d := Layout(project);
    CreateMakesDirectories(root, project);
    MakeExistingDir(after, d.sources, true);
    MakeExistingDir(after, d.includes, true);
  }

  /** Creating the layout changes nothing but the two directories and their
      ancestors. */
  lemma CreateKeepsOthers(root: Node, project: Path, q: Path)
    requires !IsPrefix(q, Layout(project).sources) && !IsPrefix(q, Layout(project).includes)
    ensures Lookup(CreateFrom(root, project).root, q) == Lookup(root, q)
  {
    var d := Layout(project);
    if Edit(root, d.sources, MakeDir, true).Ok? {
      var r1 := Edit(root, d.sources, MakeDir, true).value;
      EditOnlyTouches(root, d.sources, MakeDir, true, q);
      if Edit(r1, d.includes, MakeDir, true).Ok? {
        EditOnlyTouches(r1, d.includes, MakeDir, true, q);
      }
    }
  }
}
