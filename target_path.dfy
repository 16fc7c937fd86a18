/** The build directories of one build mode and toolchain:
    `<project>/target/<mode>/<toolchain>/` holds the object caches of the
    project and of its dependencies, and the linked output. */
module TargetPath {
  import opened Common
  import opened FileTree

  datatype TargetCachePath = TargetCachePath(project: Path, dependency: Path)
  datatype TargetToolchainPath = TargetToolchainPath(cache: TargetCachePath, output: Path)
  datatype TargetBuildModePath = TargetBuildModePath(toolchain: TargetToolchainPath)
  datatype TargetPath = TargetPath(buildMode: TargetBuildModePath) {
    function ProjectCache(): Path { buildMode.toolchain.cache.project }
    function DependencyCache(): Path { buildMode.toolchain.cache.dependency }
    function Output(): Path { buildMode.toolchain.output }
  }

  /** The directory of one build mode and toolchain. */
  function ToolchainDir(project: Path, buildMode: string, toolchain: string): (p: Path)
    ensures |p| == |project| + 3 && p[..|project|] == project
  {
    project + ["target", buildMode, toolchain]
  }

  function Layout(project: Path, buildMode: string, toolchain: string): TargetPath {
    var base := ToolchainDir(project, buildMode, toolchain);
    var cache := base + ["cache"];
    TargetPath(TargetBuildModePath(TargetToolchainPath(
      TargetCachePath(cache + ["project"], cache + ["dependency"]),
      base + ["output"])))
  }

  /** All three directories lie below the toolchain directory, and they
      pairwise part ways: none is inside another. */
  lemma LayoutDisjoint(project: Path, buildMode: string, toolchain: string)
    ensures var t := Layout(project, buildMode, toolchain);
      var base := ToolchainDir(project, buildMode, toolchain);
      && IsPrefix(base, t.ProjectCache()) && IsPrefix(base, t.DependencyCache()) && IsPrefix(base, t.Output())
      && t.ProjectCache() == base + ["cache", "project"]
      && t.DependencyCache() == base + ["cache", "dependency"]
      && t.Output() == base + ["output"]
      && Diverge(t.ProjectCache(), t.DependencyCache())
      && Diverge(t.ProjectCache(), t.Output())
      && Diverge(t.DependencyCache(), t.Output())
  {
    var t := Layout(project, buildMode, toolchain);
    var base := ToolchainDir(project, buildMode, toolchain);
    var n := |base|;
    assert t.ProjectCache()[n + 1] != t.DependencyCache()[n + 1];
    assert t.ProjectCache()[n] != t.Output()[n];
    assert t.DependencyCache()[n] != t.Output()[n];
  }

  /** Builds of different modes or toolchains use different directories. */
  lemma ToolchainDirsDistinct(project: Path, m1: string, t1: string, m2: string, t2: string)
    requires (m1, t1) != (m2, t2)
    ensures Diverge(ToolchainDir(project, m1, t1), ToolchainDir(project, m2, t2))
  {
    var a := ToolchainDir(project, m1, t1);
    var b := ToolchainDir(project, m2, t2);
    if m1 != m2 {
      assert a[|project| + 1] != b[|project| + 1];
    } else {
      assert a[|project| + 2] != b[|project| + 2];
    }
  }

  /** `TargetPath::create`: the layout, after creating its three directories. */
  function CreateFrom(root: Node, project: Path, buildMode: string, toolchain: string): (c: Changed<TargetPath>)
    ensures c.result.Ok? ==> c.result.value == Layout(project, buildMode, toolchain)
  {
    var t := Layout(project, buildMode, toolchain);
    var first := CreateDirAllWithContext(root, t.ProjectCache(), "Failed to create target project cache directory");
    if first.result.Err? then Changed(first.root, Err(first.result.error))
    else
      var second := CreateDirAllWithContext(first.root, t.DependencyCache(), "Failed to create target dependency cache directory");
      if second.result.Err? then Changed(second.root, Err(second.result.error))
      else
        var third := CreateDirAllWithContext(second.root, t.Output(), "Failed to create target output directory");
        if third.result.Err? then Changed(third.root, Err(third.result.error))
        else Changed(third.root, Ok(t))
  }

  method Create(fs: FileSystem, project: Path, buildMode: string, toolchain: string) returns (r: Result<TargetPath>)
    requires fs.Valid()
    modifies fs
    ensures fs.Valid()
    ensures Changed(fs.root, r) == CreateFrom(old(fs.root), project, buildMode, toolchain)
  {
    var t := Layout(project, buildMode, toolchain);
    var made := fs.CreateDirAll(t.buildMode.toolchain.cache.project);
    if made.Err? {
      return Err(WithContext(made, "Failed to create target project cache directory").error);
    }
    made := fs.CreateDirAll(t.buildMode.toolchain.cache.dependency);
    if made.Err? {
      return Err(WithContext(made, "Failed to create target dependency cache directory").error);
    }
    made := fs.CreateDirAll(t.buildMode.toolchain.output);
    if made.Err? {
      return Err(WithContext(made, "Failed to create target output directory").error);
    }
    return Ok(t);
  }

  predicate IsDirectoryAt(root: Node, p: Path) {
    Lookup(root, p).Some? && IsDirectory(Lookup(root, p).value)
  }

  /** After success all three directories exist. */
  lemma CreateMakesDirectories(root: Node, project: Path, buildMode: string, toolchain: string)
    requires CreateFrom(root, project, buildMode, toolchain).result.Ok?
    ensures var after := CreateFrom(root, project, buildMode, toolchain).root;
      var t := Layout(project, buildMode, toolchain);
      IsDirectoryAt(after, t.ProjectCache()) && IsDirectoryAt(after, t.DependencyCache()) && IsDirectoryAt(after, t.Output())
  {
    var t := Layout(project, buildMode, toolchain);
    LayoutDisjoint(project, buildMode, toolchain);
    var r1 := Edit(root, t.ProjectCache(), MakeDir, true).value;
    var r2 := Edit(r1, t.DependencyCache(), MakeDir, true).value;
    MakeDirMakesDirectory(root, t.ProjectCache(), true);
    MakeDirMakesDirectory(r1, t.DependencyCache(), true);
    MakeDirMakesDirectory(r2, t.Output(), true);
    EditFrame(r1, t.DependencyCache(), MakeDir, true, t.ProjectCache());
    EditFrame(r2, t.Output(), MakeDir, true, t.ProjectCache());
    EditFrame(r2, t.Output(), MakeDir, true, t.DependencyCache());
  }

  /** Creating the layout a second time changes nothing. */
  lemma CreateIdempotent(root: Node, project: Path, buildMode: string, toolchain: string)
    requires CreateFrom(root, project, buildMode, toolchain).result.Ok?
    ensures CreateFrom(CreateFrom(root, project, buildMode, toolchain).root, project, buildMode, toolchain)
            == CreateFrom(root, project, buildMode, toolchain)
  {
    var after := CreateFrom(root, project, buildMode, toolchain).root;
    var t := Layout(project, buildMode, toolchain);
    CreateMakesDirectories(root, project, buildMode, toolchain);
    MakeExistingDir(after, t.ProjectCache(), true);
    MakeExistingDir(after, t.DependencyCache(), true);
    MakeExistingDir(after, t.Output(), true);
  }

  /** Creating the layout changes nothing but its three directories and
      their ancestors. */
  lemma CreateKeepsOthers(root: Node, project: Path, buildMode: string, toolchain: string, q: Path)
    requires var t := Layout(project, buildMode, toolchain);
      !IsPrefix(q, t.ProjectCache()) && !IsPrefix(q, t.DependencyCache()) && !IsPrefix(q, t.Output())
    ensures Lookup(CreateFrom(root, project, buildMode, toolchain).root, q) == Lookup(root, q)
  {
    var t := Layout(project, buildMode, toolchain);
    if Edit(root, t.ProjectCache(), MakeDir, true).Ok? {
      var r1 := Edit(root, t.ProjectCache(), MakeDir, true).value;
      EditOnlyTouches(root, t.ProjectCache(), MakeDir, true, q);
      if Edit(r1, t.DependencyCache(), MakeDir, true).Ok? {
        var r2 := Edit(r1, t.DependencyCache(), MakeDir, true).value;
        EditOnlyTouches(r1, t.DependencyCache(), MakeDir, true, q);
        if Edit(r2, t.Output(), MakeDir, true).Ok? {
          EditOnlyTouches(r2, t.Output(), MakeDir, true, q);
        }
      }
    }
  }
}
