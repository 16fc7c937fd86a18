/** The dependency resolver: flattens the dependency graph, depth first and
    in declaration order, into the list of fetched source trees, fetching
    every dependency that is not already present in the sources directory. */
module DependencySourceFetcher {
  import opened Common
  import opened FileTree
  import Config
  import opened Host

  /** A fetched dependency: where its sources are, and what was declared. */
  datatype Artifact = Artifact(path: Path, dependency: Config.Dependency)

  /** The artifact of `dependency` in `sourcesDir`. */
  function ArtifactOf(sourcesDir: Path, dependency: Config.Dependency): (a: Artifact)
    ensures a.path == Join(sourcesDir, dependency.name) && a.dependency == dependency
  {
    Artifact(sourcesDir + [dependency.name], dependency)
  }

  /** The context `fetch_dependency` gives a failed transport, by registry kind. */
  function FetchContext(registry: Config.Registry, dependency: Config.Dependency): string {
    match registry
    case Git(url, _) => "Failed to fetch dependency '" + dependency.name + "' from 'git' repository " + url
    case FileSystem(path) => "Failed to fetch dependency '" + dependency.name + "' from 'fs' repository " + path
  }

  /** `fetch_dependency`: the registry's transport materialises the tree at
      the artifact path. A failure leaves the filesystem as it was. */
  function FetchDependencyFrom(host: Host, root: Node, registry: Config.Registry, dependency: Config.Dependency, artifactPath: Path): (c: Changed<()>)
    ensures c.result.Ok? <==> host.transport(registry, dependency).Ok?
                              && Edit(root, artifactPath, PutTree(host.transport(registry, dependency).value), true).Ok?
    ensures c.result.Ok? ==> c.root == Edit(root, artifactPath, PutTree(host.transport(registry, dependency).value), true).value
    ensures c.result.Err? ==> c.root == root && |c.result.error.context| > 0 && c.result.error.context[0] == FetchContext(registry, dependency)
  {
    var placed := match host.transport(registry, dependency)
      case Err(e) => Err(e)
      case Ok(tree) => Edit(root, artifactPath, PutTree(tree), true);
    match placed
    case Ok(root') => Changed(root', Ok(()))
    case Err(e) => Changed(root, WithContext(Err(e), FetchContext(registry, dependency)))
  }

  method FetchDependency(fs: FileSystem, host: Host, registry: Config.Registry, dependency: Config.Dependency, artifactPath: Path)
    returns (r: Result<()>)
    requires fs.Valid()
    modifies fs
    ensures fs.Valid()
    ensures Changed(fs.root, r) == FetchDependencyFrom(host, old(fs.root), registry, dependency, artifactPath)
  {
    var tree := host.transport(registry, dependency);
    if tree.Err? {
      return Err(WithContext(tree, FetchContext(registry, dependency)).error);
    }
    var placed := fs.Perform(artifactPath, PutTree(tree.value), true);
    if placed.Err? {
      return Err(WithContext(placed, FetchContext(registry, dependency)).error);
    }
    return Ok(());
  }

  /** The dependency's sources are present afterwards: left alone when they
      were there already, fetched through the registry otherwise. */
  function Obtain(host: Host, root: Node, registry: Config.Registry, dependency: Config.Dependency, artifactPath: Path): (c: Changed<()>)
    ensures Exists(root, artifactPath) ==> c == Changed(root, Ok(()))
    ensures !Exists(root, artifactPath) ==> c == FetchDependencyFrom(host, root, registry, dependency, artifactPath)
  {
    if Exists(root, artifactPath) then Changed(root, Ok(()))
    else FetchDependencyFrom(host, root, registry, dependency, artifactPath)
  }

  /** After a successful `Obtain` the artifact path exists; when it was
      fetched, it holds exactly the tree the transport produced. */
  lemma ObtainMakesArtifact(host: Host, root: Node, registry: Config.Registry, dependency: Config.Dependency, artifactPath: Path)
    requires Obtain(host, root, registry, dependency, artifactPath).result.Ok?
    ensures Exists(Obtain(host, root, registry, dependency, artifactPath).root, artifactPath)
    ensures !Exists(root, artifactPath) ==>
      Lookup(Obtain(host, root, registry, dependency, artifactPath).root, artifactPath) == Some(host.transport(registry, dependency).value)
  {
    if !Exists(root, artifactPath) {
      EditAt(root, artifactPath, PutTree(host.transport(registry, dependency).value), true);
    }
  }

  /** What a fetch of a dependency list did: the filesystem afterwards and
      the artifacts or the error; or, when the dependency graph nests deeper
      than the fuel allows, nothing. */
  datatype Resolution = Resolution(root: Node, result: Result<seq<Artifact>>) | OutOfFuel

  /** The artifacts found so far, ahead of what the rest of the list gives. */
  function AfterFetched(found: seq<Artifact>, rest: Resolution): (r: Resolution)
    ensures rest.OutOfFuel? <==> r.OutOfFuel?
    ensures rest.Resolution? ==> r.root == rest.root && (r.result.Ok? <==> rest.result.Ok?)
    ensures rest.Resolution? && rest.result.Ok? ==> r.result.value == found + rest.result.value
    ensures rest.Resolution? && rest.result.Err? ==> r.result == rest.result
  {
    match rest
    case OutOfFuel => OutOfFuel
    case Resolution(root, Ok(artifacts)) => Resolution(root, Ok(found + artifacts))
    case Resolution(root, Err(e)) => Resolution(root, Err(e))
  }

  lemma AfterFetchedNothing(rest: Resolution)
    ensures AfterFetched([], rest) == rest
  {
    if rest.Resolution? && rest.result.Ok? {
      assert [] + rest.result.value == rest.result.value;
    }
  }

  lemma AfterFetchedTwice(a: seq<Artifact>, b: seq<Artifact>, rest: Resolution)
    ensures AfterFetched(a, AfterFetched(b, rest)) == AfterFetched(a + b, rest)
  {
    if rest.Resolution? && rest.result.Ok? {
      assert a + (b + rest.result.value) == (a + b) + rest.result.value;
    }
  }

  /** `DependencySourceFetcher::fetch` with the given registries and
      dependency list. `fuel` bounds how deeply nested configurations are
      followed. */
  function FetchAll(host: Host, root: Node, registries: map<string, Config.Registry>, dependencies: seq<Config.Dependency>, sourcesDir: Path, fuel: nat): Resolution
    decreases fuel, |dependencies|, 1
  {
    if dependencies == [] then Resolution(root, Ok([]))
    else if fuel == 0 then OutOfFuel
    else
      match FetchOne(host, root, registries, dependencies[0], sourcesDir, fuel)
      case OutOfFuel => OutOfFuel
      case Resolution(root', Err(e)) => Resolution(root', Err(e))
      case Resolution(root', Ok(first)) => AfterFetched(first, FetchAll(host, root', registries, dependencies[1..], sourcesDir, fuel))
  }

  /** The first half of one iteration of `fetch`: look up the registry,
      obtain the sources, then read and parse the dependency's own
      `build.yaml`. A registry that is not declared fails before anything
      is fetched. */
  function Prepare(host: Host, root: Node, registries: map<string, Config.Registry>, dependency: Config.Dependency, sourcesDir: Path): (c: Changed<Config.Config>)
    ensures dependency.registryName !in registries ==>
      c == Changed(root, Fail("Registry '" + dependency.registryName + "' not found"))
  {
    var artifactPath := sourcesDir + [dependency.name];
    if dependency.registryName !in registries then
      Changed(root, Fail("Registry '" + dependency.registryName + "' not found"))
    else
      var obtained := Obtain(host, root, registries[dependency.registryName], dependency, artifactPath);
      if obtained.result.Err? then Changed(obtained.root, Err(obtained.result.error))
      else
        var text := WithContext(ReadFile(obtained.root, artifactPath + ["build.yaml"]), "Failed to read build.yaml for dependency " + dependency.name);
        if text.Err? then Changed(obtained.root, Err(text.error))
        else Changed(obtained.root, WithContext(host.parseConfig(text.value), "Failed to parse build.yaml for dependency " + dependency.name))
  }

  /** One iteration of `fetch`: prepare the dependency, then fetch what its
      configuration declares, with its own registries, into the same sources
      directory. The dependency's artifact precedes those of its own
      dependencies. */
  function FetchOne(host: Host, root: Node, registries: map<string, Config.Registry>, dependency: Config.Dependency, sourcesDir: Path, fuel: nat): (r: Resolution)
    requires fuel > 0
    ensures r.Resolution? && r.result.Ok? ==> |r.result.value| > 0 && r.result.value[0] == ArtifactOf(sourcesDir, dependency)
    decreases fuel, 0, 0
  {
    var prepared := Prepare(host, root, registries, dependency, sourcesDir);
    match prepared.result
    case Err(e) => Resolution(prepared.root, Err(e))
    case Ok(config) => Nested(dependency, sourcesDir, FetchAll(host, prepared.root, config.registries, config.dependencies, sourcesDir, fuel - 1))
  }

  /** A dependency whose own dependencies resolved as `children`: its
      artifact ahead of theirs, or their failure with the dependency named
      in the context. */
  function Nested(dependency: Config.Dependency, sourcesDir: Path, children: Resolution): (r: Resolution)
    ensures r.OutOfFuel? <==> children.OutOfFuel?
    ensures children.Resolution? ==> r.root == children.root && (r.result.Ok? <==> children.result.Ok?)
    ensures children.Resolution? && children.result.Ok? ==>
      |r.result.value| > 0 && r.result.value[0] == ArtifactOf(sourcesDir, dependency) && r.result.value[1..] == children.result.value
    ensures children.Resolution? && children.result.Err? ==>
      r.result.error == Error(children.result.error.cause, ["Failed to fetch dependencies for dependency " + dependency.name] + children.result.error.context)
  {
    match children
    case OutOfFuel => OutOfFuel
    case Resolution(root', Err(e)) =>
      Resolution(root', WithContext(Err(e), "Failed to fetch dependencies for dependency " + dependency.name))
    case Resolution(root', Ok(artifacts)) => Resolution(root', Ok([ArtifactOf(sourcesDir, dependency)] + artifacts))
  }

  /** The outcome of the method, as a `Resolution`. */
  function Resolved(root: Node, r: Option<Result<seq<Artifact>>>): Resolution {
    match r
    case None => OutOfFuel
    case Some(result) => Resolution(root, result)
  }

  /** `DependencySourceFetcher::fetch`: `None` when the nesting is deeper
      than `fuel`. */
  method Fetch(fs: FileSystem, host: Host, registries: map<string, Config.Registry>, dependencies: seq<Config.Dependency>, sourcesDir: Path, fuel: nat)
    returns (r: Option<Result<seq<Artifact>>>)
    requires fs.Valid()
    modifies fs
    ensures fs.Valid()
    ensures Resolved(fs.root, r) == FetchAll(host, old(fs.root), registries, dependencies, sourcesDir, fuel)
    decreases fuel, 1
  {
    if dependencies != [] && fuel == 0 {
      return None;
    }
    var artifacts := [];
    AfterFetchedNothing(FetchAll(host, fs.root, registries, dependencies, sourcesDir, fuel));
    var i := 0;
    while i < |dependencies|
      invariant 0 <= i <= |dependencies|
      invariant fs.Valid()
      invariant FetchAll(host, old(fs.root), registries, dependencies, sourcesDir, fuel)
                == AfterFetched(artifacts, FetchAll(host, fs.root, registries, dependencies[i..], sourcesDir, fuel))
    {
      assert dependencies[i..][0] == dependencies[i] && dependencies[i..][1..] == dependencies[i + 1..];
      var fetched := FetchDependencyTree(fs, host, registries, dependencies[i], sourcesDir, fuel);
      if fetched.None? || fetched.value.Err? {
        return fetched;
      }
      AfterFetchedTwice(artifacts, fetched.value.value,
                        FetchAll(host, fs.root, registries, dependencies[i + 1..], sourcesDir, fuel));
      artifacts := artifacts + fetched.value.value;
      i := i + 1;
    }
    assert dependencies[i..] == [] && artifacts + [] == artifacts;
    return Some(Ok(artifacts));
  }

  /** The first half of one iteration of `fetch`. */
  method PrepareDependency(fs: FileSystem, host: Host, registries: map<string, Config.Registry>, dependency: Config.Dependency, sourcesDir: Path)
    returns (r: Result<Config.Config>)
    requires fs.Valid()
    modifies fs
    ensures fs.Valid()
    ensures Changed(fs.root, r) == Prepare(host, old(fs.root), registries, dependency, sourcesDir)
  {
    var artifactPath := sourcesDir + [dependency.name];
    if dependency.registryName !in registries {
      return Fail("Registry '" + dependency.registryName + "' not found");
    }
    if !Exists(fs.root, artifactPath) {
      var fetched := FetchDependency(fs, host, registries[dependency.registryName], dependency, artifactPath);
      if fetched.Err? {
        return Err(fetched.error);
      }
    }
    var text := ReadFile(fs.root, artifactPath + ["build.yaml"]);
    if text.Err? {
      return Err(WithContext(text, "Failed to read build.yaml for dependency " + dependency.name).error);
    }
    r := WithContext(host.parseConfig(text.value), "Failed to parse build.yaml for dependency " + dependency.name);
  }

  /** One iteration of `fetch`: the artifacts of one declared dependency
      and of everything below it. */
  method FetchDependencyTree(fs: FileSystem, host: Host, registries: map<string, Config.Registry>, dependency: Config.Dependency, sourcesDir: Path, fuel: nat)
    returns (r: Option<Result<seq<Artifact>>>)
    requires fs.Valid()
    requires fuel > 0
    modifies fs
    ensures fs.Valid()
    ensures Resolved(fs.root, r) == FetchOne(host, old(fs.root), registries, dependency, sourcesDir, fuel)
    decreases fuel, 0
  {
    var config := PrepareDependency(fs, host, registries, dependency, sourcesDir);
    if config.Err? {
      return Some(Err(config.error));
    }
    var children := Fetch(fs, host, config.value.registries, config.value.dependencies, sourcesDir, fuel - 1);
    if children.None? {
      return None;
    }
    if children.value.Err? {
      return Some(WithContext(children.value, "Failed to fetch dependencies for dependency " + dependency.name));
    }
    return Some(Ok([ArtifactOf(sourcesDir, dependency)] + children.value.value));
  }

  // Properties of the resolution.

  /** A dependency fetched successfully had its configuration prepared and
      its own dependencies fetched successfully, after it. */
  lemma FetchOneOk(host: Host, root: Node, registries: map<string, Config.Registry>, dependency: Config.Dependency, sourcesDir: Path, fuel: nat, less: nat)
    requires fuel == less + 1
    requires FetchOne(host, root, registries, dependency, sourcesDir, fuel).Resolution?
    requires FetchOne(host, root, registries, dependency, sourcesDir, fuel).result.Ok?
    ensures var prepared := Prepare(host, root, registries, dependency, sourcesDir);
      && prepared.result.Ok?
      && var children := FetchAll(host, prepared.root, prepared.result.value.registries, prepared.result.value.dependencies, sourcesDir, less);
      && children.Resolution? && children.result.Ok?
      && FetchOne(host, root, registries, dependency, sourcesDir, fuel)
         == Resolution(children.root, Ok([ArtifactOf(sourcesDir, dependency)] + children.result.value))
  {
    var prepared := Prepare(host, root, registries, dependency, sourcesDir);
    assert prepared.result.Ok?;
    FetchOneNested(host, root, registries, dependency, sourcesDir, fuel, less);
  }

  /** Where one iteration leaves the filesystem: where preparing the
      dependency left it, or, once prepared, where fetching its own
      dependencies left it. */
  lemma FetchOneRoot(host: Host, root: Node, registries: map<string, Config.Registry>, dependency: Config.Dependency, sourcesDir: Path, fuel: nat, less: nat)
    requires fuel == less + 1
    requires FetchOne(host, root, registries, dependency, sourcesDir, fuel).Resolution?
    ensures var prepared := Prepare(host, root, registries, dependency, sourcesDir);
      var r := FetchOne(host, root, registries, dependency, sourcesDir, fuel);
      && (prepared.result.Err? ==> r.root == prepared.root)
      && (prepared.result.Ok? ==>
            var children := FetchAll(host, prepared.root, prepared.result.value.registries, prepared.result.value.dependencies, sourcesDir, less);
            children.Resolution? && r.root == children.root)
  {
    if Prepare(host, root, registries, dependency, sourcesDir).result.Ok? {
      FetchOneNested(host, root, registries, dependency, sourcesDir, fuel, less);
    }
  }

  /** A dependency prepared successfully has its sources in place. */
  lemma PrepareMakesArtifact(host: Host, root: Node, registries: map<string, Config.Registry>, dependency: Config.Dependency, sourcesDir: Path)
    requires Prepare(host, root, registries, dependency, sourcesDir).result.Ok?
    ensures Exists(Prepare(host, root, registries, dependency, sourcesDir).root, sourcesDir + [dependency.name])
  {
    ObtainMakesArtifact(host, root, registries[dependency.registryName], dependency, sourcesDir + [dependency.name]);
  }

  /** A dependency naming an undeclared registry fails the whole fetch before
      anything is fetched for it. */
  lemma MissingRegistryFails(host: Host, root: Node, registries: map<string, Config.Registry>, dependencies: seq<Config.Dependency>, sourcesDir: Path, fuel: nat)
    requires fuel > 0 && dependencies != []
    requires dependencies[0].registryName !in registries
    ensures FetchAll(host, root, registries, dependencies, sourcesDir, fuel)
            == Resolution(root, Fail("Registry '" + dependencies[0].registryName + "' not found"))
  {
  }

  /** Every artifact is the dependency it carries, at `sourcesDir/<name>`. */
  lemma {:induction false} ArtifactsAtTheirPaths(host: Host, root: Node, registries: map<string, Config.Registry>, dependencies: seq<Config.Dependency>, sourcesDir: Path, fuel: nat)
    requires FetchAll(host, root, registries, dependencies, sourcesDir, fuel).Resolution?
    requires FetchAll(host, root, registries, dependencies, sourcesDir, fuel).result.Ok?
    ensures var artifacts := FetchAll(host, root, registries, dependencies, sourcesDir, fuel).result.value;
      forall k :: 0 <= k < |artifacts| ==> artifacts[k] == ArtifactOf(sourcesDir, artifacts[k].dependency)
    decreases fuel, |dependencies|, 1
  {
    if dependencies != [] {
      var first := FetchOne(host, root, registries, dependencies[0], sourcesDir, fuel);
      ArtifactsAtTheirPathsOne(host, root, registries, dependencies[0], sourcesDir, fuel);
      ArtifactsAtTheirPaths(host, first.root, registries, dependencies[1..], sourcesDir, fuel);
    }
  }

  lemma {:induction false} ArtifactsAtTheirPathsOne(host: Host, root: Node, registries: map<string, Config.Registry>, dependency: Config.Dependency, sourcesDir: Path, fuel: nat)
    requires fuel > 0
    requires FetchOne(host, root, registries, dependency, sourcesDir, fuel).Resolution?
    requires FetchOne(host, root, registries, dependency, sourcesDir, fuel).result.Ok?
    ensures var artifacts := FetchOne(host, root, registries, dependency, sourcesDir, fuel).result.value;
      forall k :: 0 <= k < |artifacts| ==> artifacts[k] == ArtifactOf(sourcesDir, artifacts[k].dependency)
    decreases fuel, 0, 0
  {
    var less: nat := fuel - 1;
    FetchOneOk(host, root, registries, dependency, sourcesDir, fuel, less);
    var prepared := Prepare(host, root, registries, dependency, sourcesDir);
    var config := prepared.result.value;
    ArtifactsAtTheirPaths(host, prepared.root, config.registries, config.dependencies, sourcesDir, less);
  }

  /** The artifacts of a list of dependencies, as declared. */
  function Declared(sourcesDir: Path, dependencies: seq<Config.Dependency>): (artifacts: seq<Artifact>)
    ensures |artifacts| == |dependencies|
    ensures forall k :: 0 <= k < |dependencies| ==> artifacts[k] == ArtifactOf(sourcesDir, dependencies[k])
  {
    if dependencies == [] then [] else [ArtifactOf(sourcesDir, dependencies[0])] + Declared(sourcesDir, dependencies[1..])
  }

  /** `xs` can be obtained from `ys` by deleting elements. */
  predicate IsSubsequence<T(==)>(xs: seq<T>, ys: seq<T>)
    decreases |ys|
  {
    if xs == [] then true
    else if ys == [] then false
    else if xs[0] == ys[0] then IsSubsequence(xs[1..], ys[1..])
    else IsSubsequence(xs, ys[1..])
  }

  /** A subsequence of the tail is a subsequence of the whole. */
  lemma {:induction false} SubsequenceCons<T>(xs: seq<T>, ys: seq<T>)
    requires ys != [] && IsSubsequence(xs, ys[1..])
    ensures IsSubsequence(xs, ys)
    decreases |xs|, |ys|
  {
    if xs != [] && xs[0] == ys[0] {
      SubsequenceDropHead(xs, ys[1..]);
    }
  }

  lemma {:induction false} SubsequenceDropHead<T>(xs: seq<T>, ys: seq<T>)
    requires xs != [] && IsSubsequence(xs, ys)
    ensures IsSubsequence(xs[1..], ys)
    decreases |xs|, |ys|
  {
    if xs[0] == ys[0] {
      SubsequenceCons(xs[1..], ys);
    } else {
      SubsequenceDropHead(xs, ys[1..]);
      SubsequenceCons(xs[1..], ys);
    }
  }

  lemma {:induction false} SubsequenceAfter<T>(xs: seq<T>, ys: seq<T>, zs: seq<T>)
    requires IsSubsequence(xs, zs)
    ensures IsSubsequence(xs, ys + zs)
    decreases |ys|
  {
    if ys != [] {
      SubsequenceAfter(xs, ys[1..], zs);
      assert (ys + zs)[1..] == ys[1..] + zs;
      SubsequenceCons(xs, ys + zs);
    } else {
      assert ys + zs == zs;
    }
  }

  lemma {:induction false} SubsequenceMembers<T>(xs: seq<T>, ys: seq<T>, k: nat)
    requires IsSubsequence(xs, ys) && k < |xs|
    ensures xs[k] in ys
    decreases |ys|
  {
    if xs[0] == ys[0] {
      if k > 0 { SubsequenceMembers(xs[1..], ys[1..], k - 1); }
    } else {
      SubsequenceMembers(xs, ys[1..], k);
    }
  }

  /** The first dependency's artifacts, led by its own, ahead of a list that
      holds the later declared artifacts in order, hold all of them in order. */
  lemma DeclaredAhead(sourcesDir: Path, dependencies: seq<Config.Dependency>, first: seq<Artifact>, rest: seq<Artifact>)
    requires dependencies != []
    requires first != [] && first[0] == ArtifactOf(sourcesDir, dependencies[0])
    requires IsSubsequence(Declared(sourcesDir, dependencies[1..]), rest)
    ensures IsSubsequence(Declared(sourcesDir, dependencies), first + rest)
    ensures (first + rest)[0] == ArtifactOf(sourcesDir, dependencies[0])
  {
    var later := Declared(sourcesDir, dependencies[1..]);
    SubsequenceAhead(first, later, rest);
    assert Declared(sourcesDir, dependencies) == [first[0]] + later;
  }

  /** A subsequence of `rest` stays one, behind the head of `first`, of
      `first + rest`. */
  lemma SubsequenceAhead<T>(first: seq<T>, xs: seq<T>, rest: seq<T>)
    requires first != [] && IsSubsequence(xs, rest)
    ensures IsSubsequence([first[0]] + xs, first + rest)
    ensures (first + rest)[0] == first[0]
  {
    SubsequenceAfter(xs, first[1..], rest);
    assert ([first[0]] + xs)[1..] == xs;
    assert (first + rest)[1..] == first[1..] + rest;
  }

  /** A list holding the declared artifacts in order lists every declared
      dependency. */
  lemma DeclaredListed(sourcesDir: Path, dependencies: seq<Config.Dependency>, artifacts: seq<Artifact>)
    requires IsSubsequence(Declared(sourcesDir, dependencies), artifacts)
    ensures forall d :: d in dependencies ==> ArtifactOf(sourcesDir, d) in artifacts
  {
    forall d | d in dependencies ensures ArtifactOf(sourcesDir, d) in artifacts {
      var k :| 0 <= k < |dependencies| && dependencies[k] == d;
      SubsequenceMembers(Declared(sourcesDir, dependencies), artifacts, k);
    }
  }

  /** Pre-order: a successful fetch lists the first declared dependency,
      then everything its own configuration brings in (fetched with one
      unit of fuel less, on the tree after preparing it), then what the
      remaining declared dependencies yield on the tree after that. */
  lemma PreOrder(host: Host, root: Node, registries: map<string, Config.Registry>, dependencies: seq<Config.Dependency>, sourcesDir: Path, fuel: nat, less: nat)
    requires fuel == less + 1 && dependencies != []
    requires FetchAll(host, root, registries, dependencies, sourcesDir, fuel).Resolution?
    requires FetchAll(host, root, registries, dependencies, sourcesDir, fuel).result.Ok?
    ensures var prepared := Prepare(host, root, registries, dependencies[0], sourcesDir);
      && prepared.result.Ok?
      && var nested := FetchAll(host, prepared.root, prepared.result.value.registries, prepared.result.value.dependencies, sourcesDir, less);
      && nested.Resolution? && nested.result.Ok?
      && var rest := FetchAll(host, nested.root, registries, dependencies[1..], sourcesDir, fuel);
      && rest.Resolution? && rest.result.Ok?
      && FetchAll(host, root, registries, dependencies, sourcesDir, fuel)
         == Resolution(rest.root, Ok([ArtifactOf(sourcesDir, dependencies[0])] + nested.result.value + rest.result.value))
  {
    var first := FetchOne(host, root, registries, dependencies[0], sourcesDir, fuel);
    assert first.Resolution? && first.result.Ok?;
    FetchOneOk(host, root, registries, dependencies[0], sourcesDir, fuel, less);
  }

  /** The artifacts of the declared dependencies appear in the result in
      declaration order; every declared dependency is listed, and the first
      one comes first. */
  lemma {:induction false} DeclaredInOrder(host: Host, root: Node, registries: map<string, Config.Registry>, dependencies: seq<Config.Dependency>, sourcesDir: Path, fuel: nat)
    requires FetchAll(host, root, registries, dependencies, sourcesDir, fuel).Resolution?
    requires FetchAll(host, root, registries, dependencies, sourcesDir, fuel).result.Ok?
    ensures var artifacts := FetchAll(host, root, registries, dependencies, sourcesDir, fuel).result.value;
      && IsSubsequence(Declared(sourcesDir, dependencies), artifacts)
      && (dependencies != [] ==> artifacts[0] == ArtifactOf(sourcesDir, dependencies[0]))
      && forall d :: d in dependencies ==> ArtifactOf(sourcesDir, d) in artifacts
    decreases |dependencies|
  {
    var artifacts := FetchAll(host, root, registries, dependencies, sourcesDir, fuel).result.value;
    if dependencies != [] {
      var first := FetchOne(host, root, registries, dependencies[0], sourcesDir, fuel);
      var rest := FetchAll(host, first.root, registries, dependencies[1..], sourcesDir, fuel);
      DeclaredInOrder(host, first.root, registries, dependencies[1..], sourcesDir, fuel);
      DeclaredAhead(sourcesDir, dependencies, first.result.value, rest.result.value);
    }
    DeclaredListed(sourcesDir, dependencies, artifacts);
  }

  /** A subsequence holds every element at most as often as the whole. */
  lemma {:induction false} SubsequenceMultiset<T>(xs: seq<T>, ys: seq<T>)
    requires IsSubsequence(xs, ys)
    ensures multiset(xs) <= multiset(ys)
    decreases |ys|
  {
    if xs != [] {
      assert ys == [ys[0]] + ys[1..];
      if xs[0] == ys[0] {
        SubsequenceMultiset(xs[1..], ys[1..]);
        assert xs == [xs[0]] + xs[1..];
      } else {
        SubsequenceMultiset(xs, ys[1..]);
      }
    }
  }

  /** There is no deduplication: a dependency declared twice is listed at
      least twice, once for every declaration. */
  lemma DeclaredTwiceListedTwice(host: Host, root: Node, registries: map<string, Config.Registry>, d: Config.Dependency, sourcesDir: Path, fuel: nat)
    requires FetchAll(host, root, registries, [d, d], sourcesDir, fuel).Resolution?
    requires FetchAll(host, root, registries, [d, d], sourcesDir, fuel).result.Ok?
    ensures multiset(FetchAll(host, root, registries, [d, d], sourcesDir, fuel).result.value)[ArtifactOf(sourcesDir, d)] >= 2
  {
    DeclaredInOrder(host, root, registries, [d, d], sourcesDir, fuel);
    var declared := Declared(sourcesDir, [d, d]);
    SubsequenceMultiset(declared, FetchAll(host, root, registries, [d, d], sourcesDir, fuel).result.value);
    assert declared == [ArtifactOf(sourcesDir, d), ArtifactOf(sourcesDir, d)];
  }

  /** A dependency whose sources are already present is not fetched again,
      yet its `build.yaml` is still read and parsed, so its own dependencies
      are still resolved. */
  lemma PresentDependencyStillRead(host: Host, root: Node, registries: map<string, Config.Registry>, dependency: Config.Dependency, sourcesDir: Path)
    requires dependency.registryName in registries
    requires Exists(root, sourcesDir + [dependency.name])
    ensures var prepared := Prepare(host, root, registries, dependency, sourcesDir);
      var text := ReadFile(root, sourcesDir + [dependency.name] + ["build.yaml"]);
      && prepared.root == root
      && (prepared.result.Ok? <==> text.Ok? && host.parseConfig(text.value).Ok?)
      && (prepared.result.Ok? ==> prepared.result.value == host.parseConfig(text.value).value)
  {
  }

  /** Once the fuel suffices, more fuel changes nothing: the bound is not
      part of the outcome. */
  lemma {:induction false} FuelSuffices(host: Host, root: Node, registries: map<string, Config.Registry>, dependencies: seq<Config.Dependency>, sourcesDir: Path, fuel: nat, more: nat)
    requires fuel <= more
    requires FetchAll(host, root, registries, dependencies, sourcesDir, fuel).Resolution?
    ensures FetchAll(host, root, registries, dependencies, sourcesDir, more) == FetchAll(host, root, registries, dependencies, sourcesDir, fuel)
    decreases fuel, |dependencies|, 1
  {
    if dependencies != [] {
      var first := FetchOne(host, root, registries, dependencies[0], sourcesDir, fuel);
      FuelSufficesOne(host, root, registries, dependencies[0], sourcesDir, fuel, more);
      if first.result.Ok? {
        FuelSuffices(host, first.root, registries, dependencies[1..], sourcesDir, fuel, more);
      }
    }
  }

  lemma {:induction false} FuelSufficesOne(host: Host, root: Node, registries: map<string, Config.Registry>, dependency: Config.Dependency, sourcesDir: Path, fuel: nat, more: nat)
    requires 0 < fuel <= more
    requires FetchOne(host, root, registries, dependency, sourcesDir, fuel).Resolution?
    ensures FetchOne(host, root, registries, dependency, sourcesDir, more) == FetchOne(host, root, registries, dependency, sourcesDir, fuel)
    decreases fuel, 0, 0
  {
    var prepared := Prepare(host, root, registries, dependency, sourcesDir);
    if prepared.result.Ok? {
      var config := prepared.result.value;
      var fewer: nat, less: nat := fuel - 1, more - 1;
      FetchOneNested(host, root, registries, dependency, sourcesDir, fuel, fewer);
      FetchOneNested(host, root, registries, dependency, sourcesDir, more, less);
      FuelSuffices(host, prepared.root, config.registries, config.dependencies, sourcesDir, fewer, less);
    }
  }

  /** Once the dependency is prepared, one iteration is what its own
      dependencies resolve to, with one level of nesting less. */
  lemma FetchOneNested(host: Host, root: Node, registries: map<string, Config.Registry>, dependency: Config.Dependency, sourcesDir: Path, fuel: nat, less: nat)
    requires fuel == less + 1
    requires Prepare(host, root, registries, dependency, sourcesDir).result.Ok?
    ensures var prepared := Prepare(host, root, registries, dependency, sourcesDir);
      FetchOne(host, root, registries, dependency, sourcesDir, fuel)
      == Nested(dependency, sourcesDir, FetchAll(host, prepared.root, prepared.result.value.registries, prepared.result.value.dependencies, sourcesDir, less))
  {
  }

  /** Fetching writes only inside the sources directory. */
  lemma {:induction false} WritesOnlySources(host: Host, root: Node, registries: map<string, Config.Registry>, dependencies: seq<Config.Dependency>, sourcesDir: Path, fuel: nat, q: Path)
    requires Diverge(sourcesDir, q)
    requires FetchAll(host, root, registries, dependencies, sourcesDir, fuel).Resolution?
    ensures Lookup(FetchAll(host, root, registries, dependencies, sourcesDir, fuel).root, q) == Lookup(root, q)
    decreases fuel, |dependencies|, 1
  {
    if dependencies != [] {
      var first := FetchOne(host, root, registries, dependencies[0], sourcesDir, fuel);
      WritesOnlySourcesOne(host, root, registries, dependencies[0], sourcesDir, fuel, q);
      if first.result.Ok? {
        WritesOnlySources(host, first.root, registries, dependencies[1..], sourcesDir, fuel, q);
      }
    }
  }

  lemma {:induction false} WritesOnlySourcesOne(host: Host, root: Node, registries: map<string, Config.Registry>, dependency: Config.Dependency, sourcesDir: Path, fuel: nat, q: Path)
    requires fuel > 0
    requires Diverge(sourcesDir, q)
    requires FetchOne(host, root, registries, dependency, sourcesDir, fuel).Resolution?
    ensures Lookup(FetchOne(host, root, registries, dependency, sourcesDir, fuel).root, q) == Lookup(root, q)
    decreases fuel, 0, 0
  {
    var less: nat := fuel - 1;
    FetchOneRoot(host, root, registries, dependency, sourcesDir, fuel, less);
    var prepared := Prepare(host, root, registries, dependency, sourcesDir);
    PrepareWritesOnlySources(host, root, registries, dependency, sourcesDir, q);
    if prepared.result.Ok? {
      var config := prepared.result.value;
      WritesOnlySources(host, prepared.root, config.registries, config.dependencies, sourcesDir, less, q);
    }
  }

  lemma PrepareWritesOnlySources(host: Host, root: Node, registries: map<string, Config.Registry>, dependency: Config.Dependency, sourcesDir: Path, q: Path)
    requires Diverge(sourcesDir, q)
    ensures Lookup(Prepare(host, root, registries, dependency, sourcesDir).root, q) == Lookup(root, q)
  {
    var artifactPath := sourcesDir + [dependency.name];
    if dependency.registryName in registries && !Exists(root, artifactPath) {
      var registry := registries[dependency.registryName];
      var tree := host.transport(registry, dependency);
      if tree.Ok? && Edit(root, artifactPath, PutTree(tree.value), true).Ok? {
        var k :| 0 <= k < |sourcesDir| && k < |q| && sourcesDir[k] != q[k];
        assert artifactPath[k] != q[k];
        EditFrame(root, artifactPath, PutTree(tree.value), true, q);
      }
    }
  }

  /** Fetching removes nothing: what existed before still exists. */
  lemma {:induction false} KeepsExisting(host: Host, root: Node, registries: map<string, Config.Registry>, dependencies: seq<Config.Dependency>, sourcesDir: Path, fuel: nat, q: Path)
    requires Exists(root, q)
    requires FetchAll(host, root, registries, dependencies, sourcesDir, fuel).Resolution?
    ensures Exists(FetchAll(host, root, registries, dependencies, sourcesDir, fuel).root, q)
    decreases fuel, |dependencies|, 1
  {
    if dependencies != [] {
      var first := FetchOne(host, root, registries, dependencies[0], sourcesDir, fuel);
      KeepsExistingOne(host, root, registries, dependencies[0], sourcesDir, fuel, q);
      if first.result.Ok? {
        KeepsExisting(host, first.root, registries, dependencies[1..], sourcesDir, fuel, q);
      }
    }
  }

  lemma {:induction false} KeepsExistingOne(host: Host, root: Node, registries: map<string, Config.Registry>, dependency: Config.Dependency, sourcesDir: Path, fuel: nat, q: Path)
    requires fuel > 0
    requires Exists(root, q)
    requires FetchOne(host, root, registries, dependency, sourcesDir, fuel).Resolution?
    ensures Exists(FetchOne(host, root, registries, dependency, sourcesDir, fuel).root, q)
    decreases fuel, 0, 0
  {
    var less: nat := fuel - 1;
    FetchOneRoot(host, root, registries, dependency, sourcesDir, fuel, less);
    var prepared := Prepare(host, root, registries, dependency, sourcesDir);
    PrepareKeepsExisting(host, root, registries, dependency, sourcesDir, q);
    if prepared.result.Ok? {
      var config := prepared.result.value;
      KeepsExisting(host, prepared.root, config.registries, config.dependencies, sourcesDir, less, q);
    }
  }

  lemma PrepareKeepsExisting(host: Host, root: Node, registries: map<string, Config.Registry>, dependency: Config.Dependency, sourcesDir: Path, q: Path)
    requires Exists(root, q)
    ensures Exists(Prepare(host, root, registries, dependency, sourcesDir).root, q)
  {
    var artifactPath := sourcesDir + [dependency.name];
    if dependency.registryName in registries && !Exists(root, artifactPath) {
      var tree := host.transport(registries[dependency.registryName], dependency);
      if tree.Ok? && Edit(root, artifactPath, PutTree(tree.value), true).Ok? {
        EditKeepsExisting(root, artifactPath, PutTree(tree.value), true, q);
      }
    }
  }

  /** After a successful fetch the sources of every listed artifact are
      present. */
  lemma {:induction false} ArtifactsPresent(host: Host, root: Node, registries: map<string, Config.Registry>, dependencies: seq<Config.Dependency>, sourcesDir: Path, fuel: nat)
    requires FetchAll(host, root, registries, dependencies, sourcesDir, fuel).Resolution?
    requires FetchAll(host, root, registries, dependencies, sourcesDir, fuel).result.Ok?
    ensures var r := FetchAll(host, root, registries, dependencies, sourcesDir, fuel);
      forall a :: a in r.result.value ==> Exists(r.root, a.path)
    decreases fuel, |dependencies|, 1
  {
    if dependencies != [] {
      var r := FetchAll(host, root, registries, dependencies, sourcesDir, fuel);
      var first := FetchOne(host, root, registries, dependencies[0], sourcesDir, fuel);
      var rest := FetchAll(host, first.root, registries, dependencies[1..], sourcesDir, fuel);
      ArtifactsPresentOne(host, root, registries, dependencies[0], sourcesDir, fuel);
      ArtifactsPresent(host, first.root, registries, dependencies[1..], sourcesDir, fuel);
      forall a | a in first.result.value ensures Exists(r.root, a.path) {
        KeepsExisting(host, first.root, registries, dependencies[1..], sourcesDir, fuel, a.path);
      }
    }
  }

  lemma {:induction false} ArtifactsPresentOne(host: Host, root: Node, registries: map<string, Config.Registry>, dependency: Config.Dependency, sourcesDir: Path, fuel: nat)
    requires fuel > 0
    requires FetchOne(host, root, registries, dependency, sourcesDir, fuel).Resolution?
    requires FetchOne(host, root, registries, dependency, sourcesDir, fuel).result.Ok?
    ensures var r := FetchOne(host, root, registries, dependency, sourcesDir, fuel);
      forall a :: a in r.result.value ==> Exists(r.root, a.path)
    decreases fuel, 0, 0
  {
    var less: nat := fuel - 1;
    FetchOneOk(host, root, registries, dependency, sourcesDir, fuel, less);
    var prepared := Prepare(host, root, registries, dependency, sourcesDir);
    var config := prepared.result.value;
    PrepareMakesArtifact(host, root, registries, dependency, sourcesDir);
    ArtifactsPresent(host, prepared.root, config.registries, config.dependencies, sourcesDir, less);
    KeepsExisting(host, prepared.root, config.registries, config.dependencies, sourcesDir, less, sourcesDir + [dependency.name]);
  }
}
