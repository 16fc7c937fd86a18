/** The project configuration read from `build.yaml`, and the choice of
    toolchain for one build. */
module Config {
  import opened Common

  /** How the project's objects are linked; `Executable` is the default. */
  datatype LinkStrategy = Executable | StaticLibrary | DynamicLibrary {
    /** The YAML tag serde uses for this variant. */
    function ToYamlTag(): (tag: string)
      ensures |tag| > 1 && tag[0] == '!'
      ensures tag[1..] == VariantName()
    {
      match this
      case Executable => "!Executable"
      case StaticLibrary => "!StaticLibrary"
      case DynamicLibrary => "!DynamicLibrary"
    }

    function VariantName(): string {
      match this
      case Executable => "Executable"
      case StaticLibrary => "StaticLibrary"
      case DynamicLibrary => "DynamicLibrary"
    }
  }

  const DefaultLinkStrategy: LinkStrategy := Executable

  /** The three strategies carry three different tags. */
  lemma YamlTagsDistinct(a: LinkStrategy, b: LinkStrategy)
    requires a != b
    ensures a.ToYamlTag() != b.ToYamlTag()
  {
    assert a.ToYamlTag()[1..] == a.VariantName() && b.ToYamlTag()[1..] == b.VariantName();
    assert a.VariantName()[0] != b.VariantName()[0] || |a.VariantName()| != |b.VariantName()|;
  }

  datatype Project = Project(name: string, version: string, linkStrategy: LinkStrategy)

  /** GCC optimisation levels; `None` asks for no optimisation flag at all. */
  datatype OptimizationLevel = None | O | O1 | O2 | O3 | O0 | Os | Ofast | Og | Oz

  /** The name of a level as written in `build.yaml`. */
  function LevelName(level: OptimizationLevel): string {
    match level
    case None => "None"
    case O => "O"
    case O1 => "O1"
    case O2 => "O2"
    case O3 => "O3"
    case O0 => "O0"
    case Os => "Os"
    case Ofast => "Ofast"
    case Og => "Og"
    case Oz => "Oz"
  }

  /** The GCC flag for a level: nothing for `None`, otherwise a dash followed
      by the level's name. */
  function AsGccFlag(level: OptimizationLevel): (flag: Common.Option<string>)
    ensures flag.None? <==> level == OptimizationLevel.None
    ensures flag.Some? ==> flag.value == "-" + LevelName(level)
  {
    match level
    case None => Common.None
    case O => Some("-O")
    case O1 => Some("-O1")
    case O2 => Some("-O2")
    case O3 => Some("-O3")
    case O0 => Some("-O0")
    case Os => Some("-Os")
    case Ofast => Some("-Ofast")
    case Og => Some("-Og")
    case Oz => Some("-Oz")
  }

  /** Different levels never produce the same flag. */
  lemma GccFlagInjective(a: OptimizationLevel, b: OptimizationLevel)
    requires AsGccFlag(a) == AsGccFlag(b)
    ensures a == b
  {
    if a != OptimizationLevel.None {
      var fa := AsGccFlag(a).value;
      assert fa == "-" + LevelName(b);
      match a
      case O => assert |fa| == 2;
      case O1 => assert |fa| == 3 && fa[2] == '1';
      case O2 => assert |fa| == 3 && fa[2] == '2';
      case O3 => assert |fa| == 3 && fa[2] == '3';
      case O0 => assert |fa| == 3 && fa[2] == '0';
      case Os => assert |fa| == 3 && fa[2] == 's';
      case Og => assert |fa| == 3 && fa[2] == 'g';
      case Oz => assert |fa| == 3 && fa[2] == 'z';
      case Ofast => assert |fa| == 6;
    }
  }

  datatype Profile = Profile(optimizationLevel: OptimizationLevel)

  datatype Profiles = Profiles(release: Common.Option<Profile>, development: Common.Option<Profile>)

  /** Where a dependency's sources come from. */
  datatype Registry =
    | Git(url: string, branch: string)
    | FileSystem(path: string)

  datatype Dependency = Dependency(name: string, registryName: string)

  datatype Toolchain = Toolchain(
    compiler: string,
    archiver: string,
    compilerFlags: seq<string>,
    linkerFlags: seq<string>)

  /** `Toolchain::default`: GCC and `ar`, without extra flags. */
  const DefaultToolchain: Toolchain := Toolchain("gcc", "ar", [], [])

  datatype Config = Config(
    project: Project,
    profiles: Profiles,
    registries: map<string, Registry>,
    dependencies: seq<Dependency>,
    toolchains: map<string, Toolchain>)

  /** The toolchain selector of the `build` command line. Declared by the
      command-line module of the source; it lives here because `toolchain`
      below consumes it and the command-line module already depends on this
      one. */
  datatype BuildToolchain =
    | Default
    | Named(name: string)
    | Custom(compiler: string, archiver: string, compilerFlags: seq<string>, linkerFlags: seq<string>)

  /** `Config::toolchain`: the toolchain's name and definition for a build. */
  function SelectToolchain(config: Config, choice: Common.Option<BuildToolchain>): (r: Result<(string, Toolchain)>)
    ensures (choice.None? || choice == Some(Default)) ==> r == Ok(("default", DefaultToolchain))
    ensures choice.Some? && choice.value.Named? ==>
      var name := choice.value.name;
      && (r.Ok? <==> name in config.toolchains)
      && (r.Ok? ==> r.value == (name, config.toolchains[name]))
      && (r.Err? ==> r.error == Error("Toolchain '" + name + "' not found", []))
    ensures choice.Some? && choice.value.Custom? ==>
      var c := choice.value;
      r == Ok(("custom", Toolchain(c.compiler, c.archiver, c.compilerFlags, c.linkerFlags)))
  {
    match choice
    case None => Ok(("default", DefaultToolchain))
    case Some(Default) => Ok(("default", DefaultToolchain))
    case Some(Named(name)) =>
      if name in config.toolchains then Ok((name, config.toolchains[name]))
      else Fail("Toolchain '" + name + "' not found")
    case Some(Custom(compiler, archiver, compilerFlags, linkerFlags)) =>
      Ok(("custom", Toolchain(compiler, archiver, compilerFlags, linkerFlags)))
  }

  /** Only a named selection consults the configured toolchains. */
  lemma SelectToolchainIgnoresTable(c1: Config, c2: Config, choice: Common.Option<BuildToolchain>)
    requires choice.None? || !choice.value.Named?
    ensures SelectToolchain(c1, choice) == SelectToolchain(c2, choice)
  {
  }
}
