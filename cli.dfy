/** The arguments of the `build` command, as far as the build uses them. */
module Cli {
  import opened Common
  import opened Config

  /** Development or release build; `Development` is the default. */
  datatype BuildModeCli = Development | Release {
    /** `Display`: the mode's directory name under `target/`. */
    function ToString(): (s: string)
      ensures s == "release" <==> Release?
      ensures s == "development" <==> Development?
    {
      match this
      case Release => "release"
      case Development => "development"
    }
  }

  const DefaultBuildMode: BuildModeCli := Development

  /** The two modes are displayed differently, so build outputs of the two
      modes live in different directories. */
  lemma ModeNamesDistinct(a: BuildModeCli, b: BuildModeCli)
    requires a.ToString() == b.ToString()
    ensures a == b
  {
  }

  datatype BuildArgs = BuildArgs(
    path: Path,
    toolchain: Common.Option<BuildToolchain>,
    link: LinkStrategy,
    release: bool,
    dev: bool)
  {
    /** `--release` alone selects a release build; every other combination
        of the two flags, both or neither, builds for development. */
    function BuildMode(): (mode: BuildModeCli)
      ensures mode == Release <==> release && !dev
      ensures mode == Development <==> !release || dev
    {
      match (release, dev)
      case (true, false) => Release
      case (false, true) => Development
      case _ => Development
    }
  }
}
