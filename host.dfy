/** What the build tool asks of the world beyond the filesystem: external
    processes and the foreign crates it relies on. Each is a parameter of
    the model, about which the model states nothing. */
module Host {
  import opened Common
  import opened FileTree
  import Config
  import opened Extension
  import opened CommandExt

  newtype Byte = x: int | 0 <= x < 256

  /** A SHA-256 digest: 32 bytes. */
  type Digest = d: seq<Byte> | |d| == 32 witness seq(32, _ => 0 as Byte)

  datatype Host = Host(
    /** What a spawned command does. */
    run: Command -> ProcessOutput,
    /** The target triple the compiler reports for `-dumpmachine`, without
        its trailing newline. */
    dumpMachine: string -> string,
    /** `target_lexicon`'s triple parser: the operating system a triple
        names, or `None` when the triple does not parse. */
    parseTriple: string -> Option<OperatingSystem>,
    /** The SHA-256 digest of a text. */
    sha256: string -> Digest,
    /** `serde_yaml` reading a `build.yaml`. */
    parseConfig: string -> Result<Config.Config>,
    /** A registry transport (a `git clone`, or a recursive copy out of a
        filesystem registry): the tree it materialises for a dependency. */
    transport: (Config.Registry, Config.Dependency) -> Result<Node>)
  {
    /** `Extension::file_name` for the platform the given compiler targets. */
    function ArtifactName(kind: Extension, name: string, compiler: string): string {
      FileName(kind, name, dumpMachine(compiler), parseTriple)
    }
  }
}
