/** Reading a project's `build.yaml`. */
module ConfigurationParser {
  import opened Common
  import opened FileTree
  import Config

  /** `<project>/build.yaml` */
  function ConfigPath(project: Path): Path {
    project + ["build.yaml"]
  }

  /** `ConfigurationParser::parse`: read the configuration file and parse it
      with `parseConfig`; a file that cannot be read and text that does not
      parse fail with their own context. */
  function Parse(root: Node, project: Path, parseConfig: string -> Result<Config.Config>): (r: Result<Config.Config>)
    ensures ReadFile(root, ConfigPath(project)).Err? ==>
      r == Err(Error(ReadFile(root, ConfigPath(project)).error.cause,
                     ["Failed to read 'build.yaml' file"] + ReadFile(root, ConfigPath(project)).error.context))
    ensures ReadFile(root, ConfigPath(project)).Ok? ==>
      var parsed := parseConfig(ReadFile(root, ConfigPath(project)).value);
      && (r.Ok? <==> parsed.Ok?)
      && (r.Ok? ==> r.value == parsed.value)
      && (r.Err? ==> r.error == Error(parsed.error.cause, ["Failed to parse 'build.yaml' file"] + parsed.error.context))
  {
    var text :- WithContext(ReadFile(root, ConfigPath(project)), "Failed to read 'build.yaml' file");
    WithContext(parseConfig(text), "Failed to parse 'build.yaml' file")
  }

  /** A configuration is found exactly when `build.yaml` is a file of the
      project directory whose text parses. */
  lemma ParsedIffFileParses(root: Node, project: Path, parseConfig: string -> Result<Config.Config>)
    ensures Parse(root, project, parseConfig).Ok?
            <==> (exists text :: Lookup(root, ConfigPath(project)) == Some(File(text)) && parseConfig(text).Ok?)
  {
    if Parse(root, project, parseConfig).Ok? {
      var text := ReadFile(root, ConfigPath(project)).value;
      assert Lookup(root, ConfigPath(project)) == Some(File(text));
    }
  }
}
