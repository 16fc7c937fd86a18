# corge build pipeline, modelled in Dafny

corge is a build tool for C projects. A project directory holds a `build.yaml`
configuration and its C sources below `src/`. The `build` command does six things in order:
1. reads the configuration and chooses a toolchain and a profile for the build mode;
2. lays out `dependency/{source,include}` and `target/<mode>/<toolchain>/{cache/project,cache/dependency,output}`;
3. fetches every dependency, recursively, into `dependency/source`;
4. copies each dependency's headers into `dependency/include/<name>`;
5. compiles each dependency's sources, and then the project's, into content-addressed object files, skipping objects that already exist;
6. links everything with one compiler or archiver command.

The `compdb` command writes a `compile_commands.json` with one record per project source.

This project models that pipeline and proves properties of it.

The filesystem is a tree value, `FileTree.Node`. The mutable `FileTree.FileSystem` class holds it, and its methods (`CreateDirAll`, `Write`, `Copy`, `Perform`) are the `std::fs` calls the tool makes. Every write goes through one specification function, `FileTree.Edit`, and its frame lemmas are proved once.

Each operation that changes the filesystem or builds a vector in a loop is an imperative `method`. Its postcondition ties the new state to a specification function of the old state: `Changed(fs.root, r) == CreateFrom(old(fs.root), ...)`, or `Resolved(...) == FetchAll(...)`. The properties are then proved as lemmas about those functions.

The outside world is modelled as a `Host.Host` value whose fields are uninterpreted functions: the process runner, `-dumpmachine`, the target-triple parser, SHA-256, the YAML parser and the registry transports.

Each module models one source file, or a layout the source spells out in one place. Three modules stand for what those files share:
- `Common` holds the error values and paths;
- `FileTree` is the filesystem, reached through `std::fs`;
- `Host` is everything outside the filesystem: processes and foreign crates.


| module | models |
|---|---|
| `Common` | errors with an anyhow-style context chain, paths, `Path::display`/`{:?}`/`file_name`/`extension` |
| `FileTree` | the filesystem as seen through `std::fs` |
| `Config`, `Cli` | `src/lib/config.rs`, `src/lib/cli.rs` |
| `Extension` | `src/extension.rs` |
| `Host` | processes, `-dumpmachine`, SHA-256, the YAML parser and the registry transports |
| `CommandExt` | `src/std_command_ext.rs` |
| `FilesFetcher` | `src/lib/tool/files_fetcher.rs` |
| `Compiler` | `src/lib/tool/compiler.rs` |
| `Linker` | `src/lib/tool/linker.rs` |
| `DependencySourceFetcher` | `src/tool/dependency_source_fetcher.rs` |
| `DependencyIncludeFetcher` | `src/tool/dependency_include_fetcher.rs` |
| `DependencyPath`, `TargetPath`, `CompilationDatabasePath` | the three path layouts |
| `ConfigurationParser` | `src/tool/configuration_parser.rs`, which reads `build.yaml` for the build |
| `CompilationDatabase` | `src/lib/command/compilation_database.rs` |
| `Build` | `src/lib/command/build.rs` |

In these places the model follows what the code does, which a reader might not expect:
- A dependency without a readable `build.yaml` fails the whole fetch (`src/tool/dependency_source_fetcher.rs:58-63`).
- The header copy creates the destination directory as soon as a source directory holds any non-directory entry, header or not (`src/tool/dependency_include_fetcher.rs:42-45`).
- The compile cache key hashes the path's `{:?}` form, a dash and the content, not the file name and the content (`src/lib/tool/compiler.rs:18-19`).
- A dependency already present in the sources directory is not fetched again, but it is still read and recursed into. A dependency reached twice is therefore listed twice (`src/tool/dependency_source_fetcher.rs:42-69`).

The source of `build` reads the toolchain selector from a field called `subcommand`, which `BuildArgs` does not have. The model reads it from the `toolchain` field that `BuildArgs` declares.

## Model

| member | source | states |
|---|---|---|
| Config.LinkStrategy.ToYamlTag | src/lib/config.rs:16-22 | the tag is `!` followed by the variant's name |
| Config.YamlTagsDistinct | src/lib/config.rs:16-22 | the three strategies have three different tags |
| Config.AsGccFlag | src/lib/config.rs:47-60 | no flag exactly for `None`; otherwise `-` followed by the level's name |
| Config.GccFlagInjective | src/lib/config.rs:50-58 | different levels never give the same flag |
| Config.SelectToolchain | src/lib/config.rs:124-154 | no selection or `Default` gives `("default", gcc/ar with no flags)`; `Named` succeeds iff the name is configured and then returns that entry, otherwise fails with "Toolchain '<name>' not found"; `Custom` gives `"custom"` with exactly the four given fields |
| Config.SelectToolchainIgnoresTable | src/lib/config.rs:127-133 | only a `Named` selection depends on the configured toolchains |
| Cli.BuildModeCli.ToString | src/lib/cli.rs:12-19 | `release` exactly for `Release`, `development` exactly for `Development` |
| Cli.ModeNamesDistinct | src/lib/cli.rs:14-17 | the two modes display differently |
| Cli.BuildArgs.BuildMode | src/lib/cli.rs:114-120 | `Release` iff `--release` without `--dev`; `Development` otherwise, including when both or neither are set |
| Extension.ForTriple | src/extension.rs:38-51 | macOS uses the macOS table and Windows the Windows table; every other system, and a triple that does not parse, uses the Linux table |
| Extension.MacosDiffersOnlyForDynamic | src/extension.rs:13-28 | the macOS and Linux tables agree on every kind except dynamic libraries |
| Extension.WindowsAlwaysSuffixed | src/extension.rs:29-36 | every kind has a Windows suffix, and the four suffixes are distinct |
| Extension.Prefix | src/extension.rs:68-73 | `lib` exactly for the two library kinds, on every platform; nothing for objects and executables |
| Extension.Dotted | src/extension.rs:63-66 | a dot and the suffix when there is one, nothing otherwise |
| Extension.FileName | src/extension.rs:62-74 | `file_name`: the prefix, the logical name and the dotted suffix for the compiler's target; `FileNameParts`, `FileNameRoundTrip` and `FileNameInjective` state its meaning |
| Extension.FileNameParts | src/extension.rs:62-74 | the name splits into the prefix, then the logical name, then the dotted suffix |
| Extension.FileNameRoundTrip | src/extension.rs:62-74 | the logical name can be read back from the file name |
| Extension.FileNameInjective | src/extension.rs:62-74 | two logical names never share a file name |
| CommandExt.CliStr | src/std_command_ext.rs:36-48 | without arguments the rendering is the program's text |
| CommandExt.CliStrIsProgramThenSpacedArguments | src/std_command_ext.rs:36-48 | the rendering is the program's text followed, for each argument in order, by one space and the argument's text, with non-UTF-8 text replaced by the fixed markers |
| CommandExt.CliStrRecoversArguments | src/std_command_ext.rs:36-48 | when no text holds a space, splitting the rendering at spaces gives back the program and every argument in order |
| CommandExt.SplitJoinSpaced | src/std_command_ext.rs:47 | splitting a space-joined list at spaces gives the list back when no part holds a space |
| CommandExt.Execute | src/std_command_ext.rs:9-28 | Ok with the standard output exactly on a successful exit; a failed exit fails with its standard error as cause; a failed launch fails with its reason |
| FileTree.CreateDirAllWithContext | src/command/build/dependency_path.rs:18-21 | `create_dir_all(..).context(m)`: on success the tree after the edit; on failure the tree is unchanged and the error gains `m` as its outer context |
| FileTree.MakeDirIdempotent | src/command/build/dependency_path.rs:18-21 | a second `create_dir_all` of the same path changes nothing |
| FileTree.EditFrame | src/lib/command/build/target_path.rs:40-45 | a write leaves every path that diverges from its target unchanged |
| FileTree.EditOnlyTouches | src/lib/command/build/target_path.rs:40-45 | creating a directory or writing a file changes only the target and its ancestors |
| FileTree.EditKeepsExisting | src/lib/command/build/target_path.rs:40-45 | no write removes an existing path |
| FileTree.Edit | src/command/build/dependency_path.rs:18-21 | a successful write to a directory tree leaves a directory tree |
| FileTree.EditAt | src/command/build/dependency_path.rs:18-21 | after a successful write the target holds what the change makes of the node that was there |
| FileTree.MakeDirMakesDirectory | src/command/build/dependency_path.rs:18-21 | after a successful `create_dir_all` the path is a directory |
| FileTree.EditChangesOnlyTarget | src/lib/command/build/target_path.rs:40-45 | after creating a directory or writing a file, every path is unchanged, is the target, or is a directory |
| FileTree.ListDir | src/lib/tool/files_fetcher.rs:7-8 | a node can be listed exactly when it is a readable directory, and the listing is its entries |
| FileTree.FileSystem.Perform | src/tool/dependency_source_fetcher.rs:76-96 | the new tree is the edit of the old one; on failure nothing changes and the edit's error is returned |
| FileTree.ReadDir | src/lib/tool/files_fetcher.rs:7-8 | `read_dir` succeeds exactly on a readable directory and returns its entries; a missing path fails with "No such file or directory" |
| FileTree.ReadFile | src/tool/configuration_parser.rs:22-23 | `read_to_string` succeeds exactly on a file and returns its content |
| FileTree.Canonicalize | src/lib/command/compilation_database.rs:30-31 | succeeds exactly for an existing path, which it returns unchanged |
| FileTree.FileSystem.CreateDirAll | src/command/build/dependency_path.rs:18-21 | the new tree is the edit of the old one; on failure nothing changes |
| FileTree.FileSystem.Write | src/lib/command/compilation_database.rs:48 | writes the file when its parent exists; on failure nothing changes |
| FileTree.FileSystem.Copy | src/tool/dependency_include_fetcher.rs:52-55 | reads the source file and writes its text to the destination; on failure nothing changes |
| FilesFetcher.FilesIn | src/lib/tool/files_fetcher.rs:4-27 | the depth-first walk of one node; `FilesInSound`, `FilesInComplete`, `FilesInOnce` and `FilesInFailsIffUnreadable` state its meaning |
| FilesFetcher.FilesAt | src/lib/tool/files_fetcher.rs:4-27 | the walk from a path, failing when the path does not exist |
| FilesFetcher.FetchFilesByExtension | src/lib/tool/files_fetcher.rs:4-27 | the loop returns exactly the depth-first walk `FilesAt`, with each subdirectory's results spliced in at its position in the listing |
| FilesFetcher.FetchFiles | src/lib/tool/files_fetcher.rs:29-33 | the walk starts at `<path>/src` |
| FilesFetcher.FilesInSound | src/lib/tool/files_fetcher.rs:14-22 | every path found lies below the start, names a file (never a directory), and its file name has exactly the requested extension |
| FilesFetcher.FilesInComplete | src/lib/tool/files_fetcher.rs:7-24 | every file below the start whose name has the extension is found |
| FilesFetcher.FilesInOnce | src/lib/tool/files_fetcher.rs:7-24 | in a tree with distinct sibling names no path is found twice |
| FilesFetcher.FilesInFailsIffUnreadable | src/lib/tool/files_fetcher.rs:7-11 | the walk fails, returning no partial list, exactly when some directory below is unreadable |
| Common.ExtensionOf | src/lib/tool/files_fetcher.rs:14-18 | a name has an extension iff it has a dot after a non-empty stem and is not `..`; the extension is the dot-free text after the last dot |
| Common.ExtensionOfSuffixed | src/lib/tool/files_fetcher.rs:14-18 | `stem.ext` has extension `ext` for a non-empty stem other than `.` |
| Common.Join | src/command/build/dependency_path.rs:11-16 | `join` adds one component at the end and keeps the rest |
| Common.Display | src/lib/tool/compiler.rs:76-98 | an absolute path shows as text starting with a slash |
| Common.PathExtension | src/lib/tool/files_fetcher.rs:14-18 | a path's extension is the extension of its last component |
| Common.FinalComponent | src/lib/tool/compiler.rs:13-16 | `file_name` is the last component, unless the path is empty or ends in `..` |
| Common.WithContext | src/lib/command/build.rs:24-26 | `.context(m)` passes a success through and gives a failure `m` as its outermost context |
| Common.Message | src/lib/command/compilation_database.rs:50 | an error displays as its outermost context, or as its cause when it has none |
| Common.PrefixOrDiverge | src/lib/command/build/target_path.rs:31-35 | two paths are nested one in the other or part ways |
| Compiler.Hex | src/lib/tool/compiler.rs:26-29 | two characters per byte |
| Compiler.HexDigits | src/lib/tool/compiler.rs:26-29 | every character of the text is a hexadecimal digit |
| Compiler.HexRoundTrip | src/lib/tool/compiler.rs:26-29 | the hexadecimal text decodes back to the bytes |
| Compiler.HexOfDigest | src/lib/tool/compiler.rs:26-29 | a 32-byte digest prints as 64 characters, and different digests print differently |
| Compiler.Hash | src/lib/tool/compiler.rs:12-32 | succeeds iff the path has a file name and the file can be read; a path without a file name fails with "Failed to get file name from <path>" |
| Compiler.HashRoundTrip | src/lib/tool/compiler.rs:12-32 | the stem splits back into the source's file name and the digest of its `{:?}` path, a dash and its content |
| Compiler.HashDependsOnPathAndContent | src/lib/tool/compiler.rs:18-19 | the stem depends only on the path and the file's content |
| Compiler.CompileArgs | src/lib/tool/compiler.rs:78-98 | the compiler's argument list for one source; `CompileArgsOrder` states its order |
| Compiler.ObjectPath | src/lib/tool/compiler.rs:63-65 | the object file of a stem, named by `Extension.FileName`; `ObjectsInOutDir` states that it lies directly in the output directory |
| Compiler.CompileSource | src/lib/tool/compiler.rs:59-101 | one iteration of `compile`; `CompileSourceOutcome` states its outcome |
| Compiler.CompileFrom | src/lib/tool/compiler.rs:56-105 | the whole loop as a function; `OneObjectPerSource`, `CompileRunsExactlyMissing` and `CompileStopsAtFirstFailure` state its meaning |
| Compiler.CompileCommand | src/lib/tool/compiler.rs:76-98 | the command, built one argument group at a time, is the compiler with `CompileArgs` |
| Compiler.CompileArgsOrder | src/lib/tool/compiler.rs:78-98 | the arguments are, in order: the optimisation flag if any; `-I` and the header directory; the toolchain flags; `-fPIC` exactly when pic; `-c` with the source and `-o` with the object as the last four |
| Compiler.CompileSourceOutcome | src/lib/tool/compiler.rs:59-101 | a source's object is `<out>/<Object file name of its stem>`; the compiler runs at most once, and exactly when that object is missing, with the compile command; a failed run fails the source; a hash failure fails without running anything |
| Compiler.CompileFromCases | src/lib/tool/compiler.rs:59-67 | a failing first source ends the compilation with its at most one run; a compiled one puts its object and run in front of the rest's |
| Compiler.Compile | src/lib/tool/compiler.rs:56-105 | the loop returns exactly the objects and runs of `CompileFrom` |
| Compiler.CompileFromUnfolds | src/lib/tool/compiler.rs:59-67 | a successful compilation lists the first source's object first |
| Compiler.OneObjectPerSource | src/lib/tool/compiler.rs:59-67 | on success there is one object per source, in input order, named after its stem, skipped sources included |
| Compiler.CompileRunsExactlyMissing | src/lib/tool/compiler.rs:69-73 | the compiler runs for exactly the sources whose object is missing, once each, in order |
| Compiler.CompileStopsAtFirstFailure | src/lib/tool/compiler.rs:100-101 | every run before the last succeeded, and on success all did |
| Compiler.EarlierRunsSucceeded | src/lib/tool/compiler.rs:100-101 | only the last run of a compilation can have failed |
| Compiler.RunsSucceededOnSuccess | src/lib/tool/compiler.rs:100-101 | a successful compilation made only successful runs |
| Compiler.MissingRunsOfCompiled | src/lib/tool/compiler.rs:69-73 | the expected runs of a list are the first compiled source's run, if any, followed by the rest's |
| Compiler.ObjectsInOutDir | src/lib/tool/compiler.rs:65 | every object lies directly in the output directory |
| Compiler.SourceRunsOf | src/lib/tool/compiler.rs:76-98 | a run made for a source uses the compiler's own settings and the given pic choice |
| Compiler.CompileRunsOf | src/lib/tool/compiler.rs:56-105 | every run of a compilation, failed or not, uses the same settings and pic choice |
| Linker.OutputKind | src/lib/tool/linker.rs:20-58 | a link never produces an object file |
| Linker.LinkProgram | src/lib/tool/linker.rs:22 | the archiver for a static library, the compiler otherwise |
| Linker.OutputFile | src/lib/tool/linker.rs:24-25 | the output file lies directly in the output directory |
| Linker.StrategyArgs | src/lib/tool/linker.rs:20-58 | the strategy's arguments end with the output path, and hold `-o` exactly when the strategy is not a static library |
| Linker.LinkCommand | src/lib/tool/linker.rs:20-64 | the whole link command; `LinkCommandShape` states its shape |
| Linker.LinkCommandShape | src/lib/tool/linker.rs:27-64 | the arguments start with `-o out`, `rcs out` (no `-o`) or `-shared -o out`; then the toolchain's linker flags for all three strategies; then every object once, in order, last |
| Linker.Link | src/lib/tool/linker.rs:19-69 | the command built argument by argument is `LinkCommand` for the strategy's output file; Ok with that output path exactly when the run succeeds; otherwise the run's error and no path |
| DependencySourceFetcher.ArtifactOf | src/tool/dependency_source_fetcher.rs:51-56 | an artifact is at `sources_dir/<name>` and carries its dependency |
| DependencySourceFetcher.FetchDependencyFrom | src/tool/dependency_source_fetcher.rs:76-96 | the registry's transport puts its tree at the artifact path; a failure leaves the filesystem as it was and carries the registry-specific context |
| DependencySourceFetcher.FetchDependency | src/tool/dependency_source_fetcher.rs:76-96 | the method's new state and result are `FetchDependencyFrom` |
| DependencySourceFetcher.Obtain | src/tool/dependency_source_fetcher.rs:42-49 | an existing artifact path is left alone; a missing one is fetched |
| DependencySourceFetcher.ObtainMakesArtifact | src/tool/dependency_source_fetcher.rs:42-49 | afterwards the artifact path exists; when it was fetched it holds exactly the transported tree |
| DependencySourceFetcher.AfterFetched | src/tool/dependency_source_fetcher.rs:69 | artifacts found so far come in front of what the rest yields; errors and lack of fuel pass through |
| DependencySourceFetcher.FetchAll | src/tool/dependency_source_fetcher.rs:33-73 | `fetch` as a function with a fuel bound; `PreOrder`, `DeclaredInOrder`, `WritesOnlySources`, `KeepsExisting`, `ArtifactsPresent` and `FuelSuffices` state its meaning |
| DependencySourceFetcher.Prepare | src/tool/dependency_source_fetcher.rs:39-40 | an undeclared registry fails with "Registry '<name>' not found" and changes nothing |
| DependencySourceFetcher.PrepareMakesArtifact | src/tool/dependency_source_fetcher.rs:42-49 | after a dependency is prepared its artifact path exists |
| DependencySourceFetcher.FetchOne | src/tool/dependency_source_fetcher.rs:51-69 | on success the dependency's own artifact comes first |
| DependencySourceFetcher.Nested | src/tool/dependency_source_fetcher.rs:65-69 | the dependency's artifact first, then all of its children's; a failure of the children gains "Failed to fetch dependencies for dependency <name>" as its outer context; lack of fuel passes through |
| DependencySourceFetcher.FetchOneOk | src/tool/dependency_source_fetcher.rs:51-69 | a dependency whose `build.yaml` parsed resolves as its own artifact followed by the resolution of its own dependencies with one unit of fuel less; their failure gains the dependency's context |
| DependencySourceFetcher.FetchOneRoot | src/tool/dependency_source_fetcher.rs:51-69 | the tree after one dependency is the tree after preparing it, or after fetching its nested dependencies |
| DependencySourceFetcher.Fetch | src/tool/dependency_source_fetcher.rs:33-73 | the loop's new state and result are `FetchAll` |
| DependencySourceFetcher.PrepareDependency | src/tool/dependency_source_fetcher.rs:37-63 | the method's new state and result are `Prepare` |
| DependencySourceFetcher.FetchDependencyTree | src/tool/dependency_source_fetcher.rs:37-69 | the method's new state and result are `FetchOne` |
| DependencySourceFetcher.MissingRegistryFails | src/tool/dependency_source_fetcher.rs:39-40 | a first dependency naming an undeclared registry fails the whole fetch before anything is fetched |
| DependencySourceFetcher.ArtifactsAtTheirPaths | src/tool/dependency_source_fetcher.rs:51-56 | every artifact, nested ones included, is at `sources_dir/<name>` of the dependency it carries |
| DependencySourceFetcher.Declared | src/tool/dependency_source_fetcher.rs:36 | one artifact per declared dependency, in declaration order |
| DependencySourceFetcher.DeclaredAhead | src/tool/dependency_source_fetcher.rs:36-69 | the first dependency's artifacts in front of the rest's keep the declared order |
| DependencySourceFetcher.DeclaredListed | src/tool/dependency_source_fetcher.rs:36-69 | every declared dependency has its artifact in the list |
| DependencySourceFetcher.PreOrder | src/tool/dependency_source_fetcher.rs:36-69 | pre-order: a successful fetch lists the first declared dependency, then exactly the artifacts its own configuration brings in, then what the remaining declared dependencies yield |
| DependencySourceFetcher.DeclaredInOrder | src/tool/dependency_source_fetcher.rs:36-69 | the declared dependencies' artifacts appear in declaration order; every declared dependency is listed, and the first one comes first |
| DependencySourceFetcher.DeclaredTwiceListedTwice | src/tool/dependency_source_fetcher.rs:42-69 | without deduplication, a dependency declared twice is listed at least twice |
| DependencySourceFetcher.PresentDependencyStillRead | src/tool/dependency_source_fetcher.rs:42-63 | an already present dependency is not fetched, yet its `build.yaml` is still read and parsed |
| DependencySourceFetcher.FuelSuffices | src/tool/dependency_source_fetcher.rs:65-67 | once the fuel bound suffices, more fuel changes nothing |
| DependencySourceFetcher.WritesOnlySources | src/tool/dependency_source_fetcher.rs:33-73 | nothing outside the sources directory changes |
| DependencySourceFetcher.KeepsExisting | src/tool/dependency_source_fetcher.rs:42-49 | fetching removes nothing that existed |
| DependencySourceFetcher.PrepareWritesOnlySources | src/tool/dependency_source_fetcher.rs:42-49 | preparing one dependency changes nothing outside the sources directory |
| DependencySourceFetcher.PrepareKeepsExisting | src/tool/dependency_source_fetcher.rs:42-49 | preparing one dependency removes nothing that existed |
| DependencySourceFetcher.ArtifactsPresent | src/tool/dependency_source_fetcher.rs:42-56 | after success the sources of every listed artifact exist |
| DependencyIncludeFetcher.CopyAt | src/tool/dependency_include_fetcher.rs:31-61 | `copy_headers` from a path, failing when it does not exist |
| DependencyIncludeFetcher.CopyNode | src/tool/dependency_include_fetcher.rs:31-61 | the copy of one node; `CopyWritesOnlyBelow`, `CopyWritesOnlyHeaders` and `HeaderCopied` state its meaning |
| DependencyIncludeFetcher.CopyListing | src/tool/dependency_include_fetcher.rs:34-58 | the loop over a directory listing, stopping at the first failure |
| DependencyIncludeFetcher.CopyEntry | src/tool/dependency_include_fetcher.rs:34-57 | one iteration of that loop |
| DependencyIncludeFetcher.FetchHeaders | src/tool/dependency_include_fetcher.rs:21-27 | `fetch` as a function; `FetchHeadersAppend` and `FetchWritesOnlyIncludes` state its meaning |
| DependencyIncludeFetcher.CopyHeaders | src/tool/dependency_include_fetcher.rs:31-61 | the walk's new state and result are `CopyAt` |
| DependencyIncludeFetcher.CopyHeadersEntry | src/tool/dependency_include_fetcher.rs:34-57 | one entry: recurse into a directory; otherwise create the destination, and copy the file if it is a header |
| DependencyIncludeFetcher.CopyWritesOnlyBelow | src/tool/dependency_include_fetcher.rs:31-61 | nothing outside the destination changes; the source tree is only read |
| DependencyIncludeFetcher.CopyWritesOnlyHeaders | src/tool/dependency_include_fetcher.rs:45-56 | every file the copy creates or changes is a copy of a `.h` file of the source at the same relative path |
| DependencyIncludeFetcher.HeaderFileCopied | src/tool/dependency_include_fetcher.rs:45-55 | a header file entry is copied to `dst/<name>` with its content |
| DependencyIncludeFetcher.EntryCopiesHeader | src/tool/dependency_include_fetcher.rs:37-55 | the entry a header's path runs through puts that header at the same relative path below the destination |
| DependencyIncludeFetcher.MakeDirWritesNoFile | src/tool/dependency_include_fetcher.rs:42-43 | creating the destination directory writes no file |
| DependencyIncludeFetcher.HeaderWriteIsCopy | src/tool/dependency_include_fetcher.rs:45-55 | copying a header entry writes only a copy of that header |
| DependencyIncludeFetcher.HeaderCopied | src/tool/dependency_include_fetcher.rs:37-55 | after success every header at relative path r below the source is at r below the destination, with its content |
| DependencyIncludeFetcher.NonHeadersLeaveEmptyDirectory | src/tool/dependency_include_fetcher.rs:42-43 | a folder of files none of which is a header still gets an empty destination directory |
| DependencyIncludeFetcher.Fetch | src/tool/dependency_include_fetcher.rs:21-27 | the loop's new state and result are `FetchHeaders`: each artifact's `src` copied into `include_dir/<name>`, in order, stopping at the first failure |
| DependencyIncludeFetcher.FetchHeadersAppend | src/tool/dependency_include_fetcher.rs:22-24 | projecting two lists is projecting the first and, unless that failed, the second |
| DependencyIncludeFetcher.FetchWritesOnlyIncludes | src/tool/dependency_include_fetcher.rs:21-27 | nothing outside the include directory changes |
| DependencyIncludeFetcher.HeaderCopyOfEntry | src/tool/dependency_include_fetcher.rs:38-41 | a copy made below `dst/<name>` from entry `name` is a copy from the parent tree |
| DependencyPath.Layout | src/command/build/dependency_path.rs:10-16 | `<project>/dependency/source` and `<project>/dependency/include` |
| DependencyPath.LayoutSiblings | src/command/build/dependency_path.rs:14-15 | the two directories are distinct siblings, neither inside the other |
| DependencyPath.CreateFrom | src/command/build/dependency_path.rs:10-24 | on success the result is the layout of the project |
| DependencyPath.Create | src/command/build/dependency_path.rs:10-24 | the method's new state and result are `CreateFrom`; a failure carries the directory's own context |
| DependencyPath.CreateMakesDirectories | src/command/build/dependency_path.rs:18-21 | after success both directories exist |
| DependencyPath.CreateIdempotent | src/command/build/dependency_path.rs:18-21 | creating again changes nothing |
| DependencyPath.CreateKeepsOthers | src/command/build/dependency_path.rs:18-21 | nothing but the two directories and their ancestors changes |
| TargetPath.ToolchainDir | src/lib/command/build/target_path.rs:25 | `<project>/target/<mode>/<toolchain>` |
| TargetPath.LayoutDisjoint | src/lib/command/build/target_path.rs:25-38 | project cache, dependency cache and output are `.../cache/project`, `.../cache/dependency` and `.../output` below the toolchain directory, and pairwise diverge |
| TargetPath.ToolchainDirsDistinct | src/lib/command/build/target_path.rs:25 | different modes or toolchains use diverging directories |
| TargetPath.CreateFrom | src/lib/command/build/target_path.rs:24-48 | on success the result is the layout of the project, mode and toolchain |
| TargetPath.Create | src/lib/command/build/target_path.rs:24-48 | the method's new state and result are `CreateFrom` |
| TargetPath.CreateMakesDirectories | src/lib/command/build/target_path.rs:40-45 | after success all three directories exist |
| TargetPath.CreateIdempotent | src/lib/command/build/target_path.rs:40-45 | creating again changes nothing |
| TargetPath.CreateKeepsOthers | src/lib/command/build/target_path.rs:40-45 | nothing but the three directories and their ancestors changes |
| CompilationDatabasePath.Layout | src/command/compilation_database/compilation_database_path.rs:10-14 | `<project>/compilation_database/compile_commands.json` |
| CompilationDatabasePath.CreateFrom | src/command/compilation_database/compilation_database_path.rs:9-20 | on success the result is the layout; a failure changes nothing and is shown as "Failed to create compilation database directory" |
| CompilationDatabasePath.Create | src/command/compilation_database/compilation_database_path.rs:9-20 | the method's new state and result are `CreateFrom` |
| CompilationDatabasePath.CreateMakesOnlyDirectory | src/command/compilation_database/compilation_database_path.rs:16-17 | after success the directory exists, the JSON file is untouched, and creating again changes nothing |
| ConfigurationParser.Parse | src/tool/configuration_parser.rs:17-29 | an unreadable file fails with "Failed to read 'build.yaml' file"; text that does not parse fails with "Failed to parse 'build.yaml' file"; otherwise the parsed configuration |
| ConfigurationParser.ParsedIffFileParses | src/tool/configuration_parser.rs:17-29 | a configuration is found exactly when `<project>/build.yaml` is a file whose text parses |
| CompilationDatabase.Record | src/lib/command/compilation_database.rs:38-42 | directory is the project, file is the source, and the command is `gcc -c <file> -I <include>` with the same file text, whatever the toolchain |
| CompilationDatabase.Records | src/lib/command/compilation_database.rs:33-43 | Ok iff every source canonicalises, and then one record per source in order; otherwise the canonicalisation error |
| CompilationDatabase.Database | src/lib/command/compilation_database.rs:28-43 | the records collected for a project; `OneRecordPerSource` and `NoDependencySources` state its meaning |
| CompilationDatabase.Generate | src/lib/command/compilation_database.rs:19-55 | `compilation_database` as a function; `WrittenOnlyOnSuccess` states its meaning |
| CompilationDatabase.CompilationDatabase | src/lib/command/compilation_database.rs:19-55 | the method's new state and result are `Generate` |
| CompilationDatabase.OneRecordPerSource | src/lib/command/compilation_database.rs:28-43 | exactly one record per C source below `<project>/src`, in discovery order, all with the project directory |
| CompilationDatabase.NoDependencySources | src/lib/command/compilation_database.rs:28 | every listed source lies below `<project>/src`, apart from the dependency sources, and has extension `c` |
| CompilationDatabase.LaidOutKeepsSources | src/lib/command/compilation_database.rs:24-28 | creating the directories leaves the source walk of `<project>/src` as it was |
| CompilationDatabase.GenerateWrote | src/lib/command/compilation_database.rs:45-48 | a successful generation wrote the serialised records, collected after the layout, to the JSON path |
| CompilationDatabase.LaidOutRecords | src/lib/command/compilation_database.rs:28-43 | the records collected after the layout are one per C source of `<project>/src` before it, in order |
| CompilationDatabase.FailureKeepsJson | src/lib/command/compilation_database.rs:45-51 | a failed generation leaves the JSON path as it was |
| CompilationDatabase.SuccessWritesJson | src/lib/command/compilation_database.rs:19-51 | a successful generation leaves at the JSON path the serialisation of exactly one record per C source below `<project>/src`, in discovery order |
| CompilationDatabase.WrittenOnlyOnSuccess | src/lib/command/compilation_database.rs:19-51 | a failed generation leaves the JSON path as it was; a successful one leaves there the serialisation of one record per C source below `<project>/src`, in discovery order |
| Build.FetchProfile | src/lib/command/build.rs:91-104 | the configured profile of the mode, or `O` for development and `Ofast` for release |
| Build.ProfileOfOtherModeIgnored | src/lib/command/build.rs:91-104 | the other mode's profile entry does not matter |
| Build.Pic | src/lib/command/build.rs:52 | position-independent code exactly for a dynamic library |
| Build.BuildFrom | src/lib/command/build.rs:17-31 | parse the configuration and choose the toolchain, each failure with its context, then lay out and build; `BuildWritesOnlyInsideProject`, `BuildLinksAfterCleanCompiles` and `EarlyFailuresChangeNothing` state its meaning |
| Build.LayOutAndBuildFrom | src/lib/command/build.rs:34-89 | create both layouts, then fetch, compile and link |
| Build.FetchAndCompileFrom | src/lib/command/build.rs:39-89 | fetch sources and headers with their contexts, then compile and link |
| Build.CompileAndLinkFrom | src/lib/command/build.rs:52-85 | compile the dependencies, then the project, then link; `CompileAndLinkInOrder` and `LinkedObjects` state its meaning |
| Build.CompileArtifact | src/lib/command/build.rs:58-69 | one dependency: create its cache directory, find its C sources, compile them there; `ArtifactObjectsInItsCache` and `ArtifactRunSucceeded` state its meaning |
| Build.CompileArtifacts | src/lib/command/build.rs:54-70 | the dependency loop, stopping at the first failure; `ArtifactObjectsPlaced`, `ArtifactsWriteOnlyCache` and `ArtifactRunsSucceeded` state its meaning |
| Build.Build | src/lib/command/build.rs:17-89 | the method's new state, result, compiler runs and link command are `BuildFrom` |
| Build.LayOutAndBuild | src/lib/command/build.rs:34-89 | the method's outcome is `LayOutAndBuildFrom` |
| Build.FetchAndCompile | src/lib/command/build.rs:39-89 | the method's outcome is `FetchAndCompileFrom` |
| Build.CompileAndLink | src/lib/command/build.rs:52-85 | the method's outcome is `CompileAndLinkFrom` |
| Build.CompileDependencies | src/lib/command/build.rs:54-70 | the dependency loop's outcome is `CompileArtifacts` |
| Build.CompileArtifactStep | src/lib/command/build.rs:58-69 | one iteration either fails, and that is the dependency loop's outcome, or leaves the loop's outcome equal to its objects and runs in front of what the remaining dependencies yield |
| Build.CompilationRunsSucceeded | src/lib/command/build.rs:65-67 | a successful compilation made only successful runs |
| Build.ArtifactRunSucceeded | src/lib/command/build.rs:58-67 | a dependency that compiled made only successful runs |
| Build.ArtifactRunsSucceeded | src/lib/command/build.rs:57-70 | when every dependency compiled, every run succeeded |
| Build.ArtifactObjectsInItsCache | src/lib/command/build.rs:58-67 | a dependency's objects lie directly in `cache/dependency/<name>` |
| Build.InArtifactCachesConcat | src/lib/command/build.rs:69 | objects of the first artifact followed by objects of the rest lie in the artifacts' caches |
| Build.ArtifactObjectsPlaced | src/lib/command/build.rs:57-70 | every dependency object lies in the object directory of one of the artifacts |
| Build.ArtifactsWriteOnlyCache | src/lib/command/build.rs:57-70 | the dependency loop changes nothing outside the dependency cache |
| Build.ArtifactRunsOf | src/lib/command/build.rs:65-66 | every run of the dependency loop uses the one compiler and pic choice |
| Build.CompileAndLinkRunsOf | src/lib/command/build.rs:52-77 | dependencies and project are compiled with the same compiler and the same pic flag |
| Build.CompilesOnlyAfterFetch | src/lib/command/build.rs:39-45 | nothing is compiled or linked unless every dependency was fetched and its headers projected |
| Build.LayOutAndBuildCompilesAlike | src/lib/command/build.rs:29-77 | every run uses the mode's profile, the chosen toolchain, the dependency include directory, and `-fPIC` exactly for a dynamic library |
| Build.CompileAndLinkInOrder | src/lib/command/build.rs:54-85 | the linker runs only after every compiler run succeeded; success means the link ran successfully |
| Build.CompileAndLinkRoot | src/lib/command/build.rs:54-85 | compiling and linking write only what the dependency loop writes |
| Build.LinkedObjects | src/lib/command/build.rs:54-85 | the link command takes the dependency objects in artifact order, then the project objects, each in its own cache, into the output file named after the configured project and strategy |
| Build.FetchAndCompileWritesOnlyBelow | src/lib/command/build.rs:39-85 | past the layout, only the dependency sources, headers and object cache change |
| Build.LayoutInsideProject | src/lib/command/build.rs:34-35 | every directory the build lays out lies inside the project |
| Build.LayoutKeepsOutside | src/lib/command/build.rs:34-35 | laying out changes nothing outside the project |
| Build.LayOutAndBuildWritesOnlyInsideProject | src/lib/command/build.rs:34-89 | past the toolchain choice, nothing outside the project changes |
| Build.BuildWritesOnlyInsideProject | src/lib/command/build.rs:17-89 | a build changes nothing outside the project directory |
| Build.FetchAndCompileLinksAfterCleanCompiles | src/lib/command/build.rs:39-85 | past the layout, the linker runs only after every compiler run succeeded, and success means it ran successfully |
| Build.LayOutAndBuildLinksAfterCleanCompiles | src/lib/command/build.rs:34-85 | past the toolchain choice, the linker runs only after every compiler run succeeded, and success means it ran successfully |
| Build.BuildLinksAfterCleanCompiles | src/lib/command/build.rs:24-85 | the linker runs only after every compiler run succeeded, and a successful build ran it successfully |
| Build.EarlyFailuresChangeNothing | src/lib/command/build.rs:24-31 | a missing configuration or toolchain changes nothing and runs nothing |
| Build.LinkArgumentIgnored | src/lib/command/build.rs:84 | the link strategy comes from the configuration, never from the command line |

## Left out

- Process side effects on the filesystem are not modelled. A compiler or archiver run creates no file in the model, so the object files and the output exist only as paths. The process runner is the `Host.run` parameter.
- Build.CompileArtifacts, Compiler.CompileFrom: because a run creates no file in the model, an object compiled earlier in the same build still does not exist for a later check. A dependency listed twice (`DependencySourceFetcher.DeclaredTwiceListedTwice`) has its sources compiled again for the second copy, while the tool finds the objects the first run wrote and skips them (`src/lib/tool/compiler.rs:69-73`). The model's compile trace can therefore be longer than the tool's when the dependency graph repeats a dependency. The same holds for two sources that hash to the same stem.
- Logging (`log::info!`, `log::trace!`) and the `log` flag of `execute` are left out.
- The git and filesystem registry transports are the `Host.transport` parameter. A failed transport leaves the filesystem unchanged; a real partial copy would not.
- SHA-256, target-triple parsing, YAML parsing and JSON serialisation are the parameters `sha256`, `parseTriple`, `parseConfig` and `toJson`. The model states no property of them, not even that the digest is injective.
- `Extension::for_compiler` runs `<compiler> -dumpmachine`; the model uses the `Host.dumpMachine` parameter instead, so the panics of its `unwrap`s are left out.
- clap argument parsing, `main`, and the `init`, `clean`, `clone` and `run` commands are not part of this model.
- `Toolchain::default`, the default link strategy and the default build mode are constants (`Config.DefaultToolchain`, `Config.DefaultLinkStrategy`, `Cli.DefaultBuildMode`), not members.
- FilesFetcher.FilesIn: the error of reading one listed entry (`dir_entry?`) is not modelled separately. Only a directory that cannot be listed fails a walk.
- Compiler.CompileSource: `fs::exists` never fails in the model, so "Failed to check if file exists" cannot occur. The same holds for the existence check in `DependencySourceFetcher.Obtain`.
- CommandExt.Execute: process output is already text in the model; `from_utf8_lossy` replacement of invalid bytes is not modelled.
- Common.Debug: a path's `{:?}` text is its display between quotes, without Rust's escaping of quotes and backslashes inside components.
- FileTree.Canonicalize: paths in the model are absolute and free of links and `.`/`..`, so canonicalising only checks existence.
- CompilationDatabase.Generate: `serde_json::to_string_pretty` cannot fail in the model (`toJson` is total).
- DependencySourceFetcher.FetchAll: the source recurses without bound and has no cycle detection, so a cyclic dependency graph never returns. The model takes a `fuel` bound and yields `OutOfFuel`, not an error, when nesting exceeds it. `FetchAll` and `Build.BuildFrom` describe only runs that stay within the bound; `FuelSuffices` shows the bound does not change such runs.
- DependencyIncludeFetcher.CopyHeaders: requires that the source tree and the destination diverge. A destination inside the tree being walked is not modelled. `Build.FetchAndCompile` establishes this for the build.
- Toolchain names containing `/` are single path components in the model.
