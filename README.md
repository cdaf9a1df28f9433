# swift-incremental-builder in Dafny

The build script compiles a set of Swift source files incrementally and can
then link the objects into an executable or a dynamic library. A run does
five things in order:

1. It creates the temporary directory and the output directory.
2. It rewrites every input path as an absolute, normalised path. The Swift
   driver identifies a file by its path, so spelling it two ways would lose
   the incremental state.
3. It writes the *output file map*. This is a JSON dictionary with one
   module-wide entry under the empty key, plus one entry per input that
   names the input's object, partial module, bitcode, diagnostics,
   dependency and swiftdeps files in the output directory.
4. It runs `swiftc -incremental` with a fixed argument vector.
5. When `--link` is given, it runs `clang` on the object files. Asking for
   `dylib` adds `-dynamiclib`.

Every subcommand sees the process environment with `TMPDIR`,
`DEVELOPER_DIR` and `SDKROOT` replaced. The first subcommand that fails
ends the run. Toolchain locations come from the options. When an option is
missing, its default is derived from the Swift source build or from the
Xcode installation.

The modules follow that structure:

| file | module | what it holds |
|---|---|---|
| `build_config.dfy` | `BuildConfig` | the parsed options (`Config`), `Option`, the link mode, and Python's string truthiness (`Given`) |
| `posix_path.dfy` | `PosixPath` | the POSIX rules of `join`, `basename`, `splitext`, `normpath` and `abspath`, on strings |
| `path_defaults.dfy` | `PathDefaults` | the default toolchain locations and how an option overrides them (`Resolve`) |
| `output_file_map.dfy` | `OutputFileMap` | absolute inputs, the file map and the object list |
| `commands.dfy` | `Commands` | the compile and link argument vectors, and the methods that assemble them |
| `driver.dfy` | `Driver` | the environment overlay, the steps of a run and their order, and abort on the first failure |

A real process, directory creation or file write either succeeds or raises.
The model takes the outcome as a parameter, `succeeds: Step -> bool`.
`Driver.Executed` is the part of the plan that is attempted: every step up
to and including the first one that fails.

## Model

| member | source | states |
|---|---|---|
| `PathDefaults.Resolve` | main.py:255-295 | each location is its option when given; an empty string counts as not given. Otherwise the Swift build directory is `swift-macosx-x86_64` under the root build directory, the compiler is `bin/swiftc` under the resolved build directory, and the SDK is the MacOSX10.13 SDK under the Xcode path. The static SDK is `lib/swift_static/macosx` under the *resolved* Swift build directory |
| `PathDefaults.DefaultIsysrootLayout` | main.py:27-31 | the default SDK is `<xcode>/Platforms/MacOSX.platform/Developer/SDKs/MacOSX10.13.sdk` |
| `PathDefaults.DefaultSwiftBuildLayout` | main.py:34-35 | the default Swift build is `<root>/swift-macosx-x86_64` |
| `PathDefaults.DefaultSwiftStaticSdkLayout` | main.py:38-39 | the default static SDK is `<build>/lib/swift_static/macosx` |
| `PathDefaults.DefaultSwiftcLayout` | main.py:42-43 | the default compiler is `<build>/bin/swiftc` |
| `PathDefaults.DefaultClangLayout` | main.py:46-47 | the default clang is `<root>/llvm-macosx-x86_64/bin/clang` |
| `PathDefaults.DefaultsFromRoot` | main.py:255-260 | with no overrides, the build directory, compiler and static SDK are all fixed paths under the root build directory |
| `PathDefaults.ExplicitBuildDirIgnoresRoot` | main.py:255-257 | once the Swift build directory is given, the root build directory has no effect on any resolved location |
| `PathDefaults.ExplicitSwiftcWins` | main.py:258-260 | a given compiler is used whatever the root and Swift build directories are |
| `PosixPath.JoinStep` | main.py:27-47 | joining a component onto a directory that does not end in a separator inserts exactly one `/` |
| `PosixPath.JoinShape` | main.py:27-47 | a join is the second path when that path is absolute. Otherwise it starts with the first path, ends with the second, and adds at most one character between them |
| `PosixPath.BasenameSpec` | main.py:235 | the base name holds no separator and is a suffix of the path; what precedes it is empty or ends in `/` |
| `PosixPath.SplitextRootSpec` | main.py:235 | the root of `splitext` is a prefix of the name. What it drops is empty, or a dot followed by characters that are neither dots nor separators, preceded by a non-dot character of the base name |
| `PosixPath.BasenameOfJoin` | main.py:236 | the base name of `join(dir, name)` is `name` when `name` holds no separator |
| `PosixPath.SplitextRootOfExtension` | main.py:235 | the root of `stem.ext` is `stem` when the stem holds a character other than a dot and neither part holds a separator |
| `PosixPath.SplitextRootWithoutDot` | main.py:235 | a name with no dot is its own root |
| `PosixPath.NormpathIdempotent` | main.py:222 | normalising a normalised absolute path changes nothing |
| `PosixPath.AbspathIdempotent` | main.py:222 | making an absolute path absolute again changes nothing |
| `PosixPath.AbspathOfRelativeName` | main.py:217-222 | a plain file name is resolved to `<cwd>/<name>` |
| `PosixPath.AbspathOfAbsoluteName` | main.py:217-222 | the absolute spelling `<cwd>/<name>` is left as it is |
| `PosixPath.AbspathOfDotSlashName` | main.py:217-222 | `./<name>` becomes the same absolute path as `<name>` |
| `OutputFileMap.AbsoluteInputs` | main.py:222 | exactly one absolute input per given input |
| `OutputFileMap.AbsoluteInputsSpec` | main.py:222 | input i becomes the absolute form of the i-th given path relative to the working directory; every result is absolute, so none collides with the module-wide empty key |
| `OutputFileMap.BuildOutputFileMap` | main.py:225-249 | the loop yields exactly the file map and the object list the specification functions define, with one object per input |
| `OutputFileMap.FileMapKeys` | main.py:225-249 | the keys of the map are the empty key plus the set of inputs |
| `OutputFileMap.FileMapEntries` | main.py:225-249 | every input has a key, holding the entry built from that input. When no input is empty, the empty key holds the module-wide entry |
| `OutputFileMap.FileMapSize` | main.py:225-249 | the map has one more entry than there are distinct inputs |
| `OutputFileMap.DistinctInputsSize` | main.py:233-249 | with pairwise-distinct inputs, the map has one entry more than there are inputs |
| `OutputFileMap.ObjectFilesIndexed` | main.py:233-237 | object i is `<outdir>/<stem of input i>.o`, in input order |
| `OutputFileMap.ObjectFilesMatchEntries` | main.py:236-243 | the object listed for linking is the one the input's file-map entry names |
| `OutputFileMap.InputEntryShape` | main.py:239-249 | an input's entry has the six keys `swiftmodule`, `object`, `llvm-bc`, `diagnostics`, `dependencies` and `swift-dependencies`, with the `~partial.swiftmodule`, `.o`, `.bc`, `.dia`, `.d` and `.swiftdeps` names in the output directory |
| `OutputFileMap.SentinelEntryShape` | main.py:225-232 | the module-wide entry has the single key `swift-dependencies`, set to `<outdir>/<module>-master.swiftdeps` |
| `OutputFileMap.StemHasNoSeparator` | main.py:235 | an input's stem never holds a `/` |
| `OutputFileMap.ArtifactBasename` | main.py:236-248 | every artifact path is the stem plus its suffix, placed directly in the output directory |
| `OutputFileMap.InputEntryArtifacts` | main.py:239-249 | every artifact of an input lies directly in the output directory, under the input's stem |
| `OutputFileMap.SameStemSameArtifacts` | main.py:235-249 | two inputs with the same stem, such as `src/a.swift` and `lib/a.swift`, get the same entry and the same object path |
| `OutputFileMap.TwoInputsScenario` | main.py:222-249 | for `a.ext` and `b.ext` in the working directory, the map has three keys: the empty key and the two absolute paths; the objects are `<outdir>/a.o` and `<outdir>/b.o` |
| `OutputFileMap.SpellingsShareOneKey` | main.py:217-249 | a file given as `name`, `./name` and `<cwd>/name` gets a single key in the map, and its three objects are equal |
| `Commands.CompileArgv` | main.py:264-282 | the vector is the fixed head, the absolute inputs, the fixed tail, then the user's options |
| `Commands.BuildCompileCommand` | main.py:264-282 | the loop-built vector is `CompileArgv`, of length `21 + inputs + options` |
| `Commands.CompileArgvLayout` | main.py:264-282 | position by position: the compiler, `-incremental`, `-target <target>`, the inputs at 9.., then `-output-file-map`, `-emit-module-path <outdir>/<module>.swiftmodule`, `-module-name`, `-module-link-name`, and the options at the end in order |
| `Commands.CompileArgvDeterminesInputs` | main.py:264-282 | two compile vectors for equally many inputs that are equal have the same inputs, so inputs are never lost or reordered |
| `Commands.LinkArgv` | main.py:297-318 | the vector is the clang head, `-dynamiclib` for a dylib, the objects, the fixed tail, then the linker options |
| `Commands.BuildLinkCommand` | main.py:297-318 | there is no link command exactly when no link mode is set; otherwise the loop-built vector is `LinkArgv` |
| `Commands.LinkArgvLayout` | main.py:297-318 | position by position: clang, `-arch x86_64`, `-isysroot <sdk>`, the objects, `-L<static sdk>`, `-lc++`, `-framework Foundation`, the AST path and dependency info for the linker, `-o <outdir>/<module>`, then the linker options |
| `Commands.ObjectPathEndsInO` | main.py:236 | an object path is non-empty and ends in the letter `o` |
| `Commands.DynamiclibIffDylib` | main.py:303-304 | the sixth token of the link vector is `-dynamiclib` exactly when a dylib is asked for |
| `Commands.DylibAddsOneFlag` | main.py:303-304 | a dylib's link vector is an executable's with `-dynamiclib` inserted after the head |
| `Driver.Overlay` | main.py:207-210 | the child environment has the process's variables plus `TMPDIR`, `DEVELOPER_DIR` and `SDKROOT`; those three take the script's values and every other variable is unchanged |
| `Driver.ResolveCompiler` | main.py:255-260 | the imperative override of the build directory and compiler agrees with `Resolve` |
| `Driver.ResolveLinkInputs` | main.py:286-295 | the imperative override of the SDK and static SDK agrees with `Resolve` |
| `Driver.Run` | main.py:214-319 | what a run attempts is the plan cut after its first failing step, and the run completes exactly when every planned step succeeds |
| `Driver.CompileAndLink` | main.py:255-319 | compiling, then the optional link, attempt the build steps up to the first failure |
| `Driver.ExecutedFailsAt` | main.py:50-52 | when step k is the first failure, exactly the steps 0..k are attempted |
| `Driver.ExecutedAll` | main.py:50-52 | when no step fails, the whole plan is attempted |
| `Driver.ExecutedStopsInFirst` | main.py:50-52 | a failure in an early step hides every later step, and the run does not complete |
| `Driver.ExecutedAfter` | main.py:50-52 | after a run of successful steps, the run continues with the rest, and completes exactly when the rest does |
| `Driver.ExecutedIsPrefix` | main.py:50-52 | what is attempted is a prefix of the plan; it is empty only for an empty plan; every attempted step but the last succeeded; the last failed unless the whole plan was attempted |
| `Driver.ExecutedSucceedsIff` | main.py:50-52 | every attempted step succeeded exactly when every planned step succeeds, and then the whole plan was attempted |
| `Driver.StepsOrder` | main.py:214-319 | a run has four steps, or five when linking, in this order: mkdir the temporary directory, mkdir the output directory, write the file map to its path, compile, link |
| `Driver.PlanEnvironment` | main.py:207-319 | every subcommand of a run is given the overlaid environment |
| `Driver.CompileAndLinkGuards` | main.py:214-319 | the compiler runs only after both directories exist and the file map is written; the linker runs only after the compiler succeeded |

## Left out

- Argument parsing (main.py:55-205) is not modelled. `Config` holds the parsed values. The argparse defaults depend on the home directory and the working directory, and the `--link` choices are the cases of `LinkMode`.
- The `xcode-select -p` query (main.py:23-24) is not modelled either. `xcodeDeveloperPath` is a given value. In the code, the query runs while the parser is built (main.py:177 and main.py:185), even when `--xcode-developer-path` or `--isysroot` is given.
- The console echo of `_run` (main.py:51) is output only; it is left out.
- Process execution, `mkdir -p` and the file write are left out. They are the outcome oracle `succeeds`, so exception types and exit codes are not distinguished.
- `Driver.Run` does not model the default `env` argument of `_run`. That argument is evaluated once when the function is defined, and every call passes an explicit environment.
- JSON serialisation at main.py:251-252 is not modelled (key order, indentation, escaping). The step carries the file-map value.
- Paths are modelled after the POSIX rules of Python's `os.path`, on strings. Symbolic links, the byte or Unicode distinction, and reading the working directory are not modelled; the working directory is a parameter, assumed absolute.
- `Driver.Overlay` does not state that its `SDKROOT` literal equals the default SDK path under its `DEVELOPER_DIR` literal. The two constants are written out as in main.py:209-210.
- `OutputFileMap.SameStemSameArtifacts` records the source's behaviour without calling it a defect. Inputs that share a base name in different directories share their artifact paths. The source neither rejects nor documents this case.
- `PosixPath` does not model the remaining `os.path` behaviour the script never uses: `splitext` of names with leading dots beyond the base-name rule, and Windows paths.
