/** The two command lines the build runs: the incremental `swiftc`
    invocation that compiles every input into the module, and the optional
    Clang invocation that links the module's object files. */
module Commands {
  import opened PosixPath
  import opened BuildConfig
  import opened OutputFileMap

  /** The module file the compiler emits, which the linker also references. */
  function SwiftmodulePath(outdir: string, moduleName: string): string {
    Join(outdir, moduleName + ".swiftmodule")
  }

  /** The linker's dependency-info file. */
  function DependencyInfoPath(outdir: string, moduleName: string): string {
    Join(outdir, moduleName + "_dependency_info.dat")
  }

  /** The linked product: the module's name in the output directory. */
  function LinkOutputPath(outdir: string, moduleName: string): string {
    Join(outdir, moduleName)
  }

  // ---------------------------------------------------------------------
  // Compilation
  // ---------------------------------------------------------------------

  /** The compiler and the flags before the inputs. */
  function CompileHead(swiftc: string, target: string): seq<string> {
    [swiftc, "-incremental", "-target", target, "-Onone",
     "-Xfrontend", "-serialize-debugging-options", "-c", "-j8"]
  }

  /** The flags after the inputs: the output file map and the module. */
  function CompileTail(cfg: Config): seq<string> {
    ["-output-file-map", cfg.outputFileMap,
     "-save-temps", "-serialize-diagnostics", "-emit-dependencies", "-emit-module",
     "-emit-module-path", SwiftmodulePath(cfg.outdir, cfg.outputModuleName),
     "-module-name", cfg.outputModuleName,
     "-module-link-name", cfg.outputModuleName]
  }

  /** The compile command before the extra `--swiftc-option`s are appended. */
  function CompileBase(cfg: Config, swiftc: string, inputs: seq<string>): seq<string> {
    CompileHead(swiftc, cfg.target) + inputs + CompileTail(cfg)
  }

  /** The complete compile command. */
  function CompileArgv(cfg: Config, swiftc: string, inputs: seq<string>): seq<string> {
    CompileBase(cfg, swiftc, inputs) + cfg.swiftcOptions
  }

  /** Assembles the compile command, appending the extra options one by one. */
  method BuildCompileCommand(cfg: Config, swiftc: string, inputs: seq<string>) returns (cmd: seq<string>)
    ensures cmd == CompileArgv(cfg, swiftc, inputs)
    ensures |cmd| == 21 + |inputs| + |cfg.swiftcOptions|
  {
    cmd := CompileHead(swiftc, cfg.target) + inputs + CompileTail(cfg);
    var options := cfg.swiftcOptions;
    for i := 0 to |options|
      invariant cmd == CompileBase(cfg, swiftc, inputs) + options[..i]
    {
      cmd := cmd + [options[i]];
      assert options[..i + 1] == options[..i] + [options[i]];
    }
    assert options[..|options|] == options;
  }

  // ---------------------------------------------------------------------
  // Linking
  // ---------------------------------------------------------------------

  /** The linker, the architecture and the SDK. */
  function LinkHead(clang: string, isysroot: string): seq<string> {
    [clang, "-arch", "x86_64", "-isysroot", isysroot]
  }

  /** `-dynamiclib` for a dynamic library, nothing for an executable. */
  function LinkKindFlags(mode: LinkMode): seq<string> {
    if mode == Dylib then ["-dynamiclib"] else []
  }

  /** The flags after the object files: the static Swift runtime, the
      C++ library, Foundation, the module for the debugger, the dependency
      info, and the output. */
  function LinkTail(cfg: Config, staticSdk: string): seq<string> {
    ["-L" + staticSdk, "-lc++", "-framework", "Foundation",
     "-Xlinker", "-add_ast_path", "-Xlinker", SwiftmodulePath(cfg.outdir, cfg.outputModuleName),
     "-Xlinker", "-dependency_info", "-Xlinker", DependencyInfoPath(cfg.outdir, cfg.outputModuleName),
     "-o", LinkOutputPath(cfg.outdir, cfg.outputModuleName)]
  }

  /** The link command before the extra `--link-option`s are appended. */
  function LinkBase(cfg: Config, isysroot: string, staticSdk: string, objects: seq<string>): seq<string> {
    LinkHead(cfg.clang, isysroot) + LinkKindFlags(cfg.link) + objects + LinkTail(cfg, staticSdk)
  }

  /** The complete link command. */
  function LinkArgv(cfg: Config, isysroot: string, staticSdk: string, objects: seq<string>): seq<string> {
    LinkBase(cfg, isysroot, staticSdk, objects) + cfg.linkerOptions
  }

  /** Assembles the link command when linking was asked for, and nothing
      otherwise. */
  method BuildLinkCommand(cfg: Config, isysroot: string, staticSdk: string, objects: seq<string>)
    returns (cmd: Option<seq<string>>)
    ensures cmd.None? <==> cfg.link == NoLink
    ensures cmd.Some? ==> cmd.value == LinkArgv(cfg, isysroot, staticSdk, objects)
  {
    if cfg.link == NoLink {
      return None;
    }
    var argv := [cfg.clang, "-arch", "x86_64", "-isysroot", isysroot];
    if cfg.link == Dylib {
      argv := argv + ["-dynamiclib"];
    }
    argv := argv + objects + LinkTail(cfg, staticSdk);
    var options := cfg.linkerOptions;
    for i := 0 to |options|
      invariant argv == LinkBase(cfg, isysroot, staticSdk, objects) + options[..i]
    {
      argv := argv + [options[i]];
      assert options[..i + 1] == options[..i] + [options[i]];
    }
    assert options[..|options|] == options;
    return Some(argv);
  }

  // ---------------------------------------------------------------------
  // Lemmas
  // ---------------------------------------------------------------------

  /** The compile command is the compiler and eight flags, every input in
      order, the twelve tokens naming the output file map and the module,
      and then the extra options in order. */
  lemma CompileArgvLayout(cfg: Config, swiftc: string, inputs: seq<string>)
    ensures var cmd := CompileArgv(cfg, swiftc, inputs);
      var n := |inputs|;
      && |cmd| == 21 + n + |cfg.swiftcOptions|
      && cmd[..9] == CompileHead(swiftc, cfg.target)
      && cmd[0] == swiftc && cmd[2] == "-target" && cmd[3] == cfg.target
      && cmd[9..9 + n] == inputs
      && cmd[9 + n..21 + n] == CompileTail(cfg)
      && cmd[9 + n] == "-output-file-map" && cmd[10 + n] == cfg.outputFileMap
      && cmd[15 + n] == "-emit-module-path" && cmd[16 + n] == SwiftmodulePath(cfg.outdir, cfg.outputModuleName)
      && cmd[17 + n] == "-module-name" && cmd[18 + n] == cfg.outputModuleName
      && cmd[19 + n] == "-module-link-name" && cmd[20 + n] == cfg.outputModuleName
      && cmd[21 + n..] == cfg.swiftcOptions
  {
    var cmd := CompileArgv(cfg, swiftc, inputs);
    var n := |inputs|;
    var head, tail := CompileHead(swiftc, cfg.target), CompileTail(cfg);
    assert cmd == head + inputs + tail + cfg.swiftcOptions;
    assert cmd[..9] == head;
    assert cmd[9..9 + n] == inputs;
    assert cmd[9 + n..21 + n] == tail;
    assert cmd[21 + n..] == cfg.swiftcOptions;
  }

  /** The inputs of the compile command are exactly the slice between
      `-j8` and `-output-file-map`: the command determines them. */
  lemma CompileArgvDeterminesInputs(cfg: Config, swiftc: string, a: seq<string>, b: seq<string>)
    requires |a| == |b|
    requires CompileArgv(cfg, swiftc, a) == CompileArgv(cfg, swiftc, b)
    ensures a == b
  {
    CompileArgvLayout(cfg, swiftc, a);
    CompileArgvLayout(cfg, swiftc, b);
  }

  /** The link command is the linker and four tokens naming the
      architecture and the SDK, `-dynamiclib` for a dynamic library, every
      object file in order, fourteen tokens ending in `-o` and the product,
      and then the extra options in order. */
  lemma LinkArgvLayout(cfg: Config, isysroot: string, staticSdk: string, objects: seq<string>)
    ensures var cmd := LinkArgv(cfg, isysroot, staticSdk, objects);
      var d := if cfg.link == Dylib then 1 else 0;
      var m := |objects|;
      && |cmd| == 19 + d + m + |cfg.linkerOptions|
      && cmd[..5] == LinkHead(cfg.clang, isysroot)
      && cmd[0] == cfg.clang && cmd[4] == isysroot
      && (cfg.link == Dylib ==> cmd[5] == "-dynamiclib")
      && cmd[5 + d..5 + d + m] == objects
      && cmd[5 + d + m..19 + d + m] == LinkTail(cfg, staticSdk)
      && cmd[5 + d + m] == "-L" + staticSdk
      && cmd[12 + d + m] == SwiftmodulePath(cfg.outdir, cfg.outputModuleName)
      && cmd[16 + d + m] == DependencyInfoPath(cfg.outdir, cfg.outputModuleName)
      && cmd[17 + d + m] == "-o" && cmd[18 + d + m] == LinkOutputPath(cfg.outdir, cfg.outputModuleName)
      && cmd[19 + d + m..] == cfg.linkerOptions
  {
    var cmd := LinkArgv(cfg, isysroot, staticSdk, objects);
    var d := if cfg.link == Dylib then 1 else 0;
    var m := |objects|;
    var head, kind, tail := LinkHead(cfg.clang, isysroot), LinkKindFlags(cfg.link), LinkTail(cfg, staticSdk);
    assert |kind| == d;
    assert cmd == head + kind + objects + tail + cfg.linkerOptions;
    assert cmd[..5] == head;
    assert cmd[5..5 + d] == kind;
    assert cmd[5 + d..5 + d + m] == objects;
    assert cmd[5 + d + m..19 + d + m] == tail;
    assert cmd[19 + d + m..] == cfg.linkerOptions;
  }

  /** An object path names a file ending in `.o`. */
  lemma ObjectPathEndsInO(outdir: string, input: string)
    ensures ObjectPath(outdir, input) != ""
    ensures ObjectPath(outdir, input)[|ObjectPath(outdir, input)| - 1] == 'o'
  {
    var name := Stem(input) + ".o";
    JoinShape(outdir, name);
    var r := ObjectPath(outdir, input);
    assert r[|r| - |name|..] == name;
    assert r[|r| - 1] == r[|r| - |name|..][|name| - 1];
  }

  /** With the object files of the file map, the token after the SDK is
      `-dynamiclib` exactly when a dynamic library is linked. */
  lemma DynamiclibIffDylib(cfg: Config, isysroot: string, staticSdk: string, inputs: seq<string>)
    ensures var cmd := LinkArgv(cfg, isysroot, staticSdk, ObjectFilesOf(inputs, cfg.outdir));
      |cmd| > 5 && (cmd[5] == "-dynamiclib" <==> cfg.link == Dylib)
  {
    var objects := ObjectFilesOf(inputs, cfg.outdir);
    var cmd := LinkArgv(cfg, isysroot, staticSdk, objects);
    LinkArgvLayout(cfg, isysroot, staticSdk, objects);
    if cfg.link != Dylib {
      if objects != [] {
        ObjectFilesIndexed(inputs, cfg.outdir);
        ObjectPathEndsInO(cfg.outdir, inputs[0]);
        assert cmd[5] == objects[0];
        assert cmd[5][|cmd[5]| - 1] != "-dynamiclib"[10];
      } else {
        assert cmd[5] == "-L" + staticSdk;
        assert cmd[5][1] != "-dynamiclib"[1];
      }
    }
  }

  /** An executable and a dynamic library are linked by the same command but
      for the one `-dynamiclib` token. */
  lemma DylibAddsOneFlag(cfg: Config, isysroot: string, staticSdk: string, objects: seq<string>)
    requires cfg.link == Executable
    ensures var exe := LinkArgv(cfg, isysroot, staticSdk, objects);
      var lib := LinkArgv(cfg.(link := Dylib), isysroot, staticSdk, objects);
      lib == exe[..5] + ["-dynamiclib"] + exe[5..]
  {
    var exe := LinkArgv(cfg, isysroot, staticSdk, objects);
    var head := LinkHead(cfg.clang, isysroot);
    var rest := objects + LinkTail(cfg, staticSdk) + cfg.linkerOptions;
    assert exe == head + rest;
    assert exe[..5] == head && exe[5..] == rest;
    assert LinkArgv(cfg.(link := Dylib), isysroot, staticSdk, objects) == head + ["-dynamiclib"] + rest;
  }
}
