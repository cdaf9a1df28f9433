/** Where the toolchain lives: the fixed default locations inside a Swift
    source build and an Xcode installation, and the rule that an explicit
    option always wins over the derived default. */
module PathDefaults {
  import opened PosixPath
  import opened BuildConfig

  /** The SDK inside an Xcode developer directory. */
  function DefaultIsysrootPath(xcodePath: string): string {
    JoinAll(xcodePath, ["Platforms", "MacOSX.platform", "Developer", "SDKs", "MacOSX10.13.sdk"])
  }

  /** The Swift build inside a root build directory. */
  function DefaultSwiftBuildPath(buildDir: string): string {
    Join(buildDir, "swift-macosx-x86_64")
  }

  /** The static runtime libraries inside a Swift build directory. */
  function DefaultSwiftStaticSdkPath(buildDir: string): string {
    JoinAll(buildDir, ["lib", "swift_static", "macosx"])
  }

  /** The compiler inside a Swift build directory. */
  function DefaultSwiftcPath(buildDir: string): string {
    JoinAll(buildDir, ["bin", "swiftc"])
  }

  /** The Clang inside a root build directory; it only feeds the default of
      the `--clang` option. */
  function DefaultClangPath(buildDir: string): string {
    JoinAll(buildDir, ["llvm-macosx-x86_64", "bin", "clang"])
  }

  /** The four locations the run resolves from its options. */
  datatype ResolvedPaths = ResolvedPaths(
    swiftBuildDir: string,
    swiftc: string,
    isysroot: string,
    swiftStaticSdkPath: string
  )

  /** The explicit value when it is given, the derived one otherwise. */
  function OrElse(explicit: Option<string>, derived: string): string {
    if Given(explicit) then explicit.value else derived
  }

  /** Resolution of the toolchain locations: each option wins when given;
      otherwise it is derived from the already resolved parent. In
      particular the static SDK path comes from the resolved Swift build
      directory, not from the root build directory. */
  function Resolve(cfg: Config): (r: ResolvedPaths)
    ensures Given(cfg.swiftBuildDir) ==> r.swiftBuildDir == cfg.swiftBuildDir.value
    ensures !Given(cfg.swiftBuildDir) ==> r.swiftBuildDir == DefaultSwiftBuildPath(cfg.swiftRootBuildDir)
    ensures Given(cfg.swiftc) ==> r.swiftc == cfg.swiftc.value
    ensures !Given(cfg.swiftc) ==> r.swiftc == DefaultSwiftcPath(r.swiftBuildDir)
    ensures Given(cfg.isysroot) ==> r.isysroot == cfg.isysroot.value
    ensures !Given(cfg.isysroot) ==> r.isysroot == DefaultIsysrootPath(cfg.xcodeDeveloperPath)
    ensures Given(cfg.swiftStaticSdkPath) ==> r.swiftStaticSdkPath == cfg.swiftStaticSdkPath.value
    ensures !Given(cfg.swiftStaticSdkPath) ==> r.swiftStaticSdkPath == DefaultSwiftStaticSdkPath(r.swiftBuildDir)
  {
    var swiftBuildDir := OrElse(cfg.swiftBuildDir, DefaultSwiftBuildPath(cfg.swiftRootBuildDir));
    ResolvedPaths(
      swiftBuildDir,
      OrElse(cfg.swiftc, DefaultSwiftcPath(swiftBuildDir)),
      OrElse(cfg.isysroot, DefaultIsysrootPath(cfg.xcodeDeveloperPath)),
      OrElse(cfg.swiftStaticSdkPath, DefaultSwiftStaticSdkPath(swiftBuildDir)))
  }

  // ---------------------------------------------------------------------
  // Lemmas
  // ---------------------------------------------------------------------

  /** Each default is its base directory followed by the fixed components,
      one separator apart, when the base does not already end in one. */
  lemma DefaultIsysrootLayout(dir: string)
    requires dir != "" && dir[|dir| - 1] != '/'
    ensures DefaultIsysrootPath(dir) ==
      dir + "/" + "Platforms" + "/" + "MacOSX.platform" + "/" + "Developer" + "/" + "SDKs" + "/" + "MacOSX10.13.sdk"
  {
    var d1 := dir + "/" + "Platforms";
    var d2 := d1 + "/" + "MacOSX.platform";
    var d3 := d2 + "/" + "Developer";
    var d4 := d3 + "/" + "SDKs";
    JoinStep(dir, "Platforms");
    JoinStep(d1, "MacOSX.platform");
    JoinStep(d2, "Developer");
    JoinStep(d3, "SDKs");
    JoinStep(d4, "MacOSX10.13.sdk");
  }

  lemma DefaultSwiftBuildLayout(dir: string)
    requires dir != "" && dir[|dir| - 1] != '/'
    ensures DefaultSwiftBuildPath(dir) == dir + "/" + "swift-macosx-x86_64"
  {
    JoinStep(dir, "swift-macosx-x86_64");
  }

  lemma DefaultSwiftStaticSdkLayout(dir: string)
    requires dir != "" && dir[|dir| - 1] != '/'
    ensures DefaultSwiftStaticSdkPath(dir) == dir + "/" + "lib" + "/" + "swift_static" + "/" + "macosx"
  {
    JoinStep(dir, "lib");
    JoinStep(dir + "/" + "lib", "swift_static");
    JoinStep(dir + "/" + "lib" + "/" + "swift_static", "macosx");
  }

  lemma DefaultSwiftcLayout(dir: string)
    requires dir != "" && dir[|dir| - 1] != '/'
    ensures DefaultSwiftcPath(dir) == dir + "/" + "bin" + "/" + "swiftc"
  {
    JoinStep(dir, "bin");
    JoinStep(dir + "/" + "bin", "swiftc");
  }

  lemma DefaultClangLayout(dir: string)
    requires dir != "" && dir[|dir| - 1] != '/'
    ensures DefaultClangPath(dir) == dir + "/" + "llvm-macosx-x86_64" + "/" + "bin" + "/" + "clang"
  {
    JoinStep(dir, "llvm-macosx-x86_64");
    JoinStep(dir + "/" + "llvm-macosx-x86_64", "bin");
    JoinStep(dir + "/" + "llvm-macosx-x86_64" + "/" + "bin", "clang");
  }

  /** With nothing given and a root build directory that does not end in a
      separator, the compiler is `root/swift-macosx-x86_64/bin/swiftc` and
      the static SDK is `root/swift-macosx-x86_64/lib/swift_static/macosx`. */
  lemma DefaultsFromRoot(cfg: Config)
    requires cfg.swiftRootBuildDir != "" && cfg.swiftRootBuildDir[|cfg.swiftRootBuildDir| - 1] != '/'
    requires !Given(cfg.swiftBuildDir) && !Given(cfg.swiftc) && !Given(cfg.swiftStaticSdkPath)
    ensures Resolve(cfg).swiftBuildDir == cfg.swiftRootBuildDir + "/" + "swift-macosx-x86_64"
    ensures Resolve(cfg).swiftc == cfg.swiftRootBuildDir + "/" + "swift-macosx-x86_64" + "/" + "bin" + "/" + "swiftc"
    ensures Resolve(cfg).swiftStaticSdkPath ==
      cfg.swiftRootBuildDir + "/" + "swift-macosx-x86_64" + "/" + "lib" + "/" + "swift_static" + "/" + "macosx"
  {
    var b := cfg.swiftRootBuildDir + "/" + "swift-macosx-x86_64";
    DefaultSwiftBuildLayout(cfg.swiftRootBuildDir);
    assert b[|b| - 1] == '4';
    DefaultSwiftcLayout(b);
    DefaultSwiftStaticSdkLayout(b);
  }

  /** An explicit Swift build directory makes the compiler and static SDK
      locations independent of the root build directory. */
  lemma ExplicitBuildDirIgnoresRoot(cfg: Config, root: string)
    requires Given(cfg.swiftBuildDir)
    ensures Resolve(cfg.(swiftRootBuildDir := root)) == Resolve(cfg)
  {
  }

  /** An explicit value wins however the values it would be derived from are set. */
  lemma ExplicitSwiftcWins(cfg: Config, root: string, build: Option<string>)
    requires Given(cfg.swiftc)
    ensures Resolve(cfg.(swiftRootBuildDir := root, swiftBuildDir := build)).swiftc == cfg.swiftc.value
  {
  }
}
