/** The parsed command line of the build script, taken as given: the
    record that argument parsing hands to the rest of the run. */
module BuildConfig {

  datatype Option<T> = None | Some(value: T)

  /** How the compiled module is linked afterwards, if at all (`--link`). */
  datatype LinkMode = NoLink | Executable | Dylib

  /** An optional path option counts as given when it is present and is not
      the empty string: Python treats both `None` and `""` as false. */
  predicate Given(o: Option<string>) {
    o.Some? && o.value != ""
  }

  /** The parsed arguments. Options the parser always fills in (through a
      default) are plain strings; options without a default are `Option`s.  */
  datatype Config = Config(
    inputFiles: seq<string>,
    swiftRootBuildDir: string,
    swiftBuildDir: Option<string>,
    outputModuleName: string,
    tmpdir: string,
    swiftc: Option<string>,
    target: string,
    outdir: string,
    outputFileMap: string,
    swiftcOptions: seq<string>,
    link: LinkMode,
    clang: string,
    xcodeDeveloperPath: string,
    isysroot: Option<string>,
    swiftStaticSdkPath: Option<string>,
    linkerOptions: seq<string>
  )
}
