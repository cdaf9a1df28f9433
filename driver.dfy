/** One run of the build script: the environment every subcommand sees, the
    five steps in their fixed order (create the temporary directory, create
    the output directory, write the output file map, compile, link), and the
    rule that the first failing step ends the run. Whether a step succeeds is
    decided outside the model and given as `succeeds`. */
module Driver {
  import opened PosixPath
  import opened BuildConfig
  import opened PathDefaults
  import opened OutputFileMap
  import opened Commands

  /** Environment variables. */
  type Env = map<string, string>

  /** The Xcode installation every subcommand is pointed at. */
  const DeveloperDir: string := "/Applications/Xcode_9.0.0_fb.app/Contents/Developer"

  /** The macOS SDK inside that installation. */
  const SdkRoot: string :=
    "/Applications/Xcode_9.0.0_fb.app/Contents/Developer/Platforms/MacOSX.platform/Developer/SDKs/MacOSX10.13.sdk"

  /** The process environment with the three variables the script sets:
      those three take the script's values, every other variable keeps the
      value it had. */
  function Overlay(ambient: Env, tmpdir: string): (env: Env)
    ensures env.Keys == ambient.Keys + {"TMPDIR", "DEVELOPER_DIR", "SDKROOT"}
    ensures env["TMPDIR"] == tmpdir
    ensures env["DEVELOPER_DIR"] == DeveloperDir
    ensures env["SDKROOT"] == SdkRoot
    ensures forall k :: k in ambient && k != "TMPDIR" && k != "DEVELOPER_DIR" && k != "SDKROOT" ==> env[k] == ambient[k]
  {
    ambient["TMPDIR" := tmpdir]["DEVELOPER_DIR" := DeveloperDir]["SDKROOT" := SdkRoot]
  }

  /** An action of the run: a subcommand with its environment, or writing
      the output file map to a path. */
  datatype Step =
    | Exec(argv: seq<string>, env: Env)
    | WriteFileMap(path: string, contents: FileMap)

  function MkdirStep(dir: string, env: Env): Step {
    Exec(["mkdir", "-p", dir], env)
  }

  /** The compile step, for the absolute inputs. */
  function CompileStep(cfg: Config, env: Env, inputs: seq<string>): Step {
    Exec(CompileArgv(cfg, Resolve(cfg).swiftc, inputs), env)
  }

  /** The link step, for the object files of the absolute inputs. */
  function LinkStep(cfg: Config, env: Env, inputs: seq<string>): Step {
    var paths := Resolve(cfg);
    Exec(LinkArgv(cfg, paths.isysroot, paths.swiftStaticSdkPath, ObjectFilesOf(inputs, cfg.outdir)), env)
  }

  /** The steps before compilation: both directories, then the file map. */
  function SetupSteps(cfg: Config, env: Env, inputs: seq<string>): seq<Step> {
    [MkdirStep(cfg.tmpdir, env),
     MkdirStep(cfg.outdir, env),
     WriteFileMap(cfg.outputFileMap, FileMapOf(inputs, cfg.outdir, cfg.outputModuleName))]
  }

  /** The compile step, then the link step when linking was asked for. */
  function BuildSteps(cfg: Config, env: Env, inputs: seq<string>): seq<Step> {
    [CompileStep(cfg, env, inputs)] + (if cfg.link == NoLink then [] else [LinkStep(cfg, env, inputs)])
  }

  /** All steps, with the given environment and absolute inputs. */
  function Steps(cfg: Config, env: Env, inputs: seq<string>): seq<Step> {
    SetupSteps(cfg, env, inputs) + BuildSteps(cfg, env, inputs)
  }

  /** Everything a run in `cwd` would do if no step failed, in order. */
  function Plan(cfg: Config, cwd: string, ambient: Env): seq<Step>
    requires IsAbsolute(cwd)
  {
    Steps(cfg, Overlay(ambient, cfg.tmpdir), AbsoluteInputs(cwd, cfg.inputFiles))
  }

  /** The steps actually attempted: the plan up to and including the first
      step that fails. */
  function Executed(plan: seq<Step>, succeeds: Step -> bool): seq<Step>
  {
    if plan == [] then []
    else if succeeds(plan[0]) then [plan[0]] + Executed(plan[1..], succeeds)
    else [plan[0]]
  }

  /** Every planned step succeeds. */
  predicate AllSucceed(steps: seq<Step>, succeeds: Step -> bool) {
    forall i :: 0 <= i < |steps| ==> succeeds(steps[i])
  }

  /** The Swift build directory and the compiler of a run: each option
      when given, its default otherwise. */
  method ResolveCompiler(cfg: Config) returns (swiftBuildDir: string, swiftc: string)
    ensures swiftBuildDir == Resolve(cfg).swiftBuildDir
    ensures swiftc == Resolve(cfg).swiftc
  {
    swiftBuildDir := cfg.swiftRootBuildDir;
    if Given(cfg.swiftBuildDir) {
      swiftBuildDir := cfg.swiftBuildDir.value;
    } else {
      swiftBuildDir := DefaultSwiftBuildPath(cfg.swiftRootBuildDir);
    }
    if Given(cfg.swiftc) {
      swiftc := cfg.swiftc.value;
    } else {
      swiftc := JoinAll(swiftBuildDir, ["bin", "swiftc"]);
    }
  }

  /** The SDK and the static Swift runtime a link uses: each option when
      given, its default otherwise; the runtime's default lies in the Swift
      build directory the run resolved. */
  method ResolveLinkInputs(cfg: Config, swiftBuildDir: string) returns (isysroot: string, staticSdk: string)
    requires swiftBuildDir == Resolve(cfg).swiftBuildDir
    ensures isysroot == Resolve(cfg).isysroot
    ensures staticSdk == Resolve(cfg).swiftStaticSdkPath
  {
    if Given(cfg.isysroot) {
      isysroot := cfg.isysroot.value;
    } else {
      isysroot := JoinAll(cfg.xcodeDeveloperPath, ["Platforms", "MacOSX.platform", "Developer", "SDKs", "MacOSX10.13.sdk"]);
    }
    if Given(cfg.swiftStaticSdkPath) {
      staticSdk := cfg.swiftStaticSdkPath.value;
    } else {
      staticSdk := DefaultSwiftStaticSdkPath(swiftBuildDir);
    }
  }

  /** One run: sets up the environment, creates the directories, writes the
      file map, compiles and, when asked to, links; it stops at the first
      step that fails. `trace` is what was attempted, `ok` whether the run
      completed. */
  method Run(cfg: Config, cwd: string, ambient: Env, succeeds: Step -> bool) returns (trace: seq<Step>, ok: bool)
    requires IsAbsolute(cwd)
    ensures trace == Executed(Plan(cfg, cwd, ambient), succeeds)
    ensures ok <==> AllSucceed(Plan(cfg, cwd, ambient), succeeds)
  {
    var env := ambient;
    env := env["TMPDIR" := cfg.tmpdir];
    env := env["DEVELOPER_DIR" := DeveloperDir];
    env := env["SDKROOT" := SdkRoot];
    ghost var absolute := AbsoluteInputs(cwd, cfg.inputFiles);
    ghost var setup, build := SetupSteps(cfg, env, absolute), BuildSteps(cfg, env, absolute);
    assert Plan(cfg, cwd, ambient) == setup + build;

    var step := MkdirStep(cfg.tmpdir, env);
    trace := [step];
    ok := succeeds(step);
    assert trace == [setup[0]];
    if ok {
      step := MkdirStep(cfg.outdir, env);
      trace := trace + [step];
      ok := succeeds(step);
      assert trace == [setup[0], setup[1]];
    }
    if ok {
      var inputs := AbsoluteInputs(cwd, cfg.inputFiles);
      var fileMap, objectFiles := BuildOutputFileMap(inputs, cfg.outdir, cfg.outputModuleName);
      step := WriteFileMap(cfg.outputFileMap, fileMap);
      trace := trace + [step];
      ok := succeeds(step);
      assert trace == [setup[0], setup[1], setup[2]];
      if ok {
        var rest;
        rest, ok := CompileAndLink(cfg, env, inputs, objectFiles, succeeds);
        trace := trace + rest;
      }
    }
    ExecutedAfterSetup(setup, build, succeeds);
  }

  /** The compile step and, when asked for and the compile succeeded, the
      link step. */
  method CompileAndLink(cfg: Config, env: Env, inputs: seq<string>, objectFiles: seq<string>, succeeds: Step -> bool)
    returns (trace: seq<Step>, ok: bool)
    requires objectFiles == ObjectFilesOf(inputs, cfg.outdir)
    ensures trace == Executed(BuildSteps(cfg, env, inputs), succeeds)
    ensures ok <==> AllSucceed(BuildSteps(cfg, env, inputs), succeeds)
  {
    var swiftBuildDir, swiftc := ResolveCompiler(cfg);
    var cmd := BuildCompileCommand(cfg, swiftc, inputs);
    var compile := Exec(cmd, env);
    trace := [compile];
    ok := succeeds(compile);
    if ok {
      var isysroot, staticSdk := ResolveLinkInputs(cfg, swiftBuildDir);
      var linkCmd := BuildLinkCommand(cfg, isysroot, staticSdk, objectFiles);
      if linkCmd.Some? {
        var step := Exec(linkCmd.value, env);
        trace := trace + [step];
        ok := succeeds(step);
      }
    }
    ExecutedOneOrTwo(BuildSteps(cfg, env, inputs), succeeds);
  }

  // ---------------------------------------------------------------------
  // Lemmas
  // ---------------------------------------------------------------------

  /** When the steps before `k` succeed and step `k` fails, the run has
      attempted exactly the first `k + 1` steps. */
  lemma {:induction false} ExecutedFailsAt(plan: seq<Step>, succeeds: Step -> bool, k: nat)
    requires k < |plan|
    requires forall i :: 0 <= i < k ==> succeeds(plan[i])
    requires !succeeds(plan[k])
    ensures Executed(plan, succeeds) == plan[..k + 1]
    decreases k
  {
    if k > 0 {
      ExecutedFailsAt(plan[1..], succeeds, k - 1);
      assert plan[..k + 1] == [plan[0]] + plan[1..][..k];
    }
  }

  /** When every step succeeds, the run attempts the whole plan. */
  lemma {:induction false} ExecutedAll(plan: seq<Step>, succeeds: Step -> bool)
    requires AllSucceed(plan, succeeds)
    ensures Executed(plan, succeeds) == plan
    decreases |plan|
  {
    if plan != [] {
      assert AllSucceed(plan[1..], succeeds) by {
        forall i | 0 <= i < |plan[1..]| ensures succeeds(plan[1..][i]) {
          assert plan[1..][i] == plan[i + 1];
        }
      }
      ExecutedAll(plan[1..], succeeds);
      assert plan == [plan[0]] + plan[1..];
    }
  }

  /** A failure among the first steps hides every later step. */
  lemma ExecutedStopsInFirst(first: seq<Step>, later: seq<Step>, succeeds: Step -> bool, k: nat)
    requires k < |first|
    requires forall i :: 0 <= i < k ==> succeeds(first[i])
    requires !succeeds(first[k])
    ensures Executed(first + later, succeeds) == first[..k + 1]
    ensures !AllSucceed(first + later, succeeds)
  {
    var plan := first + later;
    assert forall i :: 0 <= i <= k ==> plan[i] == first[i];
    ExecutedFailsAt(plan, succeeds, k);
    assert plan[..k + 1] == first[..k + 1];
  }

  /** Once the first steps have all succeeded, the run goes on with the
      later steps as if they were the whole plan. */
  lemma {:induction false} ExecutedAfter(first: seq<Step>, later: seq<Step>, succeeds: Step -> bool)
    requires AllSucceed(first, succeeds)
    ensures Executed(first + later, succeeds) == first + Executed(later, succeeds)
    ensures AllSucceed(first + later, succeeds) <==> AllSucceed(later, succeeds)
    decreases |first|
  {
    if first != [] {
      var plan := first + later;
      assert plan[0] == first[0];
      assert plan[1..] == first[1..] + later;
      assert AllSucceed(first[1..], succeeds) by {
        forall i | 0 <= i < |first[1..]| ensures succeeds(first[1..][i]) {
          assert first[1..][i] == first[i + 1];
        }
      }
      ExecutedAfter(first[1..], later, succeeds);
      assert first == [first[0]] + first[1..];
      if AllSucceed(later, succeeds) {
        forall i | 0 <= i < |plan| ensures succeeds(plan[i]) {
          if i >= |first| { assert plan[i] == later[i - |first|]; }
          else { assert plan[i] == first[i]; }
        }
      }
      if AllSucceed(plan, succeeds) {
        forall i | 0 <= i < |later| ensures succeeds(later[i]) {
          assert later[i] == plan[i + |first|];
        }
      }
    } else {
      assert first + later == later;
    }
  }

  /** A plan of one or two steps, written out. */
  lemma ExecutedOneOrTwo(steps: seq<Step>, succeeds: Step -> bool)
    requires 1 <= |steps| <= 2
    ensures Executed(steps, succeeds) ==
      if !succeeds(steps[0]) || |steps| == 1 then [steps[0]] else steps
    ensures AllSucceed(steps, succeeds) <==> succeeds(steps[0]) && (|steps| == 2 ==> succeeds(steps[1]))
  {
    if |steps| == 2 && succeeds(steps[0]) {
      assert steps[1..] == [steps[1]];
      assert steps == [steps[0], steps[1]];
    }
  }

  /** A plan of three steps followed by more, written out: it stops after
      the first of the three that fails, and otherwise goes on with the rest. */
  lemma ExecutedAfterSetup(setup: seq<Step>, later: seq<Step>, succeeds: Step -> bool)
    requires |setup| == 3
    ensures Executed(setup + later, succeeds) ==
      if !succeeds(setup[0]) then [setup[0]]
      else if !succeeds(setup[1]) then [setup[0], setup[1]]
      else if !succeeds(setup[2]) then setup
      else setup + Executed(later, succeeds)
    ensures AllSucceed(setup + later, succeeds) <==>
      succeeds(setup[0]) && succeeds(setup[1]) && succeeds(setup[2]) && AllSucceed(later, succeeds)
  {
    if !succeeds(setup[0]) {
      ExecutedStopsInFirst(setup, later, succeeds, 0);
      assert setup[..1] == [setup[0]];
    } else if !succeeds(setup[1]) {
      ExecutedStopsInFirst(setup, later, succeeds, 1);
      assert setup[..2] == [setup[0], setup[1]];
    } else if !succeeds(setup[2]) {
      ExecutedStopsInFirst(setup, later, succeeds, 2);
      assert setup[..3] == setup;
    } else {
      ExecutedAfter(setup, later, succeeds);
    }
  }

  /** What was attempted is a non-empty prefix of the plan (when the plan is
      non-empty) in which every step but the last succeeded; and it stops
      short of the plan only after a step that failed. */
  lemma {:induction false} ExecutedIsPrefix(plan: seq<Step>, succeeds: Step -> bool)
    ensures var e := Executed(plan, succeeds);
      && |e| <= |plan| && e == plan[..|e|]
      && (plan != [] ==> e != [])
      && (forall i :: 0 <= i < |e| - 1 ==> succeeds(e[i]))
      && (|e| < |plan| ==> !succeeds(e[|e| - 1]))
    decreases |plan|
  {
    if plan != [] && succeeds(plan[0]) {
      var rest := Executed(plan[1..], succeeds);
      ExecutedIsPrefix(plan[1..], succeeds);
      var e := Executed(plan, succeeds);
      assert e == [plan[0]] + rest;
      assert plan[..|e|] == [plan[0]] + plan[1..][..|rest|];
      forall i | 0 <= i < |e| - 1 ensures succeeds(e[i]) {
        if i > 0 { assert e[i] == rest[i - 1]; }
      }
      if |e| < |plan| {
        assert e[|e| - 1] == rest[|rest| - 1];
      }
    }
  }

  /** Every attempted step succeeded exactly when every planned step
      succeeds, and then the whole plan was attempted. */
  lemma ExecutedSucceedsIff(plan: seq<Step>, succeeds: Step -> bool)
    ensures AllSucceed(Executed(plan, succeeds), succeeds) <==> AllSucceed(plan, succeeds)
    ensures AllSucceed(plan, succeeds) ==> Executed(plan, succeeds) == plan
  {
    var e := Executed(plan, succeeds);
    ExecutedIsPrefix(plan, succeeds);
    if AllSucceed(plan, succeeds) {
      ExecutedAll(plan, succeeds);
    }
    if AllSucceed(e, succeeds) && plan != [] {
      assert succeeds(e[|e| - 1]);
      assert |e| == |plan|;
      assert e == plan;
    }
  }

  /** The steps are four, or five when linking: the two directories, the
      file map, the compile command, then the link command. */
  lemma StepsOrder(cfg: Config, env: Env, inputs: seq<string>)
    ensures var steps := Steps(cfg, env, inputs);
      && |steps| == (if cfg.link == NoLink then 4 else 5)
      && steps[0] == Exec(["mkdir", "-p", cfg.tmpdir], env)
      && steps[1] == Exec(["mkdir", "-p", cfg.outdir], env)
      && steps[2] == WriteFileMap(cfg.outputFileMap, FileMapOf(inputs, cfg.outdir, cfg.outputModuleName))
      && steps[3] == CompileStep(cfg, env, inputs) && steps[3].argv[0] == Resolve(cfg).swiftc
      && (cfg.link != NoLink ==> steps[4] == LinkStep(cfg, env, inputs) && steps[4].argv[0] == cfg.clang)
  {
  }

  /** Every subcommand of a run sees the overlaid environment. */
  lemma PlanEnvironment(cfg: Config, cwd: string, ambient: Env)
    requires IsAbsolute(cwd)
    ensures forall i :: 0 <= i < |Plan(cfg, cwd, ambient)| && Plan(cfg, cwd, ambient)[i].Exec? ==>
      Plan(cfg, cwd, ambient)[i].env == Overlay(ambient, cfg.tmpdir)
  {
    var env := Overlay(ambient, cfg.tmpdir);
    StepsEnvironment(cfg, env, AbsoluteInputs(cwd, cfg.inputFiles));
  }

  lemma StepsEnvironment(cfg: Config, env: Env, inputs: seq<string>)
    ensures forall i :: 0 <= i < |Steps(cfg, env, inputs)| && Steps(cfg, env, inputs)[i].Exec? ==>
      Steps(cfg, env, inputs)[i].env == env
  {
    var steps := Steps(cfg, env, inputs);
    StepsOrder(cfg, env, inputs);
    forall i | 0 <= i < |steps| && steps[i].Exec? ensures steps[i].env == env {
      if i == 3 {
        assert steps[3] == CompileStep(cfg, env, inputs);
      } else if i == 4 {
        assert steps[4] == LinkStep(cfg, env, inputs);
      }
    }
  }

  /** The compiler runs only after both directories were created and the
      file map was written; nothing is linked unless the compile succeeded;
      and nothing is linked when linking was not asked for. */
  lemma CompileAndLinkGuards(cfg: Config, env: Env, inputs: seq<string>, succeeds: Step -> bool)
    ensures var steps := Steps(cfg, env, inputs);
      var e := Executed(steps, succeeds);
      && (|e| > 3 ==> succeeds(steps[0]) && succeeds(steps[1]) && succeeds(steps[2]) && e[3] == CompileStep(cfg, env, inputs))
      && (|e| > 4 ==> succeeds(steps[3]) && cfg.link != NoLink && e[4] == LinkStep(cfg, env, inputs))
      && (!succeeds(CompileStep(cfg, env, inputs)) ==> |e| <= 4)
      && (cfg.link == NoLink ==> |e| <= 4)
  {
    var steps := Steps(cfg, env, inputs);
    ExecutedIsPrefix(steps, succeeds);
    StepsOrder(cfg, env, inputs);
    var e := Executed(steps, succeeds);
    if |e| > 3 {
      assert e[0] == steps[0] && e[1] == steps[1] && e[2] == steps[2];
    }
    if |e| > 4 {
      assert e[3] == steps[3];
    }
  }
}
