/** The output file map handed to the Swift driver: for every input file
    the paths of the six artifacts the incremental build keeps for it, plus
    one entry under the empty key for the module-wide dependency graph; and,
    beside it, the object files in input order for the link step. */
module OutputFileMap {
  import opened PosixPath

  /** Artifact kind to artifact path. */
  type Entry = map<string, string>

  /** Input path (or the empty key) to its entry. */
  type FileMap = map<string, Entry>

  /** The inputs as the driver sees them: each one made absolute, so that two
      spellings of one file name one key. */
  function AbsoluteInputs(cwd: string, files: seq<string>): (r: seq<string>)
    requires IsAbsolute(cwd)
    ensures |r| == |files|
  {
    seq(|files|, i requires 0 <= i < |files| => Abspath(cwd, files[i]))
  }

  /** Each input is made absolute on its own, in place, and none becomes
      the empty key. */
  lemma AbsoluteInputsSpec(cwd: string, files: seq<string>)
    requires IsAbsolute(cwd)
    ensures forall i :: 0 <= i < |files| ==>
      AbsoluteInputs(cwd, files)[i] == Abspath(cwd, files[i]) && IsAbsolute(AbsoluteInputs(cwd, files)[i])
    ensures "" !in AbsoluteInputs(cwd, files)
  {
  }

  /** The object file of one input. */
  function ObjectPath(outdir: string, input: string): string {
    Join(outdir, Stem(input) + ".o")
  }

  /** The entry of one input: six artifact paths in the output directory,
      all named after the input's stem. */
  function InputEntry(outdir: string, input: string): Entry {
    var base := Stem(input);
    map[
      "swiftmodule" := Join(outdir, base + "~partial.swiftmodule"),
      "object" := Join(outdir, base + ".o"),
      "llvm-bc" := Join(outdir, base + ".bc"),
      "diagnostics" := Join(outdir, base + ".dia"),
      "dependencies" := Join(outdir, base + ".d"),
      "swift-dependencies" := Join(outdir, base + ".swiftdeps")
    ]
  }

  /** The entry under the empty key: only the module's dependency graph. */
  function SentinelEntry(outdir: string, moduleName: string): Entry {
    map["swift-dependencies" := Join(outdir, moduleName + "-master.swiftdeps")]
  }

  /** The file map after the inputs have been entered one after the other. */
  function FileMapOf(inputs: seq<string>, outdir: string, moduleName: string): FileMap
    decreases |inputs|
  {
    if inputs == [] then map["" := SentinelEntry(outdir, moduleName)]
    else FileMapOf(inputs[..|inputs| - 1], outdir, moduleName)[inputs[|inputs| - 1] := InputEntry(outdir, inputs[|inputs| - 1])]
  }

  /** The object files after the inputs have been visited one after the other. */
  function ObjectFilesOf(inputs: seq<string>, outdir: string): seq<string>
    decreases |inputs|
  {
    if inputs == [] then []
    else ObjectFilesOf(inputs[..|inputs| - 1], outdir) + [ObjectPath(outdir, inputs[|inputs| - 1])]
  }

  /** The set of strings occurring in `s`. */
  function Elements(s: seq<string>): set<string> {
    set x | x in s
  }

  /** Builds the file map and the object list, one input at a time. */
  method BuildOutputFileMap(inputs: seq<string>, outdir: string, moduleName: string)
    returns (fileMap: FileMap, objectFiles: seq<string>)
    ensures fileMap == FileMapOf(inputs, outdir, moduleName)
    ensures objectFiles == ObjectFilesOf(inputs, outdir)
    ensures |objectFiles| == |inputs|
  {
    fileMap := map["" := map["swift-dependencies" := Join(outdir, moduleName + "-master.swiftdeps")]];
    objectFiles := [];
    for i := 0 to |inputs|
      invariant fileMap == FileMapOf(inputs[..i], outdir, moduleName)
      invariant objectFiles == ObjectFilesOf(inputs[..i], outdir)
    {
      var input := inputs[i];
      var objectFile := ObjectPath(outdir, input);
      objectFiles := objectFiles + [objectFile];
      fileMap := fileMap[input := InputEntry(outdir, input)];
      assert inputs[..i + 1][..i] == inputs[..i];
    }
    assert inputs[..|inputs|] == inputs;
    ObjectFilesIndexed(inputs, outdir);
  }

  // ---------------------------------------------------------------------
  // Lemmas
  // ---------------------------------------------------------------------

  /** The keys are the empty key and the inputs, each input once however
      often it occurs. */
  lemma {:induction false} FileMapKeys(inputs: seq<string>, outdir: string, moduleName: string)
    ensures FileMapOf(inputs, outdir, moduleName).Keys == {""} + Elements(inputs)
    decreases |inputs|
  {
    if inputs != [] {
      var front := inputs[..|inputs| - 1];
      FileMapKeys(front, outdir, moduleName);
      assert inputs == front + [inputs[|inputs| - 1]];
      assert Elements(inputs) == Elements(front) + {inputs[|inputs| - 1]};
    }
  }

  /** Every input maps to its own entry (a later write of the same key
      writes the same entry), and the empty key keeps the sentinel as long as
      no input is the empty string. */
  lemma {:induction false} FileMapEntries(inputs: seq<string>, outdir: string, moduleName: string)
    ensures forall i :: 0 <= i < |inputs| ==>
              (inputs[i] in FileMapOf(inputs, outdir, moduleName) &&
               FileMapOf(inputs, outdir, moduleName)[inputs[i]] == InputEntry(outdir, inputs[i]))
    ensures "" !in inputs ==>
              ("" in FileMapOf(inputs, outdir, moduleName) &&
               FileMapOf(inputs, outdir, moduleName)[""] == SentinelEntry(outdir, moduleName))
    decreases |inputs|
  {
    if inputs != [] {
      var front := inputs[..|inputs| - 1];
      var last := inputs[|inputs| - 1];
      FileMapEntries(front, outdir, moduleName);
      var m := FileMapOf(front, outdir, moduleName);
      assert FileMapOf(inputs, outdir, moduleName) == m[last := InputEntry(outdir, last)];
      forall i | 0 <= i < |inputs| - 1
        ensures inputs[i] in FileMapOf(inputs, outdir, moduleName)
        ensures FileMapOf(inputs, outdir, moduleName)[inputs[i]] == InputEntry(outdir, inputs[i])
      {
        assert front[i] == inputs[i];
      }
      assert "" !in inputs ==> "" !in front && last != "" by {
        if "" !in inputs {
          assert last in inputs;
          assert forall j :: 0 <= j < |front| ==> front[j] == inputs[j];
        }
      }
    }
  }

  /** The map has one entry per distinct input plus the sentinel. */
  lemma FileMapSize(inputs: seq<string>, outdir: string, moduleName: string)
    requires "" !in inputs
    ensures |FileMapOf(inputs, outdir, moduleName)| == |Elements(inputs)| + 1
  {
    FileMapKeys(inputs, outdir, moduleName);
    var m := FileMapOf(inputs, outdir, moduleName);
    assert m.Keys == Elements(inputs) + {""};
    assert |m.Keys| == |m|;
  }

  /** With no repeated input, the map has exactly one entry more than there
      are inputs. */
  lemma {:induction false} DistinctInputsSize(inputs: seq<string>, outdir: string, moduleName: string)
    requires "" !in inputs
    requires forall i, j :: 0 <= i < j < |inputs| ==> inputs[i] != inputs[j]
    ensures |FileMapOf(inputs, outdir, moduleName)| == |inputs| + 1
  {
    FileMapSize(inputs, outdir, moduleName);
    DistinctElements(inputs);
  }

  lemma {:induction false} DistinctElements(s: seq<string>)
    requires forall i, j :: 0 <= i < j < |s| ==> s[i] != s[j]
    ensures |Elements(s)| == |s|
    decreases |s|
  {
    if s != [] {
      var front := s[..|s| - 1];
      DistinctElements(front);
      assert s == front + [s[|s| - 1]];
      assert Elements(s) == Elements(front) + {s[|s| - 1]};
      assert s[|s| - 1] !in Elements(front);
    }
  }

  /** One object file per input, duplicates included, in input order. */
  lemma {:induction false} ObjectFilesIndexed(inputs: seq<string>, outdir: string)
    ensures |ObjectFilesOf(inputs, outdir)| == |inputs|
    ensures forall i :: 0 <= i < |inputs| ==> ObjectFilesOf(inputs, outdir)[i] == ObjectPath(outdir, inputs[i])
    decreases |inputs|
  {
    if inputs != [] {
      var front := inputs[..|inputs| - 1];
      ObjectFilesIndexed(front, outdir);
      var objs := ObjectFilesOf(front, outdir);
      assert ObjectFilesOf(inputs, outdir) == objs + [ObjectPath(outdir, inputs[|inputs| - 1])];
      assert forall i :: 0 <= i < |front| ==> front[i] == inputs[i];
    }
  }

  /** The `object` artifact of each input's entry is that input's element of
      the object list. */
  lemma ObjectFilesMatchEntries(inputs: seq<string>, outdir: string, moduleName: string)
    ensures |ObjectFilesOf(inputs, outdir)| == |inputs|
    ensures forall i :: 0 <= i < |inputs| ==>
      inputs[i] in FileMapOf(inputs, outdir, moduleName) &&
      "object" in FileMapOf(inputs, outdir, moduleName)[inputs[i]] &&
      FileMapOf(inputs, outdir, moduleName)[inputs[i]]["object"] == ObjectFilesOf(inputs, outdir)[i]
  {
    FileMapEntries(inputs, outdir, moduleName);
    ObjectFilesIndexed(inputs, outdir);
    forall i | 0 <= i < |inputs|
      ensures "object" in InputEntry(outdir, inputs[i])
      ensures InputEntry(outdir, inputs[i])["object"] == ObjectPath(outdir, inputs[i])
    {
      InputEntryShape(outdir, inputs[i]);
    }
  }

  /** An input's entry has exactly the six artifact kinds, each a path in
      the output directory named after the input's stem and the kind's suffix. */
  lemma InputEntryShape(outdir: string, input: string)
    ensures InputEntry(outdir, input).Keys ==
      {"swiftmodule", "object", "llvm-bc", "diagnostics", "dependencies", "swift-dependencies"}
    ensures var e := InputEntry(outdir, input);
      && e["swiftmodule"] == Join(outdir, Stem(input) + "~partial.swiftmodule")
      && e["object"] == Join(outdir, Stem(input) + ".o") == ObjectPath(outdir, input)
      && e["llvm-bc"] == Join(outdir, Stem(input) + ".bc")
      && e["diagnostics"] == Join(outdir, Stem(input) + ".dia")
      && e["dependencies"] == Join(outdir, Stem(input) + ".d")
      && e["swift-dependencies"] == Join(outdir, Stem(input) + ".swiftdeps")
  {
  }

  /** The sentinel entry has the one kind `swift-dependencies`, the module's
      `-master.swiftdeps` file in the output directory. */
  lemma SentinelEntryShape(outdir: string, moduleName: string)
    ensures SentinelEntry(outdir, moduleName).Keys == {"swift-dependencies"}
    ensures SentinelEntry(outdir, moduleName)["swift-dependencies"] == Join(outdir, moduleName + "-master.swiftdeps")
  {
  }

  /** The stem of a path has no separator. */
  lemma StemHasNoSeparator(input: string)
    ensures '/' !in Stem(input)
  {
    var base := Stem(input);
    var name := Basename(input);
    BasenameSpec(input);
    SplitextRootSpec(name);
    assert forall j :: 0 <= j < |base| ==> base[j] == name[j] && name[j] != '/';
  }

  /** A suffix without separators keeps the artifact directly in the output
      directory: its basename is the stem followed by the suffix. */
  lemma ArtifactBasename(outdir: string, input: string, suffix: string)
    requires '/' !in suffix
    ensures Basename(Join(outdir, Stem(input) + suffix)) == Stem(input) + suffix
  {
    StemHasNoSeparator(input);
    var name := Stem(input) + suffix;
    assert forall j :: 0 <= j < |name| ==> name[j] != '/' by {
      forall j | 0 <= j < |name| ensures name[j] != '/' {
        if j < |Stem(input)| {
          assert name[j] == Stem(input)[j];
        } else {
          assert name[j] == suffix[j - |Stem(input)|];
        }
      }
    }
    BasenameOfJoin(outdir, name);
  }

  /** Every artifact of an input is a file directly in the output directory,
      named after the input's stem with the artifact's suffix. */
  lemma InputEntryArtifacts(outdir: string, input: string)
    ensures var e := InputEntry(outdir, input);
      && Basename(e["swiftmodule"]) == Stem(input) + "~partial.swiftmodule"
      && Basename(e["object"]) == Stem(input) + ".o"
      && Basename(e["llvm-bc"]) == Stem(input) + ".bc"
      && Basename(e["diagnostics"]) == Stem(input) + ".dia"
      && Basename(e["dependencies"]) == Stem(input) + ".d"
      && Basename(e["swift-dependencies"]) == Stem(input) + ".swiftdeps"
  {
    InputEntryShape(outdir, input);
    ArtifactBasename(outdir, input, "~partial.swiftmodule");
    ArtifactBasename(outdir, input, ".o");
    ArtifactBasename(outdir, input, ".bc");
    ArtifactBasename(outdir, input, ".dia");
    ArtifactBasename(outdir, input, ".d");
    ArtifactBasename(outdir, input, ".swiftdeps");
  }

  /** Two inputs in different directories with the same file name get the
      same entry: nothing keeps their artifacts apart. */
  lemma SameStemSameArtifacts(outdir: string, a: string, b: string)
    requires Stem(a) == Stem(b)
    ensures InputEntry(outdir, a) == InputEntry(outdir, b)
    ensures ObjectPath(outdir, a) == ObjectPath(outdir, b)
  {
  }

  /** A file name made of a stem, a dot and an extension, where the stem
      does not start with a dot and the extension has none. */
  predicate IsSourceName(stem: string, ext: string) {
    IsClean(stem) && stem[0] != '.' && IsClean(ext) && '.' !in ext
  }

  lemma SourceNameIsClean(stem: string, ext: string)
    requires IsSourceName(stem, ext)
    ensures IsClean(stem + "." + ext)
  {
    var name := stem + "." + ext;
    forall j | 0 <= j < |name| ensures name[j] != '/' {
      if j < |stem| { assert name[j] == stem[j]; assert stem[j] in stem; }
      else if j > |stem| { assert name[j] == ext[j - |stem| - 1]; assert ext[j - |stem| - 1] in ext; }
    }
    assert |name| >= 3;
  }

  /** The stem of `dir/stem.ext` is `stem`. */
  lemma StemOfSourceFile(dir: string, stem: string, ext: string)
    requires IsSourceName(stem, ext)
    ensures Stem(dir + "/" + stem + "." + ext) == stem
  {
    var name := stem + "." + ext;
    SourceNameIsClean(stem, ext);
    assert dir + "/" + stem + "." + ext == (dir + "/") + name;
    BasenameAfterSlash(dir + "/", name);
    assert '/' !in stem && '/' !in ext;
    assert stem[0] != '.';
    SplitextRootOfExtension(stem, ext);
  }

  /** Two source files named relative to a normal working directory: the map
      is keyed by the empty key and the two absolute paths, and the object
      files are `stem.o` in the output directory, in input order. */
  lemma TwoInputsScenario(cwd: string, dirs: seq<string>, a: string, b: string, ext: string,
                          outdir: string, moduleName: string)
    requires IsNormalDir(cwd, dirs)
    requires IsSourceName(a, ext) && IsSourceName(b, ext) && a != b
    ensures var inputs := AbsoluteInputs(cwd, [a + "." + ext, b + "." + ext]);
      && inputs == [cwd + "/" + a + "." + ext, cwd + "/" + b + "." + ext]
      && FileMapOf(inputs, outdir, moduleName).Keys == {"", inputs[0], inputs[1]}
      && |FileMapOf(inputs, outdir, moduleName).Keys| == 3
      && ObjectFilesOf(inputs, outdir) == [Join(outdir, a + ".o"), Join(outdir, b + ".o")]
  {
    var x, y := cwd + "/" + a + "." + ext, cwd + "/" + b + "." + ext;
    TwoInputsAbsolute(cwd, dirs, a, b, ext);
    DistinctInDir(cwd, a, b, ext);
    TwoInputsKeys(x, y, outdir, moduleName);
    StemOfSourceFile(cwd, a, ext);
    StemOfSourceFile(cwd, b, ext);
    TwoInputsObjects(x, y, outdir);
  }

  lemma TwoInputsAbsolute(cwd: string, dirs: seq<string>, a: string, b: string, ext: string)
    requires IsNormalDir(cwd, dirs)
    requires IsSourceName(a, ext) && IsSourceName(b, ext)
    ensures AbsoluteInputs(cwd, [a + "." + ext, b + "." + ext]) == [cwd + "/" + a + "." + ext, cwd + "/" + b + "." + ext]
  {
    AbsoluteInputsOfPair(cwd, a + "." + ext, b + "." + ext);
    AbsoluteSourceFile(cwd, dirs, a, ext);
    AbsoluteSourceFile(cwd, dirs, b, ext);
  }

  lemma AbsoluteInputsOfPair(cwd: string, x: string, y: string)
    requires IsAbsolute(cwd)
    ensures AbsoluteInputs(cwd, [x, y]) == [Abspath(cwd, x), Abspath(cwd, y)]
  {
    AbsoluteInputsSpec(cwd, [x, y]);
  }

  lemma AbsoluteSourceFile(cwd: string, dirs: seq<string>, stem: string, ext: string)
    requires IsNormalDir(cwd, dirs) && IsSourceName(stem, ext)
    ensures Abspath(cwd, stem + "." + ext) == cwd + "/" + stem + "." + ext
  {
    SourceNameIsClean(stem, ext);
    AbspathOfRelativeName(cwd, dirs, stem + "." + ext);
    assert cwd + "/" + (stem + "." + ext) == cwd + "/" + stem + "." + ext;
  }

  lemma DistinctInDir(cwd: string, a: string, b: string, ext: string)
    requires a != b
    ensures cwd + "/" + a + "." + ext != cwd + "/" + b + "." + ext
  {
    var x, y := cwd + "/" + a + "." + ext, cwd + "/" + b + "." + ext;
    if |a| == |b| {
      var j :| 0 <= j < |a| && a[j] != b[j];
      assert x[|cwd| + 1 + j] == a[j];
      assert y[|cwd| + 1 + j] == b[j];
    } else {
      assert |x| != |y|;
    }
  }

  lemma TwoInputsKeys(x: string, y: string, outdir: string, moduleName: string)
    ensures FileMapOf([x, y], outdir, moduleName).Keys == {"", x, y}
  {
    FileMapKeys([x, y], outdir, moduleName);
    assert Elements([x, y]) == {x, y};
  }

  lemma TwoInputsObjects(x: string, y: string, outdir: string)
    ensures ObjectFilesOf([x, y], outdir) == [ObjectPath(outdir, x), ObjectPath(outdir, y)]
  {
    ObjectFilesIndexed([x, y], outdir);
  }

  /** Three spellings of one file relative to a normal working directory
      (plain, with `./`, absolute) become one key: the map has that file and
      the empty key, while the object list keeps all three, equal, paths. */
  lemma SpellingsShareOneKey(cwd: string, dirs: seq<string>, name: string, outdir: string, moduleName: string)
    requires IsNormalDir(cwd, dirs) && IsClean(name)
    ensures var inputs := AbsoluteInputs(cwd, [name, "./" + name, cwd + "/" + name]);
      && FileMapOf(inputs, outdir, moduleName).Keys == {"", cwd + "/" + name}
      && |ObjectFilesOf(inputs, outdir)| == 3
      && ObjectFilesOf(inputs, outdir)[0] == ObjectFilesOf(inputs, outdir)[1] == ObjectFilesOf(inputs, outdir)[2]
  {
    var x := cwd + "/" + name;
    SpellingsAbsolute(cwd, dirs, name);
    SameInputKeys(x, outdir, moduleName);
    ObjectFilesIndexed([x, x, x], outdir);
  }

  lemma SpellingsAbsolute(cwd: string, dirs: seq<string>, name: string)
    requires IsNormalDir(cwd, dirs) && IsClean(name)
    ensures AbsoluteInputs(cwd, [name, "./" + name, cwd + "/" + name]) == [cwd + "/" + name, cwd + "/" + name, cwd + "/" + name]
  {
    AbsoluteInputsSpec(cwd, [name, "./" + name, cwd + "/" + name]);
    AbspathOfRelativeName(cwd, dirs, name);
    AbspathOfDotSlashName(cwd, dirs, name);
    AbspathOfAbsoluteName(cwd, dirs, name);
  }

  lemma SameInputKeys(x: string, outdir: string, moduleName: string)
    ensures FileMapOf([x, x, x], outdir, moduleName).Keys == {"", x}
  {
    FileMapKeys([x, x, x], outdir, moduleName);
    assert Elements([x, x, x]) == {x};
  }
}
