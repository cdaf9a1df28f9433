/** POSIX path operations the build script relies on: `os.path.join`,
    `basename`, `splitext`, `normpath` and `abspath`, written after the
    rules of CPython's `posixpath` module. Paths are plain strings; there is
    no file system, no symbolic-link resolution and no encoding. The current
    working directory that `abspath` consults is an explicit parameter. */
module PosixPath {

  /** A path is absolute when it starts with the separator. */
  predicate IsAbsolute(p: string) {
    |p| > 0 && p[0] == '/'
  }

  /** `os.path.join(a, b)`: an absolute `b` discards `a`; otherwise `b` is
      appended after a separator, unless `a` is empty or already ends with one. */
  function Join(a: string, b: string): string {
    if IsAbsolute(b) then b
    else if a == "" || a[|a| - 1] == '/' then a + b
    else a + "/" + b
  }

  /** `os.path.join(a, p0, p1, ...)`: the components are joined left to right. */
  function JoinAll(a: string, parts: seq<string>): (r: string)
    decreases |parts|
  {
    if parts == [] then a else JoinAll(Join(a, parts[0]), parts[1..])
  }

  /** The position of the last `c` in `s`, or -1 when `c` does not occur
      (Python's `str.rfind`). */
  function LastIndexOf(s: string, c: char): (r: int)
    ensures -1 <= r < |s|
  {
    if |s| == 0 then -1
    else if s[|s| - 1] == c then |s| - 1
    else LastIndexOf(s[..|s| - 1], c)
  }

  /** `os.path.basename(p)`: what follows the last separator. */
  function Basename(p: string): string {
    if p == "" then ""
    else if p[|p| - 1] == '/' then ""
    else Basename(p[..|p| - 1]) + [p[|p| - 1]]
  }

  /** The root half of `os.path.splitext(p)`: the last `.` of the final
      component starts the extension, unless everything in that component
      before it is a dot (so `.bashrc` has no extension). */
  function SplitextRoot(p: string): string {
    var sep := LastIndexOf(p, '/');
    var dot := LastIndexOf(p, '.');
    if dot > sep && exists i | sep + 1 <= i < dot :: p[i] != '.' then p[..dot] else p
  }

  /** `os.path.splitext(os.path.basename(p))[0]`: the file name without its
      directory and without its extension. */
  function Stem(p: string): string {
    SplitextRoot(Basename(p))
  }

  /** Python's `s.split('/')`: the pieces between separators, always at least one. */
  function Split(s: string): (r: seq<string>)
    ensures |r| >= 1
    ensures forall i :: 0 <= i < |r| ==> '/' !in r[i]
  {
    if |s| == 0 then [""]
    else if s[0] == '/' then [""] + Split(s[1..])
    else var t := Split(s[1..]); [[s[0]] + t[0]] + t[1..]
  }

  /** Python's `'/'.join(ss)`. */
  function Intercalate(ss: seq<string>): string
    decreases |ss|
  {
    if |ss| == 0 then ""
    else if |ss| == 1 then ss[0]
    else ss[0] + "/" + Intercalate(ss[1..])
  }

  /** A component that survives normalisation: non-empty, not `.`, not `..`
      and free of separators. */
  predicate IsClean(c: string) {
    c != "" && c != "." && c != ".." && '/' !in c
  }

  predicate AllClean(ss: seq<string>) {
    forall i :: 0 <= i < |ss| ==> IsClean(ss[i])
  }

  /** The component loop of `normpath` for a path with a leading separator:
      empty and `.` components are dropped, `..` removes the last kept
      component (and is dropped at the root), anything else is kept. */
  function Collapse(kept: seq<string>, comps: seq<string>): (r: seq<string>)
    requires forall i :: 0 <= i < |comps| ==> '/' !in comps[i]
    requires AllClean(kept)
    ensures AllClean(r)
    decreases |comps|
  {
    if comps == [] then kept
    else
      var c := comps[0];
      if c == "" || c == "." then Collapse(kept, comps[1..])
      else if c == ".." then Collapse(if kept == [] then [] else kept[..|kept| - 1], comps[1..])
      else Collapse(kept + [c], comps[1..])
  }

  /** The leading separators `normpath` keeps: POSIX leaves exactly two
      leading slashes alone, while one, three or more become one. */
  function LeadingSlashes(p: string): string {
    if |p| >= 2 && p[1] == '/' && !(|p| >= 3 && p[2] == '/') then "//" else "/"
  }

  /** `os.path.normpath(p)` for an absolute `p`. */
  function Normpath(p: string): (r: string)
    requires IsAbsolute(p)
    ensures IsAbsolute(r)
  {
    LeadingSlashes(p) + Intercalate(Collapse([], Split(p)))
  }

  /** `os.path.abspath(p)` with `cwd` standing for `os.getcwd()`. */
  function Abspath(cwd: string, p: string): (r: string)
    requires IsAbsolute(cwd)
    ensures IsAbsolute(r) && r != ""
  {
    Normpath(if IsAbsolute(p) then p else Join(cwd, p))
  }

  // ---------------------------------------------------------------------
  // Lemmas
  // ---------------------------------------------------------------------

  /** `LastIndexOf` finds the last occurrence, or reports that there is none. */
  lemma {:induction false} LastIndexOfSpec(s: string, c: char)
    ensures -1 <= LastIndexOf(s, c) < |s|
    ensures LastIndexOf(s, c) >= 0 ==> s[LastIndexOf(s, c)] == c
    ensures forall j :: LastIndexOf(s, c) < j < |s| ==> s[j] != c
    decreases |s|
  {
    if |s| > 0 && s[|s| - 1] != c {
      LastIndexOfSpec(s[..|s| - 1], c);
    }
  }

  /** The basename is the longest suffix without a separator: it has none,
      it ends the path, and whatever precedes it is a separator. */
  lemma {:induction false} BasenameSpec(p: string)
    ensures '/' !in Basename(p)
    ensures |Basename(p)| <= |p| && p[|p| - |Basename(p)|..] == Basename(p)
    ensures |Basename(p)| < |p| ==> p[|p| - |Basename(p)| - 1] == '/'
    decreases |p|
  {
    if p != "" && p[|p| - 1] != '/' {
      var front := p[..|p| - 1];
      BasenameSpec(front);
      var b := Basename(front);
      assert Basename(p) == b + [p[|p| - 1]];
      assert p[|p| - |Basename(p)|..] == front[|front| - |b|..] + [p[|p| - 1]];
    }
  }

  /** The splitext root is a prefix of the path; when it is shorter, the rest
      is an extension: a dot followed by neither dots nor separators, after a
      final component that has a character other than a dot before it. */
  lemma SplitextRootSpec(p: string)
    ensures var r := SplitextRoot(p);
      && |r| <= |p| && p[..|r|] == r
      && (r != p ==> p[|r|] == '.')
      && (r != p ==> forall j :: |r| < j < |p| ==> p[j] != '.' && p[j] != '/')
      && (r != p ==> exists i :: LastIndexOf(p, '/') < i < |r| && p[i] != '.')
  {
    LastIndexOfSpec(p, '/');
    LastIndexOfSpec(p, '.');
  }

  /** The joined path ends with `b`; when `b` is relative it starts with `a`
      and adds at most one separator between them. */
  lemma JoinShape(a: string, b: string)
    ensures IsAbsolute(b) ==> Join(a, b) == b
    ensures |b| <= |Join(a, b)| && Join(a, b)[|Join(a, b)| - |b|..] == b
    ensures !IsAbsolute(b) ==> |a| <= |Join(a, b)| <= |a| + 1 + |b| && Join(a, b)[..|a|] == a
  {
  }

  /** A relative component joined onto a directory that does not end in a
      separator is preceded by exactly one, and the result ends where the
      component ends. */
  lemma JoinStep(a: string, b: string)
    requires a != "" && a[|a| - 1] != '/'
    requires b != "" && b[0] != '/'
    ensures Join(a, b) == a + "/" + b
    ensures Join(a, b) != "" && Join(a, b)[|Join(a, b)| - 1] == b[|b| - 1]
  {
  }

  /** A name without separators, joined onto any directory, is the basename
      of the result. */
  lemma BasenameOfJoin(a: string, b: string)
    requires '/' !in b
    ensures Basename(Join(a, b)) == b
  {
    if a == "" || a[|a| - 1] == '/' {
      BasenameAfterSlash(a, b);
    } else {
      BasenameAfterSlash(a + "/", b);
      assert a + "/" + b == (a + "/") + b;
    }
  }

  lemma {:induction false} BasenameAfterSlash(s: string, t: string)
    requires '/' !in t
    requires s == "" || s[|s| - 1] == '/'
    ensures Basename(s + t) == t
    decreases |t|
  {
    if t == "" {
      assert s + t == s;
    } else {
      var t' := t[..|t| - 1];
      assert (s + t)[..|s + t| - 1] == s + t';
      BasenameAfterSlash(s, t');
      assert t == t' + [t[|t| - 1]];
    }
  }

  /** A root name `stem`, a dot and an extension without dots give back
      `stem` as the splitext root, provided the stem has a character other
      than a dot. */
  lemma SplitextRootOfExtension(stem: string, ext: string)
    requires '/' !in stem && '/' !in ext && '.' !in ext
    requires exists i :: 0 <= i < |stem| && stem[i] != '.'
    ensures SplitextRoot(stem + "." + ext) == stem
  {
    var p := stem + "." + ext;
    LastIndexAbsent(p, '/');
    LastIndexOfSpec(p, '.');
    assert p[|stem|] == '.';
    var dot := LastIndexOf(p, '.');
    assert forall j :: |stem| < j < |p| ==> p[j] == ext[j - |stem| - 1];
    assert dot == |stem|;
    var i :| 0 <= i < |stem| && stem[i] != '.';
    assert p[i] != '.';
    assert p[..dot] == stem;
  }

  /** A name without any dot has no extension. */
  lemma SplitextRootWithoutDot(p: string)
    requires '.' !in p
    ensures SplitextRoot(p) == p
  {
    LastIndexAbsent(p, '.');
  }

  lemma LastIndexAbsent(s: string, c: char)
    requires c !in s
    ensures LastIndexOf(s, c) == -1
  {
    LastIndexOfSpec(s, c);
    assert forall j :: 0 <= j < |s| ==> s[j] != c;
  }

  /** Normalisation is idempotent. */
  lemma NormpathIdempotent(p: string)
    requires IsAbsolute(p)
    ensures Normpath(Normpath(p)) == Normpath(p)
  {
    var kept := Collapse([], Split(p));
    var lead := LeadingSlashes(p);
    assert Normpath(p) == lead + Intercalate(kept);
    if kept == [] {
      RootIsNormal(lead);
    } else if lead == "/" {
      NormpathOfComponents(kept);
      CollapseClean([], kept);
      assert [] + kept == kept;
    } else {
      DoubleSlashIsNormal(kept);
    }
  }

  /** `/` and `//` are their own normal forms. */
  lemma RootIsNormal(lead: string)
    requires lead == "/" || lead == "//"
    ensures Normpath(lead + Intercalate([])) == lead + Intercalate([])
  {
    assert lead + Intercalate([]) == lead;
    assert Split("") == [""];
    assert Split("/") == ["", ""];
    assert Collapse([], [""]) == [];
    assert Collapse([], ["", ""]) == [];
    if lead == "//" {
      assert Split(lead) == [""] + Split("/");
      assert Collapse([], ["", "", ""]) == [];
    }
  }

  /** Exactly two leading separators before clean components are kept. */
  lemma DoubleSlashIsNormal(kept: seq<string>)
    requires kept != [] && AllClean(kept)
    ensures Normpath("//" + Intercalate(kept)) == "//" + Intercalate(kept)
  {
    var body := Intercalate(kept);
    var q := "//" + body;
    IntercalateStart(kept);
    SplitIntercalate(kept);
    CollapseClean([], kept);
    assert q[1..] == "/" + body;
    assert q[1..][1..] == body;
    var comps := Split(q);
    assert Split(q[1..]) == [""] + Split(body);
    assert comps == [""] + Split(q[1..]);
    assert comps == ["", ""] + kept;
    assert q[2] == body[0];
    assert kept[0][0] != '/' by { assert kept[0][0] in kept[0]; }
    assert comps[1..] == [""] + kept;
    assert ([""] + kept)[1..] == kept;
    assert Collapse([], comps) == kept;
  }

  /** A path written as a separator and then separator-free components, the
      first of them non-empty, normalises by collapsing those components. */
  lemma NormpathOfComponents(ss: seq<string>)
    requires ss != [] && ss[0] != ""
    requires forall i :: 0 <= i < |ss| ==> '/' !in ss[i]
    ensures Normpath("/" + Intercalate(ss)) == "/" + Intercalate(Collapse([], ss))
  {
    var body := Intercalate(ss);
    var p := "/" + body;
    SplitIntercalate(ss);
    assert p[1..] == body;
    assert Split(p) == [""] + ss;
    assert ([""] + ss)[1..] == ss;
    assert Collapse([], [""] + ss) == Collapse([], ss);
    IntercalateStart(ss);
    assert p[1] == ss[0][0];
    assert ss[0][0] != '/' by { assert ss[0][0] in ss[0]; }
  }

  lemma {:induction false} IntercalateStart(ss: seq<string>)
    requires ss != [] && ss[0] != ""
    ensures Intercalate(ss) != "" && Intercalate(ss)[0] == ss[0][0]
  {
  }

  /** Normalising once more changes nothing, so an input given as an
      already-normalised absolute path is kept as it is. */
  lemma AbspathIdempotent(cwd: string, p: string)
    requires IsAbsolute(cwd)
    ensures Abspath(cwd, Abspath(cwd, p)) == Abspath(cwd, p)
  {
    NormpathIdempotent(if IsAbsolute(p) then p else Join(cwd, p));
  }

  /** Splitting a '/'-joined list of separator-free components gives the
      components back. */
  lemma {:induction false} SplitIntercalate(ss: seq<string>)
    requires ss != []
    requires forall i :: 0 <= i < |ss| ==> '/' !in ss[i]
    ensures Split(Intercalate(ss)) == ss
    decreases |ss|
  {
    if |ss| == 1 {
      SplitNoSlash(ss[0]);
    } else {
      SplitIntercalate(ss[1..]);
      SplitAfterComponent(ss[0], Intercalate(ss[1..]));
      assert ss == [ss[0]] + ss[1..];
    }
  }

  lemma {:induction false} SplitNoSlash(a: string)
    requires '/' !in a
    ensures Split(a) == [a]
    decreases |a|
  {
    if |a| > 0 {
      SplitNoSlash(a[1..]);
      assert [a[0]] + a[1..] == a;
    }
  }

  lemma {:induction false} SplitAfterComponent(a: string, b: string)
    requires '/' !in a
    ensures Split(a + "/" + b) == [a] + Split(b)
    decreases |a|
  {
    if |a| == 0 {
      assert a + "/" + b == "/" + b;
      assert ("/" + b)[1..] == b;
    } else {
      var s := a + "/" + b;
      assert s[1..] == a[1..] + "/" + b;
      SplitAfterComponent(a[1..], b);
      assert [a[0]] + a[1..] == a;
    }
  }

  /** Clean components are kept one for one. */
  lemma {:induction false} CollapseClean(kept: seq<string>, comps: seq<string>)
    requires AllClean(kept) && AllClean(comps)
    ensures Collapse(kept, comps) == kept + comps
    decreases |comps|
  {
    if comps != [] {
      CollapseClean(kept + [comps[0]], comps[1..]);
      assert kept + [comps[0]] + comps[1..] == kept + comps;
    }
  }

  /** Clean components in front of anything are kept one for one before the
      rest is collapsed. */
  lemma {:induction false} CollapseCleanPrefix(kept: seq<string>, clean: seq<string>, rest: seq<string>)
    requires AllClean(kept) && AllClean(clean)
    requires forall i :: 0 <= i < |rest| ==> '/' !in rest[i]
    ensures Collapse(kept, clean + rest) == Collapse(kept + clean, rest)
    decreases |clean|
  {
    if clean == [] {
      assert clean + rest == rest;
      assert kept + clean == kept;
    } else {
      assert (clean + rest)[0] == clean[0];
      assert (clean + rest)[1..] == clean[1..] + rest;
      CollapseCleanPrefix(kept + [clean[0]], clean[1..], rest);
      assert kept + [clean[0]] + clean[1..] == kept + clean;
    }
  }

  lemma {:induction false} IntercalateSnoc(ss: seq<string>, x: string)
    requires ss != []
    ensures Intercalate(ss + [x]) == Intercalate(ss) + "/" + x
    decreases |ss|
  {
    if |ss| == 1 {
      assert ss + [x] == [ss[0], x];
      assert [ss[0], x][1..] == [x];
    } else {
      assert (ss + [x])[1..] == ss[1..] + [x];
      IntercalateSnoc(ss[1..], x);
    }
  }

  lemma {:induction false} IntercalateEnd(ss: seq<string>)
    requires ss != [] && ss[|ss| - 1] != ""
    ensures Intercalate(ss) != ""
    ensures Intercalate(ss)[|Intercalate(ss)| - 1] == ss[|ss| - 1][|ss[|ss| - 1]| - 1]
    decreases |ss|
  {
    if |ss| > 1 {
      IntercalateEnd(ss[1..]);
    }
  }

  /** A working directory in normal form: a separator and clean components. */
  predicate IsNormalDir(cwd: string, dirs: seq<string>) {
    dirs != [] && AllClean(dirs) && cwd == "/" + Intercalate(dirs)
  }

  /** A normal working directory followed by a clean name is already normal. */
  lemma NormalDirChild(cwd: string, dirs: seq<string>, name: string)
    requires IsNormalDir(cwd, dirs) && IsClean(name)
    ensures Join(cwd, name) == cwd + "/" + name
    ensures Normpath(cwd + "/" + name) == cwd + "/" + name
  {
    var last := dirs[|dirs| - 1];
    IntercalateEnd(dirs);
    assert last[|last| - 1] != '/' by { assert last[|last| - 1] in last; }
    assert name[0] != '/' by { assert name[0] in name; }
    assert cwd[|cwd| - 1] == Intercalate(dirs)[|Intercalate(dirs)| - 1];
    IntercalateSnoc(dirs, name);
    var all := dirs + [name];
    assert AllClean(all);
    assert cwd + "/" + name == "/" + Intercalate(all);
    NormpathOfComponents(all);
    CollapseClean([], all);
    assert [] + all == all;
  }

  /** A clean name relative to a normal working directory is that directory,
      a separator and the name. */
  lemma AbspathOfRelativeName(cwd: string, dirs: seq<string>, name: string)
    requires IsNormalDir(cwd, dirs) && IsClean(name)
    ensures Abspath(cwd, name) == cwd + "/" + name
  {
    assert !IsAbsolute(name) by { assert name[0] in name; }
    NormalDirChild(cwd, dirs, name);
  }

  /** The same file written as an absolute path gives the same result. */
  lemma AbspathOfAbsoluteName(cwd: string, dirs: seq<string>, name: string)
    requires IsNormalDir(cwd, dirs) && IsClean(name)
    ensures Abspath(cwd, cwd + "/" + name) == cwd + "/" + name
  {
    NormalDirChild(cwd, dirs, name);
  }

  /** The same file written with a leading `./` gives the same result. */
  lemma AbspathOfDotSlashName(cwd: string, dirs: seq<string>, name: string)
    requires IsNormalDir(cwd, dirs) && IsClean(name)
    ensures Abspath(cwd, "./" + name) == cwd + "/" + name
  {
    var p := "./" + name;
    assert !IsAbsolute(p) by { assert p[0] == '.'; }
    JoinDotSlash(cwd, dirs, name);
    NormpathDotSlash(dirs, name);
    IntercalateSnoc(dirs, name);
  }

  lemma NormpathDotSlash(dirs: seq<string>, name: string)
    requires dirs != [] && AllClean(dirs) && IsClean(name)
    ensures Normpath("/" + Intercalate(dirs + [".", name])) == "/" + Intercalate(dirs + [name])
  {
    var comps := dirs + [".", name];
    assert comps[0] == dirs[0];
    assert forall i :: 0 <= i < |comps| ==> '/' !in comps[i] by {
      forall i | 0 <= i < |comps| ensures '/' !in comps[i] {
        if i < |dirs| { assert comps[i] == dirs[i]; }
      }
    }
    NormpathOfComponents(comps);
    CollapseDotSlash(dirs, name);
  }

  lemma JoinDotSlash(cwd: string, dirs: seq<string>, name: string)
    requires IsNormalDir(cwd, dirs) && IsClean(name)
    ensures Join(cwd, "./" + name) == "/" + Intercalate(dirs + [".", name])
  {
    var last := dirs[|dirs| - 1];
    IntercalateEnd(dirs);
    assert last[|last| - 1] != '/' by { assert last[|last| - 1] in last; }
    assert cwd[|cwd| - 1] == Intercalate(dirs)[|Intercalate(dirs)| - 1];
    var p := "./" + name;
    assert p[0] == '.';
    assert Join(cwd, p) == cwd + "/" + p;
    IntercalateSnoc(dirs, ".");
    IntercalateSnoc(dirs + ["."], name);
    assert dirs + ["."] + [name] == dirs + [".", name];
  }

  lemma CollapseDotSlash(dirs: seq<string>, name: string)
    requires AllClean(dirs) && IsClean(name)
    ensures Collapse([], dirs + [".", name]) == dirs + [name]
  {
    CollapseCleanPrefix([], dirs, [".", name]);
    assert [] + dirs == dirs;
    assert [".", name][1..] == [name];
    assert Collapse(dirs, [".", name]) == Collapse(dirs, [name]);
    assert Collapse(dirs, [name]) == Collapse(dirs + [name], []);
  }
}
