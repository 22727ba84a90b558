/**
 * The installer: it appends marked start-up blocks to Maya's `userSetup.py`
 * and `userSetup.mel` at most once, copies the shelf files, and extends the
 * running session's search paths.  Paths follow POSIX `os.path` rules.
 */
module Installer {
  import opened Wrappers
  import opened Text
  import opened FileStore

  // ---------------------------------------------------------------- paths

  /** `_norm`: backslashes become forward slashes (the path is already absolute). */
  function Norm(path: string): (r: string)
    ensures |r| == |path|
    ensures '\\' !in r
    ensures forall i :: 0 <= i < |path| && path[i] != '\\' ==> r[i] == path[i]
  {
    if path == [] then [] else [if path[0] == '\\' then '/' else path[0]] + Norm(path[1..])
  }

  /** Normalising a normalised path changes nothing. */
  lemma {:induction false} NormIdempotent(path: string)
    ensures Norm(Norm(path)) == Norm(path)
  {
    NormClean(Norm(path));
  }

  /** A path without backslashes is already normal. */
  lemma {:induction false} NormClean(path: string)
    requires '\\' !in path
    ensures Norm(path) == path
  {
    if path != [] {
      assert '\\' !in path[1..];
      NormClean(path[1..]);
    }
  }

  /** Position of the last `/`, or -1. */
  function LastSlash(p: string): (r: int)
    ensures -1 <= r < |p|
    ensures r >= 0 ==> p[r] == '/'
    ensures forall i :: r < i < |p| ==> p[i] != '/'
  {
    if p == [] then -1 else if p[|p| - 1] == '/' then |p| - 1 else LastSlash(p[..|p| - 1])
  }

  predicate AllSlashes(s: string) {
    forall i :: 0 <= i < |s| ==> s[i] == '/'
  }

  /** `s.rstrip("/")` */
  function StripSlashes(s: string): (r: string)
    ensures |r| <= |s| && r == s[..|r|]
    ensures r == [] || r[|r| - 1] != '/'
    ensures forall i :: |r| <= i < |s| ==> s[i] == '/'
  {
    if s != [] && s[|s| - 1] == '/' then StripSlashes(s[..|s| - 1]) else s
  }

  /** `os.path.dirname` */
  function Dirname(p: string): string {
    var head := p[..LastSlash(p) + 1];
    if head != [] && !AllSlashes(head) then StripSlashes(head) else head
  }

  /** `os.path.join(a, b)` */
  function JoinPath(a: string, b: string): string {
    if StartsWith(b, "/") then b
    else if a == [] || EndsWith(a, "/") then a + b
    else a + "/" + b
  }

  /** The directory of a joined path is the directory it was joined to. */
  lemma DirnameOfJoin(dir: string, name: string)
    requires dir != [] && dir[|dir| - 1] != '/'
    requires name != [] && '/' !in name
    ensures Dirname(JoinPath(dir, name)) == dir
  {
    var p := JoinPath(dir, name);
    assert !StartsWith(name, "/") by { assert name[0] != '/'; }
    assert p == dir + "/" + name;
    assert p[|dir|] == '/';
    assert forall i :: |dir| < i < |p| ==> p[i] == name[i - |dir| - 1];
    assert LastSlash(p) == |dir|;
    assert p[..|dir| + 1] == dir + "/";
    assert !AllSlashes(dir + "/") by { assert (dir + "/")[|dir| - 1] != '/'; }
    assert StripSlashes(dir + "/") == StripSlashes(dir);
  }

  /** A relative name joined to a directory ends the path. */
  lemma JoinPathEnds(a: string, b: string)
    requires !StartsWith(b, "/")
    ensures EndsWith(JoinPath(a, b), b)
  {
  }

  // ---------------------------------------------------------------- userSetup blocks

  const ScriptMarker := "# ATLAS_MATRIX_SCRIPT_PATH"
  const IconMarker := "# ATLAS_MATRIX_ICON_PATH"

  /** The `userSetup.py` block that puts the tool's parent directory on `sys.path`, line by line. */
  function PyBlockLines(parentDir: string): seq<string> {
    [ScriptMarker + "\n",
     "import sys\n",
     "atlas_parent = r\"" + parentDir + "\"\n",
     "if atlas_parent not in sys.path:\n",
     "    sys.path.append(atlas_parent)\n"]
  }

  /** The `userSetup.py` block that adds the icon directory to `XBMLANGPATH`, line by line. */
  function IconPyBlockLines(iconDir: string): seq<string> {
    [IconMarker + "\n",
     "import maya.mel as mel\n",
     "icon_path = r\"" + iconDir + "\"\n",
     "current_xbm = mel.eval('getenv \"XBMLANGPATH\"')\n",
     "if icon_path not in current_xbm:\n",
     "    mel.eval(f'putenv \"XBMLANGPATH\" \"{current_xbm}:/{icon_path}\"')\n"]
  }

  /** The `userSetup.mel` block that extends `MAYA_SCRIPT_PATH`, line by line. */
  function MelBlockLines(sep: char, parentDir: string): seq<string> {
    [ScriptMarker + "\n",
     "putenv(\"MAYA_SCRIPT_PATH\", `getenv \"MAYA_SCRIPT_PATH\"` + \"" + [sep] + parentDir + "\");\n"]
  }

  /** The `userSetup.mel` block that extends `XBMLANGPATH`, line by line. */
  function IconMelBlockLines(iconDir: string): seq<string> {
    [IconMarker + "\n",
     "putenv(\"XBMLANGPATH\", `getenv \"XBMLANGPATH\"` + \":/" + iconDir + "\");\n"]
  }

  /** A block's text starts with its first line. */
  lemma ConcatStartsWith(ls: seq<string>)
    requires ls != []
    ensures StartsWith(Concat(ls), ls[0])
  {
    assert Concat(ls)[..|ls[0]|] == ls[0];
  }

  function PyBlock(parentDir: string): (r: string)
    ensures StartsWith(r, ScriptMarker + "\n")
  {
    ConcatStartsWith(PyBlockLines(parentDir));
    Concat(PyBlockLines(parentDir))
  }

  function IconPyBlock(iconDir: string): (r: string)
    ensures StartsWith(r, IconMarker + "\n")
  {
    ConcatStartsWith(IconPyBlockLines(iconDir));
    Concat(IconPyBlockLines(iconDir))
  }

  function MelBlock(sep: char, parentDir: string): (r: string)
    ensures StartsWith(r, ScriptMarker + "\n")
  {
    ConcatStartsWith(MelBlockLines(sep, parentDir));
    Concat(MelBlockLines(sep, parentDir))
  }

  function IconMelBlock(iconDir: string): (r: string)
    ensures StartsWith(r, IconMarker + "\n")
  {
    ConcatStartsWith(IconMelBlockLines(iconDir));
    Concat(IconMelBlockLines(iconDir))
  }

  /** The search-path separator: `;` on Windows, `:` elsewhere. */
  function PathSeparator(platform: string): (r: char)
    ensures r == ';' <==> platform == "Windows"
  {
    if platform == "Windows" then ';' else ':'
  }


  /** `get_maya_prefs_dir`, given the user's profile and home directories. */
  function PrefsDir(version: string, platform: string, userProfile: string, home: string): string {
    if platform == "Windows" then JoinPath(JoinPath(JoinPath(userProfile, "Documents"), "maya"), version)
    else if platform == "Darwin" then home + "/Library/Preferences/Autodesk/maya/" + version
    else home + "/maya/" + version
  }

  /** Appending the same text to both sides keeps a suffix relation. */
  lemma EndsWithBoth(a: string, tail: string, v: string)
    requires EndsWith(a, tail)
    ensures EndsWith(a + v, tail + v)
  {
    assert (a + v)[|a + v| - |tail + v|..] == a[|a| - |tail|..] + v;
  }

  /** Joining a relative name onto a path ending in `tail` gives a path ending in `tail/name`. */
  lemma JoinPathAfter(a: string, tail: string, b: string)
    requires EndsWith(a, tail) && tail != [] && tail[|tail| - 1] != '/'
    requires b != [] && b[0] != '/'
    ensures EndsWith(JoinPath(a, b), tail + "/" + b)
  {
    assert !StartsWith(b, "/");
    assert a[|a| - 1] == tail[|tail| - 1];
    assert !EndsWith(a, "/");
    EndsWithBoth(a, tail, "/" + b);
    assert a + ("/" + b) == a + "/" + b;
    assert tail + ("/" + b) == tail + "/" + b;
  }

  /** Every platform keeps its preferences in a `maya/<version>` directory. */
  lemma PrefsDirEndsInVersion(version: string, platform: string, userProfile: string, home: string)
    requires version != [] && version[0] != '/'
    ensures EndsWith(PrefsDir(version, platform, userProfile, home), "maya/" + version)
  {
    if platform == "Windows" {
      WindowsPrefsDir(version, userProfile);
    } else if platform == "Darwin" {
      SuffixedPrefsDir(version, home, "/Library/Preferences/Autodesk/maya/");
    } else {
      SuffixedPrefsDir(version, home, "/maya/");
    }
  }

  lemma WindowsPrefsDir(version: string, userProfile: string)
    requires version != [] && version[0] != '/'
    ensures EndsWith(JoinPath(JoinPath(JoinPath(userProfile, "Documents"), "maya"), version), "maya/" + version)
  {
    var maya := JoinPath(JoinPath(userProfile, "Documents"), "maya");
    assert !StartsWith("maya", "/") by { assert "maya"[0] == 'm'; }
    JoinPathEnds(JoinPath(userProfile, "Documents"), "maya");
    JoinPathAfter(maya, "maya", version);
  }

  lemma SuffixedPrefsDir(version: string, home: string, dir: string)
    requires |dir| >= 5 && dir[|dir| - 5..] == "maya/"
    ensures EndsWith(home + dir + version, "maya/" + version)
  {
    assert EndsWith(home + dir, "maya/") by { assert (home + dir)[|home + dir| - 5..] == dir[|dir| - 5..]; }
    EndsWithBoth(home + dir, "maya/", version);
  }

  // ---------------------------------------------------------------- _append_once

  /** The text `_append_once` leaves behind: unchanged when the marker is present. */
  function AppendedOnce(existing: string, marker: string, content: string): string {
    if Contains(existing, marker) then existing
    else existing + (if existing != [] && !EndsWith(existing, "\n") then "\n" else "") + "\n" + content
  }

  /**
   * Marker present: nothing changes.  Marker absent: the old text is kept as
   * a prefix and the content follows it after a blank line.
   */
  lemma AppendedOnceSpec(existing: string, marker: string, content: string)
    ensures Contains(existing, marker) ==> AppendedOnce(existing, marker, content) == existing
    ensures !Contains(existing, marker) ==>
      var r := AppendedOnce(existing, marker, content);
      StartsWith(r, existing) && EndsWith(r, content)
      && |r| - |content| - |existing| in {1, 2}
      && (existing == [] ==> r == "\n" + content)
      && (existing != [] ==> EndsWith(r[..|r| - |content|], "\n\n"))
  {
    if !Contains(existing, marker) && existing != [] {
      var r := AppendedOnce(existing, marker, content);
      var head := r[..|r| - |content|];
      if EndsWith(existing, "\n") {
        assert head == existing + "\n";
        assert existing[|existing| - 1] == '\n';
      } else {
        assert head == existing + "\n\n";
      }
    }
  }

  /** Once the content (which holds the marker) is appended, appending again changes nothing. */
  lemma {:induction false} AppendedOnceIdempotent(existing: string, marker: string, content: string)
    requires Contains(content, marker)
    ensures Contains(AppendedOnce(existing, marker, content), marker)
    ensures AppendedOnce(AppendedOnce(existing, marker, content), marker, content)
         == AppendedOnce(existing, marker, content)
  {
    if !Contains(existing, marker) {
      var sep := if existing != [] && !EndsWith(existing, "\n") then "\n" else "";
      ContainsAppend(existing + sep + "\n", content, marker);
      assert existing + sep + "\n" + content == (existing + sep + "\n") + content;
    }
  }

  /** Text already in the file stays findable after an append. */
  lemma {:induction false} AppendedOnceKeeps(existing: string, marker: string, content: string, other: string)
    requires Contains(existing, other)
    ensures Contains(AppendedOnce(existing, marker, content), other)
  {
    if !Contains(existing, marker) {
      var sep := if existing != [] && !EndsWith(existing, "\n") then "\n" else "";
      ContainsAppend(existing, sep + "\n" + content, other);
      assert existing + sep + "\n" + content == existing + (sep + "\n" + content);
    }
  }

  /** `_append_once` on a file store: the file is created only when content is appended. */
  function AppendedTo(text: map<string, string>, path: string, marker: string, content: string): map<string, string> {
    var existing := TextOf(text, path);
    if Contains(existing, marker) then text else text[path := AppendedOnce(existing, marker, content)]
  }

  /** `_append_once`: read the file (empty when missing), return when the marker is there, else append. */
  method AppendOnce(fs: Files, path: string, marker: string, content: string)
    modifies fs
    ensures fs.text == AppendedTo(old(fs.text), path, marker, content)
  {
    var existing := "";
    if fs.Exists(path) {
      existing := fs.Read(path);
    }
    if Contains(existing, marker) {
      return;
    }
    if existing != [] && !EndsWith(existing, "\n") {
      fs.Append(path, "\n");
    }
    fs.Append(path, "\n" + content);
    assert fs.text[path] == AppendedOnce(existing, marker, content);
  }

  // ---------------------------------------------------------------- write_usersetup_blocks

  /** The package's parent directory: what `import atlas_matrix` needs on the path. */
  function ParentDir(toolsDir: string): string {
    Norm(Dirname(Norm(toolsDir)))
  }

  /** The shipped icon directory, `<package>/setup/icons`. */
  function IconDir(toolsDir: string): string {
    Norm(JoinPath(JoinPath(Norm(toolsDir), "setup"), "icons"))
  }

  /** Two `_append_once` calls on one file. */
  function PairAppended(text: map<string, string>, path: string, m1: string, c1: string, m2: string, c2: string)
    : map<string, string>
  {
    AppendedTo(AppendedTo(text, path, m1, c1), path, m2, c2)
  }

  /** The files `write_usersetup_blocks` leaves behind. */
  function UsersetupWritten(text: map<string, string>, toolsDir: string, scriptsDir: string, platform: string)
    : map<string, string>
  {
    var parent := ParentDir(toolsDir);
    var icons := IconDir(toolsDir);
    var py := PairAppended(text, JoinPath(scriptsDir, "userSetup.py"),
                           ScriptMarker, PyBlock(parent), IconMarker, IconPyBlock(icons));
    PairAppended(py, JoinPath(scriptsDir, "userSetup.mel"),
                 ScriptMarker, MelBlock(PathSeparator(platform), parent), IconMarker, IconMelBlock(icons))
  }

  /** `write_usersetup_blocks` (creating the scripts directory is not modelled). */
  method WriteUsersetupBlocks(fs: Files, toolsDir: string, scriptsDir: string, platform: string)
    modifies fs
    ensures fs.text == UsersetupWritten(old(fs.text), toolsDir, scriptsDir, platform)
  {
    var parent := ParentDir(toolsDir);
    var icons := IconDir(toolsDir);
    var py := JoinPath(scriptsDir, "userSetup.py");
    var mel := JoinPath(scriptsDir, "userSetup.mel");
    AppendOnce(fs, py, ScriptMarker, PyBlock(parent));
    AppendOnce(fs, py, IconMarker, IconPyBlock(icons));
    AppendOnce(fs, mel, ScriptMarker, MelBlock(PathSeparator(platform), parent));
    AppendOnce(fs, mel, IconMarker, IconMelBlock(icons));
  }

  /** What one `_append_once` does to a file store, file by file. */
  lemma AppendedToSpec(text: map<string, string>, path: string, marker: string, content: string, other: string, found: string)
    requires Contains(content, marker)
    ensures Contains(TextOf(AppendedTo(text, path, marker, content), path), marker)
    ensures Contains(TextOf(text, other), found) ==> Contains(TextOf(AppendedTo(text, path, marker, content), other), found)
    ensures other != path ==> TextOf(AppendedTo(text, path, marker, content), other) == TextOf(text, other)
    ensures Contains(TextOf(text, path), marker) ==> AppendedTo(text, path, marker, content) == text
  {
    AppendedOnceIdempotent(TextOf(text, path), marker, content);
    if Contains(TextOf(text, other), found) && other == path {
      AppendedOnceKeeps(TextOf(text, path), marker, content, found);
    }
  }

  /**
   * After two marked appends the file holds both markers, no other file
   * changes, and the same two appends again change nothing.
   */
  lemma PairAppendedSpec(text: map<string, string>, path: string, m1: string, c1: string, m2: string, c2: string, other: string)
    requires Contains(c1, m1) && Contains(c2, m2)
    ensures var t := PairAppended(text, path, m1, c1, m2, c2);
      Contains(TextOf(t, path), m1) && Contains(TextOf(t, path), m2)
      && (other != path ==> TextOf(t, other) == TextOf(text, other))
      && PairAppended(t, path, m1, c1, m2, c2) == t
  {
    var t1 := AppendedTo(text, path, m1, c1);
    var t := AppendedTo(t1, path, m2, c2);
    AppendedToSpec(text, path, m1, c1, other, m1);
    AppendedToSpec(t1, path, m2, c2, path, m1);
    AppendedToSpec(t1, path, m2, c2, other, m1);
    AppendedToSpec(t, path, m1, c1, other, m1);
    AppendedToSpec(t, path, m2, c2, other, m1);
  }

  /** Two marked appends to a file that already holds both markers change nothing. */
  lemma PairAppendedPresent(text: map<string, string>, path: string, m1: string, c1: string, m2: string, c2: string)
    requires Contains(TextOf(text, path), m1) && Contains(TextOf(text, path), m2)
    ensures PairAppended(text, path, m1, c1, m2, c2) == text
  {
  }

  /** A text that starts with a marker line contains the marker. */
  lemma MarkerLine(s: string, marker: string)
    requires StartsWith(s, marker + "\n")
    ensures Contains(s, marker)
  {
    assert s[..|marker|] == (marker + "\n")[..|marker|];
  }

  /** Two marked pairs of appends to two different files, repeated, change nothing. */
  lemma TwoFilesTwice(text: map<string, string>, py: string, mel: string,
                      pb: string, ipb: string, mb: string, imb: string)
    requires py != mel
    requires Contains(pb, ScriptMarker) && Contains(ipb, IconMarker)
    requires Contains(mb, ScriptMarker) && Contains(imb, IconMarker)
    ensures var w := PairAppended(PairAppended(text, py, ScriptMarker, pb, IconMarker, ipb),
                                  mel, ScriptMarker, mb, IconMarker, imb);
      PairAppended(PairAppended(w, py, ScriptMarker, pb, IconMarker, ipb),
                   mel, ScriptMarker, mb, IconMarker, imb) == w
  {
    var a := PairAppended(text, py, ScriptMarker, pb, IconMarker, ipb);
    var w := PairAppended(a, mel, ScriptMarker, mb, IconMarker, imb);
    PairAppendedSpec(text, py, ScriptMarker, pb, IconMarker, ipb, py);
    PairAppendedSpec(a, mel, ScriptMarker, mb, IconMarker, imb, py);
    PairAppendedPresent(w, py, ScriptMarker, pb, IconMarker, ipb);
  }

  /** The two start-up files are different files. */
  lemma UsersetupFilesDiffer(scriptsDir: string)
    ensures JoinPath(scriptsDir, "userSetup.py") != JoinPath(scriptsDir, "userSetup.mel")
  {
    var py := JoinPath(scriptsDir, "userSetup.py");
    var mel := JoinPath(scriptsDir, "userSetup.mel");
    assert !StartsWith("userSetup.py", "/") by { assert "userSetup.py"[0] == 'u'; }
    assert !StartsWith("userSetup.mel", "/") by { assert "userSetup.mel"[0] == 'u'; }
    JoinPathEnds(scriptsDir, "userSetup.py");
    JoinPathEnds(scriptsDir, "userSetup.mel");
    assert py[|py| - 1] == 'y' && mel[|mel| - 1] == 'l';
  }

  /** Each block holds the marker `_append_once` looks for. */
  lemma BlocksHoldMarkers(toolsDir: string, platform: string)
    ensures Contains(PyBlock(ParentDir(toolsDir)), ScriptMarker)
    ensures Contains(IconPyBlock(IconDir(toolsDir)), IconMarker)
    ensures Contains(MelBlock(PathSeparator(platform), ParentDir(toolsDir)), ScriptMarker)
    ensures Contains(IconMelBlock(IconDir(toolsDir)), IconMarker)
  {
    MarkerLine(PyBlock(ParentDir(toolsDir)), ScriptMarker);
    MarkerLine(IconPyBlock(IconDir(toolsDir)), IconMarker);
    MarkerLine(MelBlock(PathSeparator(platform), ParentDir(toolsDir)), ScriptMarker);
    MarkerLine(IconMelBlock(IconDir(toolsDir)), IconMarker);
  }

  /** Running `write_usersetup_blocks` a second time changes no file. */
  lemma WriteUsersetupTwice(text: map<string, string>, toolsDir: string, scriptsDir: string, platform: string)
    ensures UsersetupWritten(UsersetupWritten(text, toolsDir, scriptsDir, platform), toolsDir, scriptsDir, platform)
         == UsersetupWritten(text, toolsDir, scriptsDir, platform)
  {
    UsersetupFilesDiffer(scriptsDir);
    BlocksHoldMarkers(toolsDir, platform);
    TwoFilesTwice(text, JoinPath(scriptsDir, "userSetup.py"), JoinPath(scriptsDir, "userSetup.mel"),
                  PyBlock(ParentDir(toolsDir)), IconPyBlock(IconDir(toolsDir)),
                  MelBlock(PathSeparator(platform), ParentDir(toolsDir)), IconMelBlock(IconDir(toolsDir)));
  }

  // ---------------------------------------------------------------- _inject_runtime_paths_now

  /** The live interpreter state the installer extends: `sys.path` and the environment. */
  class Session {
    var sysPath: seq<string>
    var env: map<string, string>

    constructor (sysPath: seq<string>, env: map<string, string>)
      ensures this.sysPath == sysPath && this.env == env
    {
      this.sysPath := sysPath;
      this.env := env;
    }
  }

  /** `list + (sep if list else "") + dir`: a search-path list with `dir` appended. */
  function PathListJoined(list: string, sep: char, dir: string): string {
    list + (if list != [] then [sep] else []) + dir
  }

  /** Appending a missing entry makes it the list's last entry and keeps the others. */
  lemma {:induction false} PathListJoinedSpec(list: string, sep: char, dir: string)
    requires sep !in dir
    ensures Split(PathListJoined(list, sep, dir), sep) == (if list == [] then [dir] else Split(list, sep) + [dir])
    ensures dir in Split(PathListJoined(list, sep, dir), sep)
  {
    SplitNoSeparator(dir, sep);
    if list == [] {
      assert PathListJoined(list, sep, dir) == dir;
    } else {
      SplitAround(list, dir, sep);
      assert PathListJoined(list, sep, dir) == list + [sep] + dir;
    }
  }

  /** The value of an environment variable, empty when unset. */
  function EnvValue(env: map<string, string>, name: string): string {
    if name in env then env[name] else ""
  }

  /** `MAYA_SCRIPT_PATH` with `dir` added unless it is already one of its entries. */
  function ScriptPathAdded(env: map<string, string>, sep: char, dir: string): map<string, string> {
    var scripts := EnvValue(env, "MAYA_SCRIPT_PATH");
    if dir in Split(scripts, sep) then env else env["MAYA_SCRIPT_PATH" := PathListJoined(scripts, sep, dir)]
  }

  /** `XBMLANGPATH` with `:/dir` added unless `dir` already occurs in it. */
  function IconPathAdded(env: map<string, string>, dir: string): map<string, string> {
    var xbm := EnvValue(env, "XBMLANGPATH");
    if Contains(xbm, dir) then env else env["XBMLANGPATH" := xbm + ":/" + dir]
  }

  /** The environment after `_inject_runtime_paths_now`. */
  function InjectedEnv(env: map<string, string>, parentDir: string, iconDir: string, platform: string)
    : map<string, string>
  {
    IconPathAdded(ScriptPathAdded(env, PathSeparator(platform), parentDir), iconDir)
  }

  /** The `MAYA_SCRIPT_PATH` step of `_inject_runtime_paths_now`. */
  method AddScriptPath(session: Session, sep: char, dir: string)
    modifies session
    ensures session.sysPath == old(session.sysPath)
    ensures session.env == ScriptPathAdded(old(session.env), sep, dir)
  {
    var scripts := EnvValue(session.env, "MAYA_SCRIPT_PATH");
    if dir !in Split(scripts, sep) {
      session.env := session.env["MAYA_SCRIPT_PATH" := PathListJoined(scripts, sep, dir)];
    }
  }

  /** The `XBMLANGPATH` step of `_inject_runtime_paths_now`. */
  method AddIconPath(session: Session, dir: string)
    modifies session
    ensures session.sysPath == old(session.sysPath)
    ensures session.env == IconPathAdded(old(session.env), dir)
  {
    var xbm := EnvValue(session.env, "XBMLANGPATH");
    if !Contains(xbm, dir) {
      session.env := session.env["XBMLANGPATH" := xbm + ":/" + dir];
    }
  }

  /** `_inject_runtime_paths_now`: the paths the session needs, each added only when absent. */
  method InjectRuntimePaths(session: Session, toolsDir: string, platform: string)
    modifies session
    ensures session.sysPath ==
      if ParentDir(toolsDir) in old(session.sysPath) then old(session.sysPath)
      else old(session.sysPath) + [ParentDir(toolsDir)]
    ensures session.env == InjectedEnv(old(session.env), ParentDir(toolsDir), IconDir(toolsDir), platform)
  {
    var parent := ParentDir(toolsDir);
    var icons := IconDir(toolsDir);
    if parent !in session.sysPath {
      session.sysPath := session.sysPath + [parent];
    }
    AddScriptPath(session, PathSeparator(platform), parent);
    AddIconPath(session, icons);
  }

  /** After the injection both directories are on their paths, and a second injection changes nothing. */
  lemma {:induction false} InjectTwice(env: map<string, string>, parentDir: string, iconDir: string, platform: string)
    requires PathSeparator(platform) !in parentDir
    ensures parentDir in Split(EnvValue(InjectedEnv(env, parentDir, iconDir, platform), "MAYA_SCRIPT_PATH"), PathSeparator(platform))
    ensures Contains(EnvValue(InjectedEnv(env, parentDir, iconDir, platform), "XBMLANGPATH"), iconDir)
    ensures InjectedEnv(InjectedEnv(env, parentDir, iconDir, platform), parentDir, iconDir, platform)
         == InjectedEnv(env, parentDir, iconDir, platform)
  {
    var sep := PathSeparator(platform);
    PathListJoinedSpec(EnvValue(env, "MAYA_SCRIPT_PATH"), sep, parentDir);
    var env1 := ScriptPathAdded(env, sep, parentDir);
    assert parentDir in Split(EnvValue(env1, "MAYA_SCRIPT_PATH"), sep);
    var xbm := EnvValue(env1, "XBMLANGPATH");
    if !Contains(xbm, iconDir) {
      ContainsAppend(xbm + ":/", iconDir, iconDir);
      ContainsPrefix(iconDir, iconDir);
      assert xbm + ":/" + iconDir == (xbm + ":/") + iconDir;
    }
  }

  // ---------------------------------------------------------------- install_shelf

  /** The shelf files of a directory listing: names starting with `shelf_`, in listing order. */
  function ShelfFiles(names: seq<string>): (r: seq<string>)
    ensures forall f :: f in r <==> f in names && StartsWith(f, "shelf_")
    ensures |r| <= |names|
  {
    if names == [] then []
    else (if StartsWith(names[0], "shelf_") then [names[0]] else []) + ShelfFiles(names[1..])
  }

  /** How many files are copied before the first one that fails. */
  function FirstFailure(files: seq<string>, failing: set<string>): (k: nat)
    ensures k <= |files|
    ensures forall i :: 0 <= i < k ==> files[i] !in failing
    ensures k < |files| ==> files[k] in failing
  {
    if files == [] || files[0] in failing then 0 else 1 + FirstFailure(files[1..], failing)
  }

  /** The copy loop of `install_shelf`: stops at the first copy that fails. */
  method CopyShelfFiles(files: seq<string>, failing: set<string>) returns (ok: bool, copied: seq<string>)
    ensures copied == files[..FirstFailure(files, failing)]
    ensures ok <==> forall f :: f in files ==> f !in failing
  {
    copied := [];
    var i := 0;
    while i < |files|
      invariant 0 <= i <= |files|
      invariant copied == files[..i]
      invariant forall j :: 0 <= j < i ==> files[j] !in failing
    {
      if files[i] in failing {
        assert FirstFailure(files, failing) == i;
        return false, copied;
      }
      assert files[..i + 1] == files[..i] + [files[i]];
      copied := copied + [files[i]];
      i := i + 1;
    }
    assert files[..i] == files;
    return true, copied;
  }

  /**
   * `install_shelf`: `source` is the listing of the shipped shelf directory
   * (None when it is missing) and `failing` the files whose copy raises.
   * Returns the verdict and the files copied, in order.
   */
  method InstallShelf(source: Option<seq<string>>, failing: set<string>) returns (ok: bool, copied: seq<string>)
    ensures source.None? ==> !ok && copied == []
    ensures source.Some? && ShelfFiles(source.value) == [] ==> !ok && copied == []
    ensures source.Some? && ShelfFiles(source.value) != [] ==>
      var files := ShelfFiles(source.value);
      copied == files[..FirstFailure(files, failing)] && (ok <==> forall f :: f in files ==> f !in failing)
    ensures forall f :: f in copied ==> f in ShelfFiles(source.value) && f !in failing
  {
    if source.None? {
      return false, [];
    }
    var files := ShelfFiles(source.value);
    if files == [] {
      return false, [];
    }
    ok, copied := CopyShelfFiles(files, failing);
  }
}
