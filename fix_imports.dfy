/**
 * The import fixer of the setup scripts: it rewrites imports of the package's
 * own top-level packages (`core`, `ui`, `setup`) at the start of a line into
 * absolute imports under the package name, and lists the Python files of a
 * directory tree while pruning excluded directory names.
 */
module ImportFixer {
  import opened Wrappers
  import opened Text
  import opened FileStore

  // ---------------------------------------------------------------- the patterns

  /** The alternatives of the group `(core|ui|setup)`, in the order they are tried. */
  const Packages: seq<string> := ["core", "ui", "setup"]

  /**
   * A pattern `^<head>(<alternatives>)<tail>` under `re.MULTILINE`; its
   * replacement is `<head><package name>.\1<tail>`.
   */
  datatype Rule = Rule(head: string, alts: seq<string>, tail: string)

  /** The three patterns of `fix_imports_in_file`, applied in this order. */
  const Rules: seq<Rule> :=
    [Rule("from ", Packages, "."), Rule("import ", Packages, "."), Rule("from ", Packages, " import")]

  /** What `rule` matches at the very start of a line for the alternative `p`. */
  function Pattern(rule: Rule, p: string): string {
    rule.head + p + rule.tail
  }

  /** The rule matches at the start of `line` for some alternative. */
  predicate Matches(rule: Rule, line: string) {
    exists p :: p in rule.alts && StartsWith(line, Pattern(rule, p))
  }

  /** The first of `candidates` whose pattern starts `line`: the alternation's choice. */
  function FirstMatch(rule: Rule, line: string, candidates: seq<string>): (r: Option<string>)
    ensures r.Some? ==> r.value in candidates && StartsWith(line, Pattern(rule, r.value))
    ensures r.None? ==> forall p :: p in candidates ==> !StartsWith(line, Pattern(rule, p))
  {
    if candidates == [] then None
    else if StartsWith(line, Pattern(rule, candidates[0])) then Some(candidates[0])
    else FirstMatch(rule, line, candidates[1..])
  }

  /** The pattern's substitution on one line, `^` anchoring it at the line's start. */
  function RewriteLine(rule: Rule, pkgName: string, line: string): string {
    match FirstMatch(rule, line, rule.alts)
    case None => line
    case Some(p) => rule.head + pkgName + "." + p + rule.tail + line[|Pattern(rule, p)|..]
  }

  /**
   * A matching line gets the package name and a dot inserted right after the
   * pattern's head; any other line is left as it is.
   */
  lemma RewriteLineInserts(rule: Rule, pkgName: string, line: string)
    ensures Matches(rule, line) ==>
      StartsWith(line, rule.head)
      && RewriteLine(rule, pkgName, line) == rule.head + pkgName + "." + line[|rule.head|..]
    ensures !Matches(rule, line) ==> RewriteLine(rule, pkgName, line) == line
  {
    var m := FirstMatch(rule, line, rule.alts);
    if m.Some? {
      var p := m.value;
      var n := |Pattern(rule, p)|;
      assert line[..n] == rule.head + p + rule.tail;
      assert line[..|rule.head|] == rule.head;
      assert line[|rule.head|..] == p + rule.tail + line[n..];
    }
  }

  /** `re.sub(pattern, replacement, content, flags=re.MULTILINE)`: every line rewritten at its start. */
  function Pass(rule: Rule, pkgName: string, content: string): string {
    Join(RewriteLines(rule, pkgName, Split(content, '\n')), '\n')
  }

  function RewriteLines(rule: Rule, pkgName: string, lines: seq<string>): (r: seq<string>)
    ensures |r| == |lines|
    ensures forall i :: 0 <= i < |lines| ==> r[i] == RewriteLine(rule, pkgName, lines[i])
  {
    if lines == [] then [] else [RewriteLine(rule, pkgName, lines[0])] + RewriteLines(rule, pkgName, lines[1..])
  }

  /** The patterns applied one after the other, as the loop in `fix_imports_in_file` does. */
  function Passes(rules: seq<Rule>, pkgName: string, content: string): string
    decreases |rules|
  {
    if rules == [] then content else Passes(rules[1..], pkgName, Pass(rules[0], pkgName, content))
  }

  /** The content `fix_imports_in_file` writes back. */
  function Fix(pkgName: string, content: string): string {
    Passes(Rules, pkgName, content)
  }

  // ---------------------------------------------------------------- line by line

  /** The rewrites of `rules`, in order, on one line. */
  function FixLine(rules: seq<Rule>, pkgName: string, line: string): string
    decreases |rules|
  {
    if rules == [] then line else FixLine(rules[1..], pkgName, RewriteLine(rules[0], pkgName, line))
  }

  function FixLines(rules: seq<Rule>, pkgName: string, lines: seq<string>): (r: seq<string>)
    ensures |r| == |lines|
    ensures forall i :: 0 <= i < |lines| ==> r[i] == FixLine(rules, pkgName, lines[i])
  {
    if lines == [] then [] else [FixLine(rules, pkgName, lines[0])] + FixLines(rules, pkgName, lines[1..])
  }

  /** No pattern head spans a line. */
  predicate OneLineHeads(rules: seq<Rule>) {
    forall r :: r in rules ==> '\n' !in r.head
  }

  /** A rewrite adds no newline when the package name has none. */
  lemma RewriteNoNewline(rule: Rule, pkgName: string, line: string)
    requires '\n' !in pkgName && '\n' !in line && '\n' !in rule.head
    ensures '\n' !in RewriteLine(rule, pkgName, line)
  {
    RewriteLineInserts(rule, pkgName, line);
    if Matches(rule, line) {
      assert line == line[..|rule.head|] + line[|rule.head|..];
    }
  }

  /** Splitting the output of a pass gives the rewritten lines. */
  lemma {:induction false} PassLines(rule: Rule, pkgName: string, content: string)
    requires '\n' !in pkgName && '\n' !in rule.head
    ensures Split(Pass(rule, pkgName, content), '\n') == RewriteLines(rule, pkgName, Split(content, '\n'))
  {
    var lines := Split(content, '\n');
    SplitPiecesFree(content, '\n');
    forall i | 0 <= i < |lines|
      ensures '\n' !in RewriteLines(rule, pkgName, lines)[i]
    {
      RewriteNoNewline(rule, pkgName, lines[i]);
    }
    SplitJoin(RewriteLines(rule, pkgName, lines), '\n');
  }

  /** With a one-line package name the passes rewrite each line on its own. */
  lemma {:induction false} FixByLines(rules: seq<Rule>, pkgName: string, content: string)
    requires '\n' !in pkgName && OneLineHeads(rules)
    ensures Passes(rules, pkgName, content) == Join(FixLines(rules, pkgName, Split(content, '\n')), '\n')
    decreases |rules|
  {
    var lines := Split(content, '\n');
    if rules == [] {
      JoinSplit(content, '\n');
      assert FixLines(rules, pkgName, lines) == lines;
    } else {
      var c1 := Pass(rules[0], pkgName, content);
      assert rules[0] in rules;
      PassLines(rules[0], pkgName, content);
      FixByLines(rules[1..], pkgName, c1);
      assert FixLines(rules[1..], pkgName, RewriteLines(rules[0], pkgName, lines)) == FixLines(rules, pkgName, lines);
    }
  }

  // ---------------------------------------------------------------- idempotence

  /** The heads of any two patterns coincide or differ at their first character. */
  predicate HeadsApart(rules: seq<Rule>) {
    forall r, q :: r in rules && q in rules ==>
      r.head == q.head || (r.head != [] && q.head != [] && r.head[0] != q.head[0])
  }

  /** No alternative holds a dot. */
  predicate DotFree(rules: seq<Rule>) {
    forall r, p :: r in rules && p in r.alts ==> '.' !in p
  }

  /** No alternative is a prefix of the package name. */
  predicate Foreign(rules: seq<Rule>, pkgName: string) {
    forall r, p :: r in rules && p in r.alts ==> !StartsWith(pkgName, p)
  }

  /** No pattern matches the line. */
  predicate Settled(rules: seq<Rule>, line: string) {
    forall r :: r in rules ==> !Matches(r, line)
  }

  /** After the package name and a dot, no dot-free alternative that is not its prefix can follow. */
  lemma ForeignUnmatched(pkgName: string, p: string, rest: string)
    requires !StartsWith(pkgName, p) && '.' !in p
    ensures !StartsWith(pkgName + "." + rest, p)
  {
    var s := pkgName + "." + rest;
    if |pkgName| >= |p| {
      assert pkgName[..|p|] != p;
      var k :| 0 <= k < |p| && pkgName[k] != p[k];
      assert s[k] != p[k];
    } else {
      assert s[|pkgName|] != p[|pkgName|];
    }
  }

  /** A text starting with `a + b + c` has `b` right after `a`. */
  lemma StartsWithMiddle(s: string, a: string, b: string, c: string)
    ensures StartsWith(s, a + b + c) ==> StartsWith(s[|a|..], b)
  {
    if StartsWith(s, a + b + c) {
      assert s[|a|..][..|b|] == (a + b + c)[|a|..|a| + |b|];
    }
  }

  /** A head followed by the package name and a dot is matched by no pattern. */
  lemma InsertedUnmatched(head: string, other: Rule, pkgName: string, rest: string)
    requires other.head == head || (head != [] && other.head != [] && head[0] != other.head[0])
    requires forall p :: p in other.alts ==> !StartsWith(pkgName, p) && '.' !in p
    ensures !Matches(other, head + pkgName + "." + rest)
  {
    var s := head + pkgName + "." + rest;
    forall p | p in other.alts
      ensures !StartsWith(s, Pattern(other, p))
    {
      if other.head == head {
        assert s[|head|..] == pkgName + "." + rest;
        ForeignUnmatched(pkgName, p, rest);
        StartsWithMiddle(s, head, p, other.tail);
      } else {
        assert s[0] == head[0];
        assert Pattern(other, p)[0] == other.head[0];
      }
    }
  }

  /** The output of a rewrite that fired is settled. */
  lemma RewrittenSettled(rules: seq<Rule>, rule: Rule, pkgName: string, line: string)
    requires rule in rules && HeadsApart(rules) && DotFree(rules) && Foreign(rules, pkgName)
    requires Matches(rule, line)
    ensures Settled(rules, RewriteLine(rule, pkgName, line))
  {
    RewriteLineInserts(rule, pkgName, line);
    var rest := line[|rule.head|..];
    forall q | q in rules
      ensures !Matches(q, rule.head + pkgName + "." + rest)
    {
      InsertedUnmatched(rule.head, q, pkgName, rest);
    }
  }

  /** Rules drawn from `all` leave a line that `all` settles alone. */
  lemma {:induction false} SettledKept(all: seq<Rule>, rules: seq<Rule>, pkgName: string, line: string)
    requires forall r :: r in rules ==> r in all
    requires Settled(all, line)
    ensures FixLine(rules, pkgName, line) == line
    decreases |rules|
  {
    if rules != [] {
      assert rules[0] in all;
      RewriteLineInserts(rules[0], pkgName, line);
      SettledKept(all, rules[1..], pkgName, line);
    }
  }

  /**
   * Rules drawn from `all` either leave a settled line, or fire on nothing and
   * leave the line as it was.
   */
  lemma {:induction false} FixLineOutcome(all: seq<Rule>, rules: seq<Rule>, pkgName: string, line: string)
    requires forall r :: r in rules ==> r in all
    requires HeadsApart(all) && DotFree(all) && Foreign(all, pkgName)
    ensures Settled(all, FixLine(rules, pkgName, line))
         || (FixLine(rules, pkgName, line) == line && Settled(rules, line))
    decreases |rules|
  {
    if rules != [] {
      var r := rules[0];
      assert r in all;
      var l1 := RewriteLine(r, pkgName, line);
      RewriteLineInserts(r, pkgName, line);
      if Matches(r, line) {
        RewrittenSettled(all, r, pkgName, line);
        SettledKept(all, rules[1..], pkgName, l1);
      } else {
        FixLineOutcome(all, rules[1..], pkgName, line);
      }
    }
  }

  /** After all the rewrites no pattern matches the line. */
  lemma FixLineSettled(rules: seq<Rule>, pkgName: string, line: string)
    requires HeadsApart(rules) && DotFree(rules) && Foreign(rules, pkgName)
    ensures Settled(rules, FixLine(rules, pkgName, line))
  {
    FixLineOutcome(rules, rules, pkgName, line);
  }

  /** Fixing a line twice is fixing it once. */
  lemma FixLineIdempotent(rules: seq<Rule>, pkgName: string, line: string)
    requires HeadsApart(rules) && DotFree(rules) && Foreign(rules, pkgName)
    ensures FixLine(rules, pkgName, FixLine(rules, pkgName, line)) == FixLine(rules, pkgName, line)
  {
    FixLineSettled(rules, pkgName, line);
    SettledKept(rules, rules, pkgName, FixLine(rules, pkgName, line));
  }

  /** Fixing a line adds no newline. */
  lemma {:induction false} FixLineNoNewline(rules: seq<Rule>, pkgName: string, line: string)
    requires '\n' !in pkgName && '\n' !in line && OneLineHeads(rules)
    ensures '\n' !in FixLine(rules, pkgName, line)
    decreases |rules|
  {
    if rules != [] {
      assert rules[0] in rules;
      RewriteNoNewline(rules[0], pkgName, line);
      FixLineNoNewline(rules[1..], pkgName, RewriteLine(rules[0], pkgName, line));
    }
  }

  /**
   * The passes are idempotent: a rewritten line begins with the head and the
   * package name, which no pattern matches, so a second run changes nothing.
   */
  lemma PassesIdempotent(rules: seq<Rule>, pkgName: string, content: string)
    requires '\n' !in pkgName && OneLineHeads(rules)
    requires HeadsApart(rules) && DotFree(rules) && Foreign(rules, pkgName)
    ensures Passes(rules, pkgName, Passes(rules, pkgName, content)) == Passes(rules, pkgName, content)
  {
    var lines := Split(content, '\n');
    var fixed := FixLines(rules, pkgName, lines);
    FixByLines(rules, pkgName, content);
    SplitPiecesFree(content, '\n');
    forall i | 0 <= i < |lines|
      ensures '\n' !in fixed[i] && FixLines(rules, pkgName, fixed)[i] == fixed[i]
    {
      FixLineNoNewline(rules, pkgName, lines[i]);
      FixLineIdempotent(rules, pkgName, lines[i]);
    }
    SplitJoin(fixed, '\n');
    FixByLines(rules, pkgName, Passes(rules, pkgName, content));
    assert FixLines(rules, pkgName, fixed) == fixed;
  }

  /** A line starting with no pattern's head (an indented one, say) is left alone. */
  lemma {:induction false} HeadlessKept(rules: seq<Rule>, pkgName: string, line: string)
    requires forall r :: r in rules ==> !StartsWith(line, r.head)
    ensures FixLine(rules, pkgName, line) == line
    decreases |rules|
  {
    if rules != [] {
      assert rules[0] in rules;
      RewriteLineInserts(rules[0], pkgName, line);
      HeadlessKept(rules[1..], pkgName, line);
    }
  }

  // ---------------------------------------------------------------- the three patterns

  /** The heads are `from ` and `import `. */
  lemma RulesHeads()
    ensures forall r :: r in Rules ==> r.head == "from " || r.head == "import "
  {
  }

  /** The three patterns meet what the idempotence proof needs. */
  lemma RulesWellFormed()
    ensures OneLineHeads(Rules) && HeadsApart(Rules) && DotFree(Rules)
  {
    RulesHeads();
    assert "from "[0] == 'f' && "import "[0] == 'i';
    forall r, p | r in Rules && p in r.alts
      ensures '.' !in p
    {
      assert r.alts == Packages;
    }
  }

  /** The default package name `atlas_matrix` starts with none of the packages. */
  lemma AtlasMatrixForeign()
    ensures Foreign(Rules, "atlas_matrix")
  {
    forall r, p | r in Rules && p in r.alts
      ensures !StartsWith("atlas_matrix", p)
    {
      assert r.alts == Packages;
      assert "atlas_matrix"[0] == 'a';
    }
  }

  /** The fix is idempotent for every one-line package name that starts with no package. */
  lemma FixIdempotent(pkgName: string, content: string)
    requires '\n' !in pkgName && Foreign(Rules, pkgName)
    ensures Fix(pkgName, Fix(pkgName, content)) == Fix(pkgName, content)
  {
    RulesWellFormed();
    PassesIdempotent(Rules, pkgName, content);
  }

  /** Only lines starting with `from ` or `import ` can change. */
  lemma FixKeepsOtherLines(pkgName: string, line: string)
    requires !StartsWith(line, "from ") && !StartsWith(line, "import ")
    ensures FixLine(Rules, pkgName, line) == line
  {
    RulesHeads();
    HeadlessKept(Rules, pkgName, line);
  }

  // ---------------------------------------------------------------- fix_imports_in_file

  /**
   * `fix_imports_in_file`: read the file, apply the patterns in order, and
   * write the file back only when its content changed.
   */
  method FixImportsInFile(fs: Files, path: string, pkgName: string) returns (changed: bool)
    requires path in fs.text
    modifies fs
    ensures changed <==> Fix(pkgName, old(fs.text[path])) != old(fs.text[path])
    ensures fs.text == if changed then old(fs.text)[path := Fix(pkgName, old(fs.text[path]))] else old(fs.text)
  {
    var content := fs.Read(path);
    var original := content;
    var i := 0;
    while i < |Rules|
      invariant 0 <= i <= |Rules|
      invariant Passes(Rules[i..], pkgName, content) == Fix(pkgName, original)
    {
      assert Rules[i..][1..] == Rules[i + 1..];
      content := Pass(Rules[i], pkgName, content);
      i := i + 1;
    }
    if content != original {
      fs.Write(path, content);
      changed := true;
    } else {
      changed := false;
    }
  }

  /** A second run over the same file reports no change and leaves it as the first run did. */
  method FixTwice(fs: Files, path: string, pkgName: string) returns (first: bool, second: bool)
    requires path in fs.text
    requires '\n' !in pkgName && Foreign(Rules, pkgName)
    modifies fs
    ensures !second
    ensures fs.text == old(fs.text)[path := Fix(pkgName, old(fs.text[path]))]
  {
    first := FixImportsInFile(fs, path, pkgName);
    FixIdempotent(pkgName, old(fs.text[path]));
    second := FixImportsInFile(fs, path, pkgName);
  }

  // ---------------------------------------------------------------- find_python_files

  /** A directory as `os.walk` lists it: its name, its files and its subdirectories, in listing order. */
  datatype Dir = Dir(name: string, files: seq<string>, subdirs: seq<Dir>)

  /** A file found: the directory names leading to it from the root, and its own name. */
  datatype Found = Found(dirs: seq<string>, name: string)

  /** The directory names skipped when no set is given. */
  const DefaultExcluded: set<string> := {"__pycache__", ".git", ".idea", "venv", "env"}

  /** `exclude_dirs`, falling back to the defaults when it is `None`. */
  function ExcludedNames(exclude: Option<set<string>>): (r: set<string>)
    ensures exclude.None? ==> "__pycache__" in r && ".git" in r && ".idea" in r && "venv" in r && "env" in r
  {
    if exclude.None? then DefaultExcluded else exclude.value
  }

  /** The `.py` files among `files`, found at `dirs`, in order. */
  function PyFound(dirs: seq<string>, files: seq<string>): seq<Found> {
    if files == [] then []
    else (if EndsWith(files[0], ".py") then [Found(dirs, files[0])] else []) + PyFound(dirs, files[1..])
  }

  lemma {:induction false} PyFoundAppend(dirs: seq<string>, a: seq<string>, b: seq<string>)
    ensures PyFound(dirs, a + b) == PyFound(dirs, a) + PyFound(dirs, b)
  {
    if a != [] {
      assert (a + b)[1..] == a[1..] + b;
      PyFoundAppend(dirs, a[1..], b);
    } else {
      assert a + b == b;
    }
  }

  /** Exactly the `.py` files are found, at the given place. */
  lemma {:induction false} PyFoundMembers(dirs: seq<string>, files: seq<string>, x: Found)
    ensures x in PyFound(dirs, files) <==> x.dirs == dirs && x.name in files && EndsWith(x.name, ".py")
  {
    if files != [] {
      PyFoundMembers(dirs, files[1..], x);
    }
  }

  /** What `os.walk` from `d` (reached through `dirs`) yields, top-down, with excluded names pruned. */
  function Walk(dirs: seq<string>, d: Dir, ex: set<string>): seq<Found>
    decreases d, 1
  {
    PyFound(dirs, d.files) + WalkFrom(dirs, d, 0, ex)
  }

  /** The walks of the subdirectories of `d` from the `k`-th on that are not pruned. */
  function WalkFrom(dirs: seq<string>, d: Dir, k: nat, ex: set<string>): seq<Found>
    decreases d, 0, |d.subdirs| - k
  {
    if k >= |d.subdirs| then []
    else
      var s := d.subdirs[k];
      (if s.name in ex then [] else Walk(dirs + [s.name], s, ex)) + WalkFrom(dirs, d, k + 1, ex)
  }

  /** `name` is a file of the directory reached from `d` through `dirs`, passing no excluded name. */
  predicate Reachable(d: Dir, dirs: seq<string>, name: string, ex: set<string>)
    decreases d, 1
  {
    if dirs == [] then name in d.files else ReachableVia(d, 0, dirs, name, ex)
  }

  /** The way to `name` goes through one of the subdirectories of `d` from the `k`-th on. */
  predicate ReachableVia(d: Dir, k: nat, dirs: seq<string>, name: string, ex: set<string>)
    requires dirs != []
    decreases d, 0, |d.subdirs| - k
  {
    k < |d.subdirs|
    && ((d.subdirs[k].name == dirs[0] && dirs[0] !in ex && Reachable(d.subdirs[k], dirs[1..], name, ex))
        || ReachableVia(d, k + 1, dirs, name, ex))
  }

  /** Everything a walk finds lies below where it started. */
  lemma {:induction false} WalkBelow(dirs: seq<string>, d: Dir, ex: set<string>, x: Found)
    ensures x in Walk(dirs, d, ex) ==> |dirs| <= |x.dirs| && x.dirs[..|dirs|] == dirs
    decreases d, 1
  {
    PyFoundMembers(dirs, d.files, x);
    WalkFromBelow(dirs, d, 0, ex, x);
  }

  lemma {:induction false} WalkFromBelow(dirs: seq<string>, d: Dir, k: nat, ex: set<string>, x: Found)
    ensures x in WalkFrom(dirs, d, k, ex) ==> |dirs| < |x.dirs| && x.dirs[..|dirs|] == dirs
    decreases d, 0, |d.subdirs| - k
  {
    if k < |d.subdirs| {
      var s := d.subdirs[k];
      WalkBelow(dirs + [s.name], s, ex, x);
      WalkFromBelow(dirs, d, k + 1, ex, x);
      if s.name !in ex && x in Walk(dirs + [s.name], s, ex) {
        assert x.dirs[..|dirs|] == x.dirs[..|dirs| + 1][..|dirs|];
      }
    }
  }

  /** What a subdirectory's walk finds lies below that subdirectory's name. */
  lemma WalkBelowHead(dirs: seq<string>, s: Dir, ex: set<string>, c: seq<string>, n: string)
    ensures Found(dirs + c, n) in Walk(dirs + [s.name], s, ex) ==> c != [] && c[0] == s.name
  {
    var x := Found(dirs + c, n);
    WalkBelow(dirs + [s.name], s, ex, x);
    if x in Walk(dirs + [s.name], s, ex) {
      assert x.dirs[|dirs|] == (dirs + [s.name])[|dirs|];
    }
  }

  /** A walk finds exactly the `.py` files reachable without passing an excluded directory. */
  lemma {:induction false} WalkFinds(dirs: seq<string>, d: Dir, ex: set<string>, c: seq<string>, n: string)
    ensures Found(dirs + c, n) in Walk(dirs, d, ex) <==> EndsWith(n, ".py") && Reachable(d, c, n, ex)
    decreases d, 1
  {
    var x := Found(dirs + c, n);
    PyFoundMembers(dirs, d.files, x);
    if c == [] {
      assert dirs + c == dirs;
      WalkFromBelow(dirs, d, 0, ex, x);
    } else {
      assert |dirs + c| != |dirs|;
      WalkFromFinds(dirs, d, 0, ex, c, n);
    }
  }

  lemma {:induction false} WalkFromFinds(dirs: seq<string>, d: Dir, k: nat, ex: set<string>, c: seq<string>, n: string)
    requires c != []
    ensures Found(dirs + c, n) in WalkFrom(dirs, d, k, ex) <==> EndsWith(n, ".py") && ReachableVia(d, k, c, n, ex)
    decreases d, 0, |d.subdirs| - k
  {
    if k < |d.subdirs| {
      var s := d.subdirs[k];
      WalkFromFinds(dirs, d, k + 1, ex, c, n);
      SubWalkFinds(dirs, s, ex, c, n);
    }
  }

  /** A subdirectory's walk finds a file below it exactly when the file is reachable in it. */
  lemma {:induction false} SubWalkFinds(dirs: seq<string>, s: Dir, ex: set<string>, c: seq<string>, n: string)
    requires c != []
    ensures Found(dirs + c, n) in Walk(dirs + [s.name], s, ex) <==>
      s.name == c[0] && EndsWith(n, ".py") && Reachable(s, c[1..], n, ex)
    decreases s, 2
  {
    if s.name == c[0] {
      assert dirs + c == (dirs + [s.name]) + c[1..];
      WalkFinds(dirs + [s.name], s, ex, c[1..], n);
    } else {
      WalkBelowHead(dirs, s, ex, c, n);
    }
  }

  /** A directory waiting to be walked, with the names leading to it. */
  datatype Pending = Pending(dirs: seq<string>, dir: Dir)

  /** The walks of the pending directories, in order. */
  function WalkAll(stack: seq<Pending>, ex: set<string>): seq<Found> {
    if stack == [] then [] else Walk(stack[0].dirs, stack[0].dir, ex) + WalkAll(stack[1..], ex)
  }

  lemma {:induction false} WalkAllAppend(a: seq<Pending>, b: seq<Pending>, ex: set<string>)
    ensures WalkAll(a + b, ex) == WalkAll(a, ex) + WalkAll(b, ex)
  {
    if a != [] {
      assert (a + b)[1..] == a[1..] + b;
      WalkAllAppend(a[1..], b, ex);
    } else {
      assert a + b == b;
    }
  }

  /** `dirs[:] = [d for d in dirs if d not in exclude_dirs]`, from the `k`-th subdirectory on. */
  function Kept(dirs: seq<string>, d: Dir, k: nat, ex: set<string>): seq<Pending>
    decreases |d.subdirs| - k
  {
    if k >= |d.subdirs| then []
    else
      var s := d.subdirs[k];
      (if s.name in ex then [] else [Pending(dirs + [s.name], s)]) + Kept(dirs, d, k + 1, ex)
  }

  /** Walking the kept subdirectories is walking from them. */
  lemma {:induction false} WalkAllKept(dirs: seq<string>, d: Dir, k: nat, ex: set<string>)
    ensures WalkAll(Kept(dirs, d, k, ex), ex) == WalkFrom(dirs, d, k, ex)
    decreases |d.subdirs| - k
  {
    if k < |d.subdirs| {
      var s := d.subdirs[k];
      var head: seq<Pending> := if s.name in ex then [] else [Pending(dirs + [s.name], s)];
      WalkAllKept(dirs, d, k + 1, ex);
      WalkAllAppend(head, Kept(dirs, d, k + 1, ex), ex);
      if s.name !in ex {
        assert WalkAll(head, ex) == Walk(dirs + [s.name], s, ex) + WalkAll([], ex);
      }
    }
  }

  /** The number of directories in a tree. */
  function Size(d: Dir): nat
    decreases d, 1
  {
    1 + SizeFrom(d, 0)
  }

  function SizeFrom(d: Dir, k: nat): nat
    decreases d, 0, |d.subdirs| - k
  {
    if k >= |d.subdirs| then 0 else Size(d.subdirs[k]) + SizeFrom(d, k + 1)
  }

  function StackSize(stack: seq<Pending>): nat {
    if stack == [] then 0 else Size(stack[0].dir) + StackSize(stack[1..])
  }

  lemma {:induction false} StackSizeAppend(a: seq<Pending>, b: seq<Pending>)
    ensures StackSize(a + b) == StackSize(a) + StackSize(b)
  {
    if a != [] {
      assert (a + b)[1..] == a[1..] + b;
      StackSizeAppend(a[1..], b);
    } else {
      assert a + b == b;
    }
  }

  lemma {:induction false} KeptSize(dirs: seq<string>, d: Dir, k: nat, ex: set<string>)
    ensures StackSize(Kept(dirs, d, k, ex)) <= SizeFrom(d, k)
    decreases |d.subdirs| - k
  {
    if k < |d.subdirs| {
      var s := d.subdirs[k];
      var head: seq<Pending> := if s.name in ex then [] else [Pending(dirs + [s.name], s)];
      KeptSize(dirs, d, k + 1, ex);
      StackSizeAppend(head, Kept(dirs, d, k + 1, ex));
    }
  }

  /** The `.py` files of one directory, in listing order: the inner loop over `files`. */
  method CollectPyFiles(dirs: seq<string>, files: seq<string>) returns (found: seq<Found>)
    ensures found == PyFound(dirs, files)
  {
    found := [];
    var i := 0;
    while i < |files|
      invariant 0 <= i <= |files|
      invariant found == PyFound(dirs, files[..i])
    {
      PyFoundAppend(dirs, files[..i], [files[i]]);
      assert files[..i + 1] == files[..i] + [files[i]];
      if EndsWith(files[i], ".py") {
        found := found + [Found(dirs, files[i])];
      }
      i := i + 1;
    }
    assert files[..i] == files;
  }

  /**
   * `find_python_files`: walk the tree top-down, pruning excluded directory
   * names before descending, and list the `.py` files in the order visited.
   */
  method FindPythonFiles(root: Dir, exclude: Option<set<string>>) returns (found: seq<Found>)
    ensures found == Walk([], root, ExcludedNames(exclude))
  {
    var ex := ExcludedNames(exclude);
    found := [];
    var stack := [Pending([], root)];
    assert WalkAll(stack, ex) == Walk([], root, ex) + WalkAll([], ex);
    while stack != []
      invariant found + WalkAll(stack, ex) == Walk([], root, ex)
      decreases StackSize(stack)
    {
      var top := stack[0];
      var here := CollectPyFiles(top.dirs, top.dir.files);
      var children := Kept(top.dirs, top.dir, 0, ex);
      VisitStep(stack, ex);
      found := found + here;
      stack := children + stack[1..];
    }
  }

  /** Visiting the first pending directory lists its files and puts its kept subdirectories first. */
  lemma VisitStep(stack: seq<Pending>, ex: set<string>)
    requires stack != []
    ensures var top := stack[0];
      var next := Kept(top.dirs, top.dir, 0, ex) + stack[1..];
      && WalkAll(stack, ex) == PyFound(top.dirs, top.dir.files) + WalkAll(next, ex)
      && StackSize(next) < StackSize(stack)
  {
    var top := stack[0];
    var children := Kept(top.dirs, top.dir, 0, ex);
    WalkAllKept(top.dirs, top.dir, 0, ex);
    WalkAllAppend(children, stack[1..], ex);
    KeptSize(top.dirs, top.dir, 0, ex);
    StackSizeAppend(children, stack[1..]);
  }

  /** Every file found is a `.py` file reached without entering an excluded directory, and every such file is found. */
  lemma FindsExactly(root: Dir, exclude: Option<set<string>>, x: Found)
    ensures x in Walk([], root, ExcludedNames(exclude)) <==>
      EndsWith(x.name, ".py") && Reachable(root, x.dirs, x.name, ExcludedNames(exclude))
  {
    assert [] + x.dirs == x.dirs;
    WalkFinds([], root, ExcludedNames(exclude), x.dirs, x.name);
  }
}
