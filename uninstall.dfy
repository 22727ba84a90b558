/**
 * The uninstaller: it strips the marked start-up blocks out of Maya's
 * `userSetup` files line by line, deletes the shelf files, and reports
 * whether enough of those steps succeeded.
 */
module Uninstaller {
  import opened Wrappers
  import opened Text
  import opened FileStore
  import opened Installer

  // ---------------------------------------------------------------- the line filter

  /** What the filter does with one line: keep it or not, and the skip mode after it. */
  datatype Step = Step(keep: bool, skip: bool)

  /** Lines the filter takes for setup commands: the last line of a block. */
  predicate IsSetupCommand(line: string) {
    Contains(line, "putenv") || Contains(line, "sys.path.append") || Contains(line, "mel.eval")
  }

  /** Lines the filter takes for part of a block: blank, comment, or naming the tool. */
  predicate IsBlockFiller(line: string) {
    Strip(line) == [] || StartsWith(Strip(line), "#")
    || Contains(line, "ATLAS_MATRIX") || Contains(Lower(line), "atlas_matrix")
  }

  /** One turn of the loop in `remove_from_usersetup`. */
  function LineStep(line: string, marker: string, skip: bool): (r: Step)
    ensures Contains(line, marker) ==> !r.keep && r.skip
    ensures !skip && !Contains(line, marker) ==> r.keep && !r.skip
    ensures skip && !Contains(line, marker) ==>
      (r.keep <==> !IsBlockFiller(line) && !IsSetupCommand(line))
      && (r.skip <==> IsBlockFiller(line))
  {
    if Contains(line, marker) then Step(false, true)
    else if !skip then Step(true, false)
    else if Strip(line) == [] || StartsWith(Strip(line), "#") then Step(false, true)
    else if Contains(line, "ATLAS_MATRIX") || Contains(Lower(line), "atlas_matrix") then Step(false, true)
    else if IsSetupCommand(line) then Step(false, false)
    else Step(true, false)
  }

  /** The lines `remove_from_usersetup` keeps, starting in the given skip mode. */
  function Filtered(lines: seq<string>, marker: string, skip: bool): seq<string> {
    if lines == [] then []
    else
      var step := LineStep(lines[0], marker, skip);
      (if step.keep then [lines[0]] else []) + Filtered(lines[1..], marker, step.skip)
  }

  /** Some line holds the marker. */
  predicate HasMarkerLine(lines: seq<string>, marker: string) {
    exists i :: 0 <= i < |lines| && Contains(lines[i], marker)
  }

  /** `a` is `b` with some lines left out, the rest in their original order. */
  predicate Subsequence(a: seq<string>, b: seq<string>)
    decreases |b|
  {
    if a == [] then true
    else if b == [] then false
    else (a[0] == b[0] && Subsequence(a[1..], b[1..])) || Subsequence(a, b[1..])
  }

  /** No kept line holds the marker. */
  lemma {:induction false} FilteredDropsMarker(lines: seq<string>, marker: string, skip: bool)
    ensures forall l :: l in Filtered(lines, marker, skip) ==> !Contains(l, marker)
  {
    if lines != [] {
      FilteredDropsMarker(lines[1..], marker, LineStep(lines[0], marker, skip).skip);
    }
  }

  /** The kept lines are input lines, in input order. */
  lemma {:induction false} FilteredSubsequence(lines: seq<string>, marker: string, skip: bool)
    ensures Subsequence(Filtered(lines, marker, skip), lines)
  {
    if lines != [] {
      var step := LineStep(lines[0], marker, skip);
      var rest := Filtered(lines[1..], marker, step.skip);
      FilteredSubsequence(lines[1..], marker, step.skip);
      if step.keep {
        assert Filtered(lines, marker, skip) == [lines[0]] + rest;
        assert ([lines[0]] + rest)[1..] == rest;
      } else {
        assert Filtered(lines, marker, skip) == rest;
      }
    }
  }

  /** Every line before the first marker line is kept verbatim. */
  lemma {:induction false} FilteredKeepsPrefix(lines: seq<string>, marker: string, k: nat)
    requires k <= |lines|
    requires forall i :: 0 <= i < k ==> !Contains(lines[i], marker)
    ensures Filtered(lines, marker, false) == lines[..k] + Filtered(lines[k..], marker, false)
  {
    if k > 0 {
      FilteredKeepsPrefix(lines[1..], marker, k - 1);
      assert lines[1..][k - 1..] == lines[k..];
      assert lines[..k] == [lines[0]] + lines[1..][..k - 1];
    }
  }

  /** Without a marker line the filter keeps every line. */
  lemma NoMarkerKeepsAll(lines: seq<string>, marker: string)
    requires !HasMarkerLine(lines, marker)
    ensures Filtered(lines, marker, false) == lines
  {
    FilteredKeepsPrefix(lines, marker, |lines|);
    assert lines[|lines|..] == [];
  }

  /** A marker line followed by a setup command takes both lines out. */
  lemma MarkerThenCommand(marker: string, markerLine: string, command: string, rest: seq<string>)
    requires Contains(markerLine, marker) && !Contains(command, marker)
    requires !IsBlockFiller(command) && IsSetupCommand(command)
    ensures Filtered([markerLine, command] + rest, marker, false) == Filtered(rest, marker, false)
  {
    assert ([markerLine, command] + rest)[1..] == [command] + rest;
    assert ([command] + rest)[1..] == rest;
  }

  /** A marker line followed by any other line ends skipping there and keeps that line. */
  lemma MarkerThenOther(marker: string, markerLine: string, other: string, rest: seq<string>)
    requires Contains(markerLine, marker) && !Contains(other, marker)
    requires !IsBlockFiller(other) && !IsSetupCommand(other)
    ensures Filtered([markerLine, other] + rest, marker, false) == [other] + Filtered(rest, marker, false)
  {
    assert ([markerLine, other] + rest)[1..] == [other] + rest;
    assert ([other] + rest)[1..] == rest;
  }

  /** The tests one line goes through in `remove_from_usersetup`. */
  method ClassifyLine(line: string, marker: string, skip: bool) returns (keep: bool, nextSkip: bool)
    ensures Step(keep, nextSkip) == LineStep(line, marker, skip)
  {
    if Contains(line, marker) {
      return false, true;
    }
    if skip {
      if Strip(line) == [] || StartsWith(Strip(line), "#") {
        return false, true;
      } else if Contains(line, "ATLAS_MATRIX") || Contains(Lower(line), "atlas_matrix") {
        return false, true;
      } else if Contains(line, "putenv") || Contains(line, "sys.path.append") || Contains(line, "mel.eval") {
        return false, false;
      } else {
        return true, false;
      }
    }
    return true, false;
  }

  /** One line taken off the front of the filter's input. */
  lemma FilteredStep(lines: seq<string>, i: nat, marker: string, skip: bool)
    requires i < |lines|
    ensures var step := LineStep(lines[i], marker, skip);
      Filtered(lines[i..], marker, skip)
      == (if step.keep then [lines[i]] else []) + Filtered(lines[i + 1..], marker, step.skip)
  {
    assert lines[i..][1..] == lines[i + 1..];
  }

  /** A marker line among the first `i + 1` lines is among the first `i` or is line `i`. */
  lemma HasMarkerLineStep(lines: seq<string>, i: nat, marker: string)
    requires i < |lines|
    ensures HasMarkerLine(lines[..i + 1], marker) <==> HasMarkerLine(lines[..i], marker) || Contains(lines[i], marker)
  {
    assert lines[..i + 1] == lines[..i] + [lines[i]];
    if HasMarkerLine(lines[..i + 1], marker) && !Contains(lines[i], marker) {
      var j :| 0 <= j < i + 1 && Contains(lines[..i + 1][j], marker);
      assert lines[..i][j] == lines[..i + 1][j];
    }
    if HasMarkerLine(lines[..i], marker) {
      var j :| 0 <= j < i && Contains(lines[..i][j], marker);
      assert lines[..i + 1][j] == lines[..i][j];
    }
  }

  lemma AppendAssoc(a: seq<string>, b: seq<string>, c: seq<string>)
    ensures (a + b) + c == a + (b + c)
  {
  }

  /** The loop of `remove_from_usersetup`: the kept lines and whether a marker was seen. */
  method FilterLines(lines: seq<string>, marker: string) returns (kept: seq<string>, found: bool)
    ensures kept == Filtered(lines, marker, false)
    ensures found <==> HasMarkerLine(lines, marker)
  {
    kept := [];
    found := false;
    var skip := false;
    var i := 0;
    while i < |lines|
      invariant 0 <= i <= |lines|
      invariant kept + Filtered(lines[i..], marker, skip) == Filtered(lines, marker, false)
      invariant found <==> HasMarkerLine(lines[..i], marker)
    {
      var line := lines[i];
      ghost var step := LineStep(line, marker, skip);
      ghost var rest := Filtered(lines[i + 1..], marker, step.skip);
      FilteredStep(lines, i, marker, skip);
      HasMarkerLineStep(lines, i, marker);
      if Contains(line, marker) {
        found := true;
      }
      var keep;
      keep, skip := ClassifyLine(line, marker, skip);
      var taken := if keep then [line] else [];
      assert kept + (taken + rest) == Filtered(lines, marker, false);
      AppendAssoc(kept, taken, rest);
      kept := kept + taken;
      assert kept + rest == Filtered(lines, marker, false);
      i := i + 1;
    }
    assert lines[..i] == lines;
  }

  /**
   * Whether `remove_from_usersetup` returns True. `unreadable` are the files
   * whose reading raises and `unwritable` those whose opening for writing
   * raises; a write is attempted only when a marker line was found.
   */
  predicate RemoveOk(text: map<string, string>, path: string, marker: string,
                     unreadable: set<string>, unwritable: set<string>) {
    path !in text || (path !in unreadable && !(HasMarkerLine(Lines(text[path]), marker) && path in unwritable))
  }

  /** The files after `remove_from_usersetup`: only a read and a write that both succeed change the file. */
  function RemovedFrom(text: map<string, string>, path: string, marker: string,
                       unreadable: set<string>, unwritable: set<string>): map<string, string>
  {
    if path !in text || path in unreadable then text
    else
      var lines := Lines(text[path]);
      if HasMarkerLine(lines, marker) && path !in unwritable then text[path := Concat(Filtered(lines, marker, false))] else text
  }

  /**
   * `remove_from_usersetup`: a missing file succeeds untouched, an unreadable
   * file fails untouched, a file without a marker line succeeds untouched
   * (nothing is written), and a file with one is rewritten, or fails
   * untouched when it cannot be written.
   */
  method RemoveFromUsersetup(fs: Files, path: string, marker: string, unreadable: set<string>, unwritable: set<string>)
    returns (ok: bool)
    modifies fs
    ensures ok <==> path !in old(fs.text) || (path !in unreadable && !(HasMarkerLine(Lines(old(fs.text)[path]), marker) && path in unwritable))
    ensures fs.text == RemovedFrom(old(fs.text), path, marker, unreadable, unwritable)
  {
    if !fs.Exists(path) {
      return true;
    }
    if path in unreadable {
      return false;
    }
    var lines := Lines(fs.Read(path));
    var kept, found := FilterLines(lines, marker);
    if found {
      if path in unwritable {
        return false;
      }
      fs.Write(path, Concat(kept));
    }
    return true;
  }

  /** A rewritten file is written from old lines, in order, none of which holds the marker. */
  lemma RemovedFromSpec(text: map<string, string>, path: string, marker: string, unreadable: set<string>, unwritable: set<string>)
    requires path in text && path !in unreadable && path !in unwritable && HasMarkerLine(Lines(text[path]), marker)
    ensures exists kept ::
      && TextOf(RemovedFrom(text, path, marker, unreadable, unwritable), path) == Concat(kept)
      && Subsequence(kept, Lines(text[path]))
      && forall l :: l in kept ==> !Contains(l, marker)
  {
    var kept := Filtered(Lines(text[path]), marker, false);
    FilteredDropsMarker(Lines(text[path]), marker, false);
    FilteredSubsequence(Lines(text[path]), marker, false);
  }

  // ---------------------------------------------------------------- the Python block

  /** A line with visible text, no `#` and a single newline at its end. */
  predicate PlainLine(l: string) {
    IsLine(l) && '#' !in l && Strip(l) != []
  }

  lemma PlainText(l: string, i: nat)
    requires IsLine(l) && '#' !in l
    requires i < |l| && !IsSpace(l[i])
    ensures PlainLine(l)
  {
    StripKeeps(l, i);
  }

  /** A plain line never holds a marker, which starts with `#`. */
  lemma PlainUnmarked(l: string, marker: string)
    requires PlainLine(l) && marker != [] && marker[0] == '#'
    ensures !Contains(l, marker)
  {
    MissingChar(l, marker, 0);
  }

  /** The line that names the parent directory is plain when the directory is. */
  lemma ParentLinePlain(parentDir: string)
    requires '\n' !in parentDir && '#' !in parentDir
    ensures PlainLine(PyBlockLines(parentDir)[2])
  {
    PlainText(PyBlockLines(parentDir)[2], 0);
  }

  /** The `import sys` line of the block is plain. */
  lemma ImportLinePlain(parentDir: string)
    ensures PlainLine(PyBlockLines(parentDir)[1])
  {
    PlainText(PyBlockLines(parentDir)[1], 0);
  }

  /** The line testing `sys.path` is plain. */
  lemma TestLinePlain(parentDir: string)
    ensures PlainLine(PyBlockLines(parentDir)[3])
  {
    PlainText(PyBlockLines(parentDir)[3], 0);
  }

  /** The last line of the block is plain. */
  lemma LastLinePlain(parentDir: string)
    ensures PlainLine(PyBlockLines(parentDir)[4])
  {
    PlainText(PyBlockLines(parentDir)[4], 4);
  }

  /** The block's marker line is one line, and the others are plain. */
  lemma PyBlockFacts(parentDir: string)
    requires '\n' !in parentDir && '#' !in parentDir
    ensures var ls := PyBlockLines(parentDir);
      && |ls| == 5 && IsLine(ls[0]) && Contains(ls[0], ScriptMarker)
      && PlainLine(ls[1]) && PlainLine(ls[2]) && PlainLine(ls[3]) && PlainLine(ls[4])
  {
    var ls := PyBlockLines(parentDir);
    assert IsLine(ls[0]);
    ContainsPrefix(ls[0], ScriptMarker);
    ParentLinePlain(parentDir);
    ImportLinePlain(parentDir);
    TestLinePlain(parentDir);
    LastLinePlain(parentDir);
  }

  /** A line without `u` or `.` runs no setup command. */
  lemma NoSetupChars(l: string)
    requires 'u' !in l && '.' !in l
    ensures !IsSetupCommand(l)
  {
    MissingChar(l, "putenv", 1);
    MissingChar(l, "sys.path.append", 3);
    MissingChar(l, "mel.eval", 3);
  }

  /** A line starting with visible text other than `#` and without `a` or `A` is no filler. */
  lemma NoFillerChars(l: string)
    requires l != [] && !IsSpace(l[0]) && l[0] != '#'
    requires 'a' !in l && 'A' !in l
    ensures !IsBlockFiller(l)
  {
    StripKeeps(l, 0);
    assert StripLeft(l) == l;
    assert Strip(l)[0] == l[0];
    MissingChar(l, "ATLAS_MATRIX", 0);
    assert 'a' !in Lower(l) by {
      forall i | 0 <= i < |l|
        ensures Lower(l)[i] != 'a'
      {
        assert l[i] != 'A' && l[i] != 'a';
      }
    }
    MissingChar(Lower(l), "atlas_matrix", 0);
  }

  /** Visible text without `#`, `u`, `.` or `a` in either case: no filler and no setup command. */
  predicate EndsSkipping(l: string) {
    l != [] && !IsSpace(l[0]) && l[0] != '#'
    && 'u' !in l && '.' !in l && 'a' !in l && 'A' !in l
  }

  /** The `import sys` line of the block ends skipping. */
  lemma ImportSysEndsSkipping(parentDir: string)
    ensures EndsSkipping(PyBlockLines(parentDir)[1])
  {
    var l := PyBlockLines(parentDir)[1];
    assert l[0] == 'i';
  }

  /** Five complete lines written out are read back as those lines. */
  lemma FiveLinesRead(ls: seq<string>)
    requires |ls| == 5
    requires IsLine(ls[0]) && IsLine(ls[1]) && IsLine(ls[2]) && IsLine(ls[3]) && IsLine(ls[4])
    ensures Lines(Concat(ls)) == ls
  {
    forall i | 0 <= i < |ls|
      ensures IsLine(ls[i])
    {
      if i == 0 {} else if i == 1 {} else if i == 2 {} else if i == 3 {} else {}
    }
    LinesOfConcat(ls);
  }

  /** The lines of unmarked text, and the blank line after it, hold no marker. */
  lemma HeadUnmarked(existing: string, marker: string)
    requires !Contains(existing, marker) && marker != [] && marker[0] != '\n'
    ensures forall i :: 0 <= i < |Lines(existing) + ["\n"]| ==> !Contains((Lines(existing) + ["\n"])[i], marker)
  {
    forall i | 0 <= i < |Lines(existing) + ["\n"]|
      ensures !Contains((Lines(existing) + ["\n"])[i], marker)
    {
      if i < |Lines(existing)| {
        if Contains(Lines(existing)[i], marker) {
          ContainsLine(Lines(existing), i, marker);
        }
      } else {
        MissingChar("\n", marker, 0);
      }
    }
  }

  /** A block appended to text that ends a line is read as the old lines, a blank line, and the block. */
  lemma AppendedLines(existing: string, marker: string, block: string)
    requires existing == [] || existing[|existing| - 1] == '\n'
    requires !Contains(existing, marker)
    ensures Lines(AppendedOnce(existing, marker, block)) == Lines(existing) + ["\n"] + Lines(block)
  {
    assert AppendedOnce(existing, marker, block) == (existing + "\n") + block;
    LinesAppend(existing, "\n");
    assert Lines("\n") == ["\n"];
    LinesAppend(existing + "\n", block);
  }

  /** Filtering text that begins with unmarked lines keeps those lines and filters the rest. */
  lemma FilteredAfterHead(head: seq<string>, marker: string, ls: seq<string>)
    requires forall i :: 0 <= i < |head| ==> !Contains(head[i], marker)
    ensures Filtered(head + ls, marker, false) == head + Filtered(ls, marker, false)
  {
    FilteredKeepsPrefix(head + ls, marker, |head|);
    assert (head + ls)[..|head|] == head && (head + ls)[|head|..] == ls;
  }

  /** A line that ends skipping is kept, and the filter stops skipping there. */
  lemma EndsSkippingStep(l: string, marker: string)
    requires EndsSkipping(l) && !Contains(l, marker)
    ensures LineStep(l, marker, true) == Step(true, false)
  {
    NoSetupChars(l);
    NoFillerChars(l);
  }

  /** The filter as written on a five-line block whose second line ends skipping. */
  lemma FilteredFive(marker: string, ls: seq<string>)
    requires |ls| == 5 && Contains(ls[0], marker)
    requires LineStep(ls[1], marker, true) == Step(true, false)
    requires !Contains(ls[2], marker) && !Contains(ls[3], marker) && !Contains(ls[4], marker)
    ensures Filtered(ls, marker, false) == ls[1..]
  {
    var tail := ls[2..];
    assert !HasMarkerLine(tail, marker) by {
      forall i | 0 <= i < |tail|
        ensures !Contains(tail[i], marker)
      {
        if i == 0 {} else if i == 1 {} else {}
      }
    }
    NoMarkerKeepsAll(tail, marker);
    assert ls[1..][1..] == tail;
    assert Filtered(ls[1..], marker, true) == [ls[1]] + tail;
    assert Filtered(ls, marker, false) == Filtered(ls[1..], marker, true);
  }

  /** Block-aware removal keeps unmarked leading lines and filters the rest. */
  lemma BlockFilteredAfterHead(head: seq<string>, marker: string, ls: seq<string>)
    requires forall i :: 0 <= i < |head| ==> !Contains(head[i], marker)
    ensures BlockFiltered(head + ls, marker, false) == head + BlockFiltered(ls, marker, false)
  {
    BlockFilteredKeepsPrefix(head + ls, marker, |head|);
    assert (head + ls)[..|head|] == head && (head + ls)[|head|..] == ls;
  }

  /** Block-aware removal takes out a five-line block of visible lines whole. */
  lemma BlockFilteredFive(marker: string, ls: seq<string>)
    requires |ls| == 5 && Contains(ls[0], marker)
    requires Strip(ls[1]) != [] && Strip(ls[2]) != [] && Strip(ls[3]) != [] && Strip(ls[4]) != []
    ensures BlockFiltered(ls, marker, false) == []
  {
    forall i | 0 <= i < |ls[1..]|
      ensures Strip(ls[1..][i]) != []
    {
      if i == 0 {} else if i == 1 {} else if i == 2 {} else {}
    }
    BlockSkipsThrough(ls[1..], marker);
  }

  /** Read back, the Python block is exactly its lines. */
  lemma PyBlockRead(parentDir: string)
    requires '\n' !in parentDir && '#' !in parentDir
    ensures Lines(PyBlock(parentDir)) == PyBlockLines(parentDir)
  {
    var ls := PyBlockLines(parentDir);
    PyBlockFacts(parentDir);
    FiveLinesRead(ls);
  }

  /**
   * As written, `remove_from_usersetup` takes only the marker line out of the
   * block the installer puts in `userSetup.py`: `import sys` ends skipping, so
   * the code that puts the package on `sys.path` stays in the file.
   */
  lemma PyBlockLeftBehind(existing: string, parentDir: string)
    requires existing == [] || existing[|existing| - 1] == '\n'
    requires !Contains(existing, ScriptMarker)
    requires '\n' !in parentDir && '#' !in parentDir
    ensures Filtered(Lines(AppendedOnce(existing, ScriptMarker, PyBlock(parentDir))), ScriptMarker, false)
         == Lines(existing) + ["\n"] + PyBlockLines(parentDir)[1..]
  {
    PyBlockRead(parentDir);
    AppendedLines(existing, ScriptMarker, PyBlock(parentDir));
    HeadUnmarked(existing, ScriptMarker);
    PyBlockFilteredAsWritten(parentDir);
    FilteredAfterHead(Lines(existing) + ["\n"], ScriptMarker, PyBlockLines(parentDir));
  }

  /** Only the marker line of the block itself holds the marker. */
  lemma PyBlockUnmarked(parentDir: string)
    requires '\n' !in parentDir && '#' !in parentDir
    ensures var ls := PyBlockLines(parentDir);
      && !Contains(ls[1], ScriptMarker) && !Contains(ls[2], ScriptMarker)
      && !Contains(ls[3], ScriptMarker) && !Contains(ls[4], ScriptMarker)
  {
    var ls := PyBlockLines(parentDir);
    PyBlockFacts(parentDir);
    PlainUnmarked(ls[1], ScriptMarker);
    PlainUnmarked(ls[2], ScriptMarker);
    PlainUnmarked(ls[3], ScriptMarker);
    PlainUnmarked(ls[4], ScriptMarker);
  }

  /** The filter as written stops skipping at the block's `import sys` line and keeps it. */
  lemma ImportSysStep(parentDir: string)
    requires '\n' !in parentDir && '#' !in parentDir
    ensures LineStep(PyBlockLines(parentDir)[1], ScriptMarker, true) == Step(true, false)
  {
    PyBlockUnmarked(parentDir);
    ImportSysEndsSkipping(parentDir);
    EndsSkippingStep(PyBlockLines(parentDir)[1], ScriptMarker);
  }

  /** On the block's own lines, the filter as written takes out the marker line alone. */
  lemma PyBlockFilteredAsWritten(parentDir: string)
    requires '\n' !in parentDir && '#' !in parentDir
    ensures Filtered(PyBlockLines(parentDir), ScriptMarker, false) == PyBlockLines(parentDir)[1..]
  {
    PyBlockFacts(parentDir);
    PyBlockUnmarked(parentDir);
    ImportSysStep(parentDir);
    FilteredFive(ScriptMarker, PyBlockLines(parentDir));
  }

  /** The filter a block-aware removal would use: skip from the marker line to the next blank line. */
  function BlockStep(line: string, marker: string, skip: bool): (r: Step)
    ensures Contains(line, marker) ==> !r.keep && r.skip
    ensures !Contains(line, marker) ==> (r.keep <==> !skip) && (r.skip <==> skip && Strip(line) != [])
  {
    if Contains(line, marker) then Step(false, true)
    else if !skip then Step(true, false)
    else if Strip(line) == [] then Step(false, false)
    else Step(false, true)
  }

  /** The lines a block-aware removal keeps. */
  function BlockFiltered(lines: seq<string>, marker: string, skip: bool): seq<string> {
    if lines == [] then []
    else
      var step := BlockStep(lines[0], marker, skip);
      (if step.keep then [lines[0]] else []) + BlockFiltered(lines[1..], marker, step.skip)
  }

  /** Block-aware removal keeps every line before the first marker line. */
  lemma {:induction false} BlockFilteredKeepsPrefix(lines: seq<string>, marker: string, k: nat)
    requires k <= |lines|
    requires forall i :: 0 <= i < k ==> !Contains(lines[i], marker)
    ensures BlockFiltered(lines, marker, false) == lines[..k] + BlockFiltered(lines[k..], marker, false)
  {
    if k > 0 {
      var rest := lines[1..];
      assert !Contains(lines[0], marker);
      assert BlockStep(lines[0], marker, false) == Step(true, false);
      assert BlockFiltered(lines, marker, false) == [lines[0]] + BlockFiltered(rest, marker, false);
      BlockFilteredKeepsPrefix(rest, marker, k - 1);
      assert rest[k - 1..] == lines[k..];
      assert lines[..k] == [lines[0]] + rest[..k - 1];
    }
  }

  /** While skipping, lines with visible text all go. */
  lemma {:induction false} BlockSkipsThrough(lines: seq<string>, marker: string)
    requires forall i :: 0 <= i < |lines| ==> Strip(lines[i]) != []
    ensures BlockFiltered(lines, marker, true) == []
  {
    if lines != [] {
      BlockSkipsThrough(lines[1..], marker);
    }
  }

  /** Block-aware removal undoes the installer's append, up to the blank separator line. */
  lemma PyBlockRemoved(existing: string, parentDir: string)
    requires existing == [] || existing[|existing| - 1] == '\n'
    requires !Contains(existing, ScriptMarker)
    requires '\n' !in parentDir && '#' !in parentDir
    ensures BlockFiltered(Lines(AppendedOnce(existing, ScriptMarker, PyBlock(parentDir))), ScriptMarker, false)
         == Lines(existing) + ["\n"]
  {
    var ls := PyBlockLines(parentDir);
    PyBlockFacts(parentDir);
    PyBlockRead(parentDir);
    AppendedLines(existing, ScriptMarker, PyBlock(parentDir));
    HeadUnmarked(existing, ScriptMarker);
    BlockFilteredFive(ScriptMarker, ls);
    BlockFilteredAfterHead(Lines(existing) + ["\n"], ScriptMarker, ls);
  }

  // ---------------------------------------------------------------- remove_shelf

  /** The shelf files `remove_shelf` deletes, by prefix and extension. */
  predicate IsAtlasShelfFile(name: string) {
    (StartsWith(name, "shelf_AtlasMatrix") || StartsWith(name, "shelf_Atlas"))
    && (EndsWith(name, ".mel") || EndsWith(name, ".json"))
  }

  /** The longer prefix adds nothing, and every such file is one the installer would copy. */
  lemma AtlasShelfFileSpec(name: string)
    ensures IsAtlasShelfFile(name) <==> StartsWith(name, "shelf_Atlas") && (EndsWith(name, ".mel") || EndsWith(name, ".json"))
    ensures IsAtlasShelfFile(name) ==> StartsWith(name, "shelf_")
  {
    if StartsWith(name, "shelf_AtlasMatrix") {
      assert name[..11] == name[..17][..11];
    }
    if StartsWith(name, "shelf_Atlas") {
      assert name[..6] == name[..11][..6];
    }
  }

  /** The files of a listing that are deleted: Atlas shelf files whose removal does not raise. */
  function ShelfRemovals(names: seq<string>, failing: set<string>): (r: seq<string>)
    ensures forall f :: f in r <==> f in names && IsAtlasShelfFile(f) && f !in failing
  {
    if names == [] then []
    else
      var last := names[|names| - 1];
      assert forall f :: f in names <==> f in names[..|names| - 1] || f == last by {
        assert names == names[..|names| - 1] + [last];
      }
      ShelfRemovals(names[..|names| - 1], failing)
      + (if IsAtlasShelfFile(last) && last !in failing then [last] else [])
  }

  /**
   * `remove_shelf` on the shelf directory's listing (None when the directory
   * is missing); `failing` are the files whose removal raises.  It always
   * succeeds and reports the files it deleted.
   */
  method RemoveShelf(listing: Option<seq<string>>, failing: set<string>) returns (ok: bool, removed: seq<string>, removedCount: nat)
    ensures ok
    ensures removed == (if listing.None? then [] else ShelfRemovals(listing.value, failing))
    ensures removedCount == |removed|
  {
    removed := [];
    removedCount := 0;
    if listing.None? {
      return true, removed, removedCount;
    }
    var names := listing.value;
    var i := 0;
    while i < |names|
      invariant 0 <= i <= |names|
      invariant removed == ShelfRemovals(names[..i], failing)
      invariant removedCount == |removed|
    {
      var name := names[i];
      assert names[..i + 1][..i] == names[..i];
      if (StartsWith(name, "shelf_AtlasMatrix") || StartsWith(name, "shelf_Atlas"))
         && (EndsWith(name, ".mel") || EndsWith(name, ".json")) {
        if name !in failing {
          removed := removed + [name];
          removedCount := removedCount + 1;
        }
      }
      i := i + 1;
    }
    assert names[..i] == names;
    return true, removed, removedCount;
  }

  // ---------------------------------------------------------------- uninstall

  /** The scripts directory `uninstall` works in (backslashes made forward). */
  function ScriptsDir(prefsDir: string): string {
    Norm(JoinPath(prefsDir, "scripts"))
  }

  /** The files after the four `remove_from_usersetup` calls of `uninstall`. */
  function UninstalledFiles(text: map<string, string>, scriptsDir: string, unreadable: set<string>, unwritable: set<string>)
    : map<string, string>
  {
    var mel := JoinPath(scriptsDir, "userSetup.mel");
    var py := JoinPath(scriptsDir, "userSetup.py");
    var t1 := RemovedFrom(text, mel, ScriptMarker, unreadable, unwritable);
    var t2 := RemovedFrom(t1, py, ScriptMarker, unreadable, unwritable);
    var t3 := RemovedFrom(t2, mel, IconMarker, unreadable, unwritable);
    RemovedFrom(t3, py, IconMarker, unreadable, unwritable)
  }

  /**
   * How many of the three counted `userSetup` calls of `uninstall` return
   * False: the script marker in both files, then the icon marker in
   * userSetup.mel, each on the files the calls before it left.
   */
  function UsersetupFailures(text: map<string, string>, scriptsDir: string, unreadable: set<string>, unwritable: set<string>): nat {
    var mel := JoinPath(scriptsDir, "userSetup.mel");
    var py := JoinPath(scriptsDir, "userSetup.py");
    var t1 := RemovedFrom(text, mel, ScriptMarker, unreadable, unwritable);
    var t2 := RemovedFrom(t1, py, ScriptMarker, unreadable, unwritable);
    (if RemoveOk(text, mel, ScriptMarker, unreadable, unwritable) then 0 else 1)
    + (if RemoveOk(t1, py, ScriptMarker, unreadable, unwritable) then 0 else 1)
    + (if RemoveOk(t2, mel, IconMarker, unreadable, unwritable) then 0 else 1)
  }

  /** `remove_from_usersetup` never creates or deletes a file. */
  lemma RemovedFromKeepsFiles(text: map<string, string>, path: string, marker: string, unreadable: set<string>, unwritable: set<string>)
    ensures RemovedFrom(text, path, marker, unreadable, unwritable).Keys == text.Keys
  {
  }

  /** `remove_from_usersetup` changes no other file. */
  lemma RemovedFromKeepsOthers(text: map<string, string>, path: string, marker: string,
                               unreadable: set<string>, unwritable: set<string>, other: string)
    requires other != path && other in text
    ensures other in RemovedFrom(text, path, marker, unreadable, unwritable)
    ensures RemovedFrom(text, path, marker, unreadable, unwritable)[other] == text[other]
  {
  }

  /** The two userSetup files of a scripts directory are different files. */
  lemma UsersetupFilesDiffer(scriptsDir: string)
    ensures JoinPath(scriptsDir, "userSetup.mel") != JoinPath(scriptsDir, "userSetup.py")
  {
    var mel := JoinPath(scriptsDir, "userSetup.mel");
    var py := JoinPath(scriptsDir, "userSetup.py");
    assert mel[|mel| - 1] == 'l' && py[|py| - 1] == 'y';
  }

  /** An existing userSetup.mel that cannot be read fails both of its calls, so `uninstall` falls short of full success. */
  lemma UnreadableMelFails(text: map<string, string>, scriptsDir: string, unreadable: set<string>, unwritable: set<string>)
    requires JoinPath(scriptsDir, "userSetup.mel") in text && JoinPath(scriptsDir, "userSetup.mel") in unreadable
    ensures UsersetupFailures(text, scriptsDir, unreadable, unwritable) >= 2
  {
    var mel := JoinPath(scriptsDir, "userSetup.mel");
    var py := JoinPath(scriptsDir, "userSetup.py");
    var t1 := RemovedFrom(text, mel, ScriptMarker, unreadable, unwritable);
    RemovedFromKeepsFiles(text, mel, ScriptMarker, unreadable, unwritable);
    RemovedFromKeepsFiles(t1, py, ScriptMarker, unreadable, unwritable);
  }

  /** When userSetup.mel can be read and written, only the userSetup.py call can fail, so `uninstall` reports full success. */
  lemma WritableMelSucceeds(text: map<string, string>, scriptsDir: string, unreadable: set<string>, unwritable: set<string>)
    requires JoinPath(scriptsDir, "userSetup.mel") !in unreadable && JoinPath(scriptsDir, "userSetup.mel") !in unwritable
    ensures UsersetupFailures(text, scriptsDir, unreadable, unwritable) <= 1
  {
  }

  /**
   * A read-only userSetup.mel that holds the script marker but not the icon
   * marker fails once, on the script marker, and succeeds on the icon marker,
   * whose call writes nothing; with a writable userSetup.py that is the only
   * failure.
   */
  lemma ReadOnlyMelFailsOnce(text: map<string, string>, scriptsDir: string, unreadable: set<string>, unwritable: set<string>)
    requires var mel := JoinPath(scriptsDir, "userSetup.mel");
      && mel in text && mel !in unreadable && mel in unwritable
      && HasMarkerLine(Lines(text[mel]), ScriptMarker) && !HasMarkerLine(Lines(text[mel]), IconMarker)
    requires JoinPath(scriptsDir, "userSetup.py") !in unreadable && JoinPath(scriptsDir, "userSetup.py") !in unwritable
    ensures UsersetupFailures(text, scriptsDir, unreadable, unwritable) == 1
  {
    var mel := JoinPath(scriptsDir, "userSetup.mel");
    var py := JoinPath(scriptsDir, "userSetup.py");
    var t1 := RemovedFrom(text, mel, ScriptMarker, unreadable, unwritable);
    assert t1 == text;
    UsersetupFilesDiffer(scriptsDir);
    RemovedFromKeepsOthers(t1, py, ScriptMarker, unreadable, unwritable, mel);
  }

  /**
   * `uninstall`: the three counted `userSetup` steps and the shelf step, which
   * always succeeds. It reports full success exactly when at most one of the
   * three counted calls fails.
   */
  method Uninstall(fs: Files, prefsDir: string, shelfListing: Option<seq<string>>,
                   unreadable: set<string>, unwritable: set<string>, failingShelves: set<string>)
    returns (fullSuccess: bool, removedShelves: seq<string>)
    modifies fs
    ensures fs.text == UninstalledFiles(old(fs.text), ScriptsDir(prefsDir), unreadable, unwritable)
    ensures removedShelves == (if shelfListing.None? then [] else ShelfRemovals(shelfListing.value, failingShelves))
    ensures fullSuccess <==> UsersetupFailures(old(fs.text), ScriptsDir(prefsDir), unreadable, unwritable) <= 1
  {
    var scriptsDir := ScriptsDir(prefsDir);
    var successCount := 0;
    var totalTasks := 4;
    var mel := JoinPath(scriptsDir, "userSetup.mel");
    var py := JoinPath(scriptsDir, "userSetup.py");
    ghost var failures := UsersetupFailures(fs.text, scriptsDir, unreadable, unwritable);
    var ok := RemoveFromUsersetup(fs, mel, ScriptMarker, unreadable, unwritable);
    if ok {
      successCount := successCount + 1;
    }
    ok := RemoveFromUsersetup(fs, py, ScriptMarker, unreadable, unwritable);
    if ok {
      successCount := successCount + 1;
    }
    ok := RemoveFromUsersetup(fs, mel, IconMarker, unreadable, unwritable);
    if ok {
      successCount := successCount + 1;
    }
    assert successCount == 3 - failures;
    ok := RemoveFromUsersetup(fs, py, IconMarker, unreadable, unwritable);
    var shelfOk, removedCount;
    shelfOk, removedShelves, removedCount := RemoveShelf(shelfListing, failingShelves);
    if shelfOk {
      successCount := successCount + 1;
    }
    fullSuccess := successCount >= totalTasks - 1;
  }
}
