/** The few Python string operations the modelled code relies on, on ASCII text. */
module Text {

  /** `s.startswith(p)` */
  predicate StartsWith(s: string, p: string) {
    |p| <= |s| && s[..|p|] == p
  }

  /** `s.endswith(p)` */
  predicate EndsWith(s: string, p: string) {
    |p| <= |s| && s[|s| - |p|..] == p
  }

  /** `sub in s` (true for an empty `sub`). */
  predicate Contains(s: string, sub: string)
    decreases |s|
  {
    StartsWith(s, sub) || (|s| > 0 && Contains(s[1..], sub))
  }

  /** An occurrence at position `i` makes `sub in s` true. */
  lemma {:induction false} ContainsAt(s: string, sub: string, i: nat)
    requires i + |sub| <= |s| && s[i..i + |sub|] == sub
    ensures Contains(s, sub)
  {
    if i == 0 {
      assert s[..|sub|] == sub;
    } else {
      assert s[1..][i - 1..i - 1 + |sub|] == s[i..i + |sub|];
      ContainsAt(s[1..], sub, i - 1);
    }
  }

  /** `sub in s` has a witness position. */
  lemma {:induction false} ContainsWitness(s: string, sub: string) returns (i: nat)
    requires Contains(s, sub)
    ensures i + |sub| <= |s| && s[i..i + |sub|] == sub
  {
    if StartsWith(s, sub) {
      i := 0;
    } else {
      var j := ContainsWitness(s[1..], sub);
      i := j + 1;
      assert s[1..][j..j + |sub|] == s[i..i + |sub|];
    }
  }

  /** Text found in either part is found in the concatenation. */
  lemma ContainsAppend(a: string, b: string, sub: string)
    requires Contains(a, sub) || Contains(b, sub)
    ensures Contains(a + b, sub)
  {
    if Contains(a, sub) {
      var i := ContainsWitness(a, sub);
      assert (a + b)[i..i + |sub|] == a[i..i + |sub|];
      ContainsAt(a + b, sub, i);
    } else {
      var j := ContainsWitness(b, sub);
      assert (a + b)[|a| + j..|a| + j + |sub|] == b[j..j + |sub|];
      ContainsAt(a + b, sub, |a| + j);
    }
  }

  /** A prefix of `s` is contained in `s`. */
  lemma ContainsPrefix(s: string, p: string)
    requires StartsWith(s, p)
    ensures Contains(s, p)
  {
  }

  /** Text longer than `s` does not occur in it. */
  lemma {:induction false} ContainsLength(s: string, sub: string)
    requires Contains(s, sub)
    ensures |sub| <= |s|
  {
    var i := ContainsWitness(s, sub);
  }

  predicate IsDigit(c: char) {
    '0' <= c <= '9'
  }

  /** `s.isdigit()` for ASCII digits: non-empty and only digits. */
  predicate IsDigits(s: string) {
    |s| > 0 && forall i :: 0 <= i < |s| ==> IsDigit(s[i])
  }

  function LowerChar(c: char): char {
    if 'A' <= c <= 'Z' then (c as int + 32) as char else c
  }

  /** `s.lower()` on ASCII letters. */
  function Lower(s: string): (r: string)
    ensures |r| == |s|
    ensures forall i :: 0 <= i < |s| ==> r[i] == LowerChar(s[i])
  {
    if s == [] then [] else [LowerChar(s[0])] + Lower(s[1..])
  }

  /** Lowering distributes over concatenation. */
  lemma LowerAppend(a: string, b: string)
    ensures Lower(a + b) == Lower(a) + Lower(b)
  {
  }

  /** The whitespace `str.strip()` removes (ASCII part): space, tab, the line and form feeds, and the separators 0x1C-0x1F. */
  predicate IsSpace(c: char) {
    c == ' ' || c == '\t' || c == '\n' || c == '\r' || c == '\U{B}' || c == '\U{C}' || '\U{1C}' <= c <= '\U{1F}'
  }

  function StripLeft(s: string): (r: string)
    ensures |r| <= |s| && r == s[|s| - |r|..]
    ensures r == [] || !IsSpace(r[0])
    ensures forall i :: 0 <= i < |s| - |r| ==> IsSpace(s[i])
  {
    if |s| > 0 && IsSpace(s[0]) then StripLeft(s[1..]) else s
  }

  function StripRight(s: string): (r: string)
    ensures |r| <= |s| && r == s[..|r|]
    ensures r == [] || !IsSpace(r[|r| - 1])
    ensures forall i :: |r| <= i < |s| ==> IsSpace(s[i])
  {
    if |s| > 0 && IsSpace(s[|s| - 1]) then StripRight(s[..|s| - 1]) else s
  }

  /** `s.strip()` */
  function Strip(s: string): string {
    StripRight(StripLeft(s))
  }

  /** `s.split(c)` for a one-character separator: never empty, `"".split(c) == [""]`. */
  function Split(s: string, c: char): (r: seq<string>)
    ensures |r| >= 1
    decreases |s|
  {
    if |s| == 0 then [""]
    else
      var rest := Split(s[1..], c);
      if s[0] == c then [""] + rest else [[s[0]] + rest[0]] + rest[1..]
  }

  /** `c.join(parts)` */
  function Join(parts: seq<string>, c: char): string
    requires |parts| >= 1
  {
    if |parts| == 1 then parts[0] else parts[0] + [c] + Join(parts[1..], c)
  }

  lemma {:induction false} JoinConsHead(x: string, y: string, t: seq<string>, c: char)
    ensures Join([x + y] + t, c) == x + Join([y] + t, c)
  {
    if |t| > 0 {
      assert ([x + y] + t)[1..] == t;
      assert ([y] + t)[1..] == t;
    }
  }

  /** Joining the pieces of a split gives back the text. */
  lemma {:induction false} JoinSplit(s: string, c: char)
    ensures Join(Split(s, c), c) == s
  {
    if |s| > 0 {
      var rest := Split(s[1..], c);
      JoinSplit(s[1..], c);
      if s[0] == c {
        assert ([""] + rest)[1..] == rest;
        assert Join([""] + rest, c) == [c] + Join(rest, c);
        assert s == [c] + s[1..];
      } else {
        assert rest == [rest[0]] + rest[1..];
        JoinConsHead([s[0]], rest[0], rest[1..], c);
        assert s == [s[0]] + s[1..];
      }
    }
  }

  /** Text without the separator splits into itself alone. */
  lemma {:induction false} SplitNoSeparator(s: string, c: char)
    requires c !in s
    ensures Split(s, c) == [s]
  {
    if |s| > 0 {
      assert c !in s[1..];
      SplitNoSeparator(s[1..], c);
      assert s == [s[0]] + s[1..];
    }
  }

  /** Splitting at one separator splits each side independently. */
  lemma {:induction false} SplitAround(a: string, b: string, c: char)
    ensures Split(a + [c] + b, c) == Split(a, c) + Split(b, c)
  {
    if |a| == 0 {
      assert a + [c] + b == [c] + b;
      assert ([c] + b)[1..] == b;
    } else {
      assert (a + [c] + b)[1..] == a[1..] + [c] + b;
      assert (a + [c] + b)[0] == a[0];
      SplitAround(a[1..], b, c);
    }
  }

  /** Splitting a join of separator-free parts gives the parts back. */
  lemma {:induction false} SplitJoin(parts: seq<string>, c: char)
    requires |parts| >= 1
    requires forall i :: 0 <= i < |parts| ==> c !in parts[i]
    ensures Split(Join(parts, c), c) == parts
  {
    SplitNoSeparator(parts[0], c);
    if |parts| > 1 {
      SplitJoin(parts[1..], c);
      SplitAround(parts[0], Join(parts[1..], c), c);
      assert parts == [parts[0]] + parts[1..];
    }
  }

  /** Every piece of a split is free of the separator. */
  lemma {:induction false} SplitPiecesFree(s: string, c: char)
    ensures forall i :: 0 <= i < |Split(s, c)| ==> c !in Split(s, c)[i]
  {
    if |s| > 0 {
      SplitPiecesFree(s[1..], c);
    }
  }

  function DigitChar(d: nat): char
    requires d < 10
  {
    ('0' as int + d) as char
  }

  /** `str(n)` for a natural number. */
  function NatText(n: nat): (r: string)
    ensures |r| >= 1 && IsDigits(r)
  {
    if n < 10 then [DigitChar(n)] else NatText(n / 10) + [DigitChar(n % 10)]
  }

  /** `"".join(parts)`, what `writelines` writes. */
  function Concat(parts: seq<string>): string {
    if parts == [] then [] else parts[0] + Concat(parts[1..])
  }

  /**
   * `readlines()`: the text cut after every newline; each line keeps its
   * newline, and only the last may lack one.
   */
  function Lines(t: string): (r: seq<string>)
    ensures Concat(r) == t
    ensures forall i :: 0 <= i < |r| ==> r[i] != []
    decreases |t|
  {
    if t == [] then []
    else if t[0] == '\n' then [['\n']] + Lines(t[1..])
    else
      var rest := Lines(t[1..]);
      if rest == [] then [t] else [[t[0]] + rest[0]] + rest[1..]
  }

  /** A newline-free piece followed by a newline is read as one line. */
  lemma {:induction false} LinesAfterLine(x: string, t: string)
    requires '\n' !in x
    ensures Lines(x + "\n" + t) == [x + "\n"] + Lines(t)
    decreases |x|
  {
    if x == [] {
      assert x + "\n" + t == ['\n'] + t;
      assert (['\n'] + t)[1..] == t;
    } else {
      assert '\n' !in x[1..];
      LinesAfterLine(x[1..], t);
      assert (x + "\n" + t)[1..] == x[1..] + "\n" + t;
      assert [x[0]] + (x[1..] + "\n") == x + "\n";
    }
  }

  /** A line ending in its only newline. */
  predicate IsLine(l: string) {
    |l| >= 1 && l[|l| - 1] == '\n' && forall k :: 0 <= k < |l| - 1 ==> l[k] != '\n'
  }

  /** Complete lines written out are read back as the same lines. */
  lemma {:induction false} LinesOfConcat(ls: seq<string>)
    requires forall i :: 0 <= i < |ls| ==> IsLine(ls[i])
    ensures Lines(Concat(ls)) == ls
  {
    if ls != [] {
      var l := ls[0];
      LinesOfConcat(ls[1..]);
      assert l == l[..|l| - 1] + "\n";
      LinesAfterLine(l[..|l| - 1], Concat(ls[1..]));
      assert ls == [l] + ls[1..];
    }
  }

  /** Text with a character other than whitespace does not strip to nothing. */
  lemma StripKeeps(s: string, i: nat)
    requires i < |s| && !IsSpace(s[i])
    ensures Strip(s) != []
  {
    var l := StripLeft(s);
    assert |s| - |l| <= i;
    assert l[i - (|s| - |l|)] == s[i];
  }

  /** Text holding a character that `sub` needs cannot contain `sub` when that character is absent. */
  lemma MissingChar(s: string, sub: string, k: nat)
    requires k < |sub| && sub[k] !in s
    ensures !Contains(s, sub)
  {
    if Contains(s, sub) {
      var i := ContainsWitness(s, sub);
      assert false;
    }
  }

  /** A line of a text is found in the text. */
  lemma {:induction false} ContainsLine(ls: seq<string>, i: nat, sub: string)
    requires i < |ls| && Contains(ls[i], sub)
    ensures Contains(Concat(ls), sub)
  {
    if i == 0 {
      ContainsAppend(ls[0], Concat(ls[1..]), sub);
    } else {
      ContainsLine(ls[1..], i - 1, sub);
      ContainsAppend(ls[0], Concat(ls[1..]), sub);
    }
  }

  lemma ConsAppend<T>(x: T, r: seq<T>, t: seq<T>)
    ensures [x] + (r + t) == ([x] + r) + t
  {
  }

  /** Text cut after a newline reads as the lines of each part. */
  lemma {:induction false} LinesAppend(a: string, b: string)
    requires a == [] || a[|a| - 1] == '\n'
    ensures Lines(a + b) == Lines(a) + Lines(b)
    decreases |a|
  {
    if a != [] {
      LinesAppend(a[1..], b);
      LinesAppendStep(a, b);
    } else {
      assert a + b == b;
    }
  }

  /** One character taken off the front of `a` in `LinesAppend`. */
  lemma LinesAppendStep(a: string, b: string)
    requires a != [] && a[|a| - 1] == '\n'
    requires Lines(a[1..] + b) == Lines(a[1..]) + Lines(b)
    ensures Lines(a + b) == Lines(a) + Lines(b)
  {
    assert (a + b)[0] == a[0];
    assert (a + b)[1..] == a[1..] + b;
    if a[0] == '\n' {
      LinesAppendNewline(a, b);
    } else {
      LinesAppendChar(a, b);
    }
  }

  lemma LinesAppendNewline(a: string, b: string)
    requires a != [] && a[0] == '\n' && (a + b)[1..] == a[1..] + b
    requires Lines(a[1..] + b) == Lines(a[1..]) + Lines(b)
    ensures Lines(a + b) == Lines(a) + Lines(b)
  {
    var r := Lines(a[1..]);
    assert Lines(a) == [['\n']] + r;
    assert Lines(a + b) == [['\n']] + (r + Lines(b));
    ConsAppend(['\n'], r, Lines(b));
  }

  lemma LinesAppendChar(a: string, b: string)
    requires a != [] && a[|a| - 1] == '\n' && a[0] != '\n'
    requires (a + b)[0] == a[0] && (a + b)[1..] == a[1..] + b
    requires Lines(a[1..] + b) == Lines(a[1..]) + Lines(b)
    ensures Lines(a + b) == Lines(a) + Lines(b)
  {
    var r := Lines(a[1..]);
    assert a[1..] != [];
    assert r != [];
    var rb := r + Lines(b);
    assert rb[0] == r[0] && rb[1..] == r[1..] + Lines(b);
    assert Lines(a) == [[a[0]] + r[0]] + r[1..];
    assert Lines(a + b) == [[a[0]] + r[0]] + rb[1..];
    ConsAppend([a[0]] + r[0], r[1..], Lines(b));
  }
}
