/**
  The parts of Python's `str` that the tools rely on: whitespace, `strip`,
  `lstrip(".")`, `lower`, `startswith`, `endswith`, `join`, `splitlines`,
  and the text that a run of `print` calls writes.
 */
module PyStrings {

  /** `c.isspace()` in Python. */
  predicate IsSpace(c: char) {
    c == ' ' || '\t' <= c <= '\r' || '\U{1C}' <= c <= '\U{1F}'
    || c == '\U{85}' || c == '\U{A0}' || c == '\U{1680}'
    || '\U{2000}' <= c <= '\U{200A}' || c == '\U{2028}' || c == '\U{2029}'
    || c == '\U{202F}' || c == '\U{205F}' || c == '\U{3000}'
  }

  /** The line boundaries that `str.splitlines()` splits at. */
  predicate IsLineBreak(c: char) {
    c == '\n' || c == '\r' || c == '\U{B}' || c == '\U{C}'
    || '\U{1C}' <= c <= '\U{1E}' || c == '\U{85}' || c == '\U{2028}' || c == '\U{2029}'
  }

  /** True when `s.strip()` is empty. */
  predicate IsBlank(s: string) {
    forall i :: 0 <= i < |s| ==> IsSpace(s[i])
  }

  /** No whitespace anywhere in `s` (so no line boundary either). */
  predicate HasNoSpace(s: string) {
    forall i :: 0 <= i < |s| ==> !IsSpace(s[i])
  }

  predicate StartsWith(s: string, prefix: string) {
    |prefix| <= |s| && s[..|prefix|] == prefix
  }

  predicate EndsWith(s: string, suffix: string) {
    |suffix| <= |s| && s[|s| - |suffix|..] == suffix
  }

  /** `s.lstrip()`: the longest suffix of `s` that does not start with whitespace. */
  function LStrip(s: string): string {
    if s != [] && IsSpace(s[0]) then LStrip(s[1..]) else s
  }

  /** `s.rstrip()`: the longest prefix of `s` that does not end with whitespace. */
  function RStrip(s: string): string {
    if s != [] && IsSpace(s[|s| - 1]) then RStrip(s[..|s| - 1]) else s
  }

  /** `s.strip()`. */
  function Strip(s: string): string {
    RStrip(LStrip(s))
  }

  /** `s.lstrip(c)` for a one-character argument: drops every leading `c`. */
  function LStripChar(s: string, c: char): (r: string)
    ensures |r| <= |s|
  {
    if s != [] && s[0] == c then LStripChar(s[1..], c) else s
  }

  /** `str.lower()` on one character, for the ASCII letters. */
  function LowerChar(c: char): char {
    if 'A' <= c <= 'Z' then (c as int - 'A' as int + 'a' as int) as char else c
  }

  function Lower(s: string): (r: string)
    ensures |r| == |s|
  {
    if s == [] then [] else [LowerChar(s[0])] + Lower(s[1..])
  }

  /** `lower` maps every character on its own, keeping the length. */
  lemma {:induction false} LowerSpec(s: string)
    ensures forall i :: 0 <= i < |s| ==> Lower(s)[i] == LowerChar(s[i])
  {
    if s != [] {
      LowerSpec(s[1..]);
      assert forall i :: 1 <= i < |s| ==> s[1..][i - 1] == s[i];
    }
  }

  /** `lstrip(c)` removes exactly the leading run of `c`: what is left is a suffix that does not start with `c`. */
  lemma {:induction false} LStripCharSpec(s: string, c: char)
    ensures LStripChar(s, c) == s[|s| - |LStripChar(s, c)|..]
    ensures LStripChar(s, c) == [] || LStripChar(s, c)[0] != c
    ensures forall i :: 0 <= i < |s| - |LStripChar(s, c)| ==> s[i] == c
  {
    if s != [] && s[0] == c {
      LStripCharSpec(s[1..], c);
      assert forall i :: 1 <= i < |s| ==> s[i] == s[1..][i - 1];
    }
  }

  /** Lowering twice is lowering once. */
  lemma {:induction false} LowerIdempotent(s: string)
    ensures Lower(Lower(s)) == Lower(s)
  {
    if s != [] {
      LowerIdempotent(s[1..]);
      assert Lower(s)[1..] == Lower(s[1..]);
    }
  }

  /** `lower` works character by character, so it commutes with taking a suffix. */
  lemma {:induction false} LowerSuffix(s: string, k: nat)
    requires k <= |s|
    ensures Lower(s[k..]) == Lower(s)[k..]
  {
    if k > 0 {
      assert s[k..] == s[1..][k - 1..];
      LowerSuffix(s[1..], k - 1);
      assert Lower(s)[k..] == Lower(s)[1..][k - 1..];
    }
  }

  /** `sep.join(parts)`. */
  function Join(sep: string, parts: seq<string>): string {
    if |parts| == 0 then ""
    else if |parts| == 1 then parts[0]
    else parts[0] + sep + Join(sep, parts[1..])
  }

  /** Index of the first line boundary in `s`, or `|s|` when there is none. */
  function LineEnd(s: string): (i: nat)
    ensures i <= |s|
  {
    if s == [] || IsLineBreak(s[0]) then 0 else 1 + LineEnd(s[1..])
  }

  /** `s.splitlines()`: `"\r\n"` is one boundary; a final boundary opens no empty line. */
  function SplitLines(s: string): seq<string>
    decreases |s|
  {
    if s == [] then []
    else
      var i := LineEnd(s);
      if i == |s| then [s]
      else if s[i] == '\r' && i + 1 < |s| && s[i + 1] == '\n' then [s[..i]] + SplitLines(s[i + 2..])
      else [s[..i]] + SplitLines(s[i + 1..])
  }

  /** What `for line in lines: print(line)` writes to standard output. */
  function Printed(lines: seq<string>): string {
    if lines == [] then "" else lines[0] + "\n" + Printed(lines[1..])
  }

  // ---------------------------------------------------------------------------
  // Facts about these operations
  // ---------------------------------------------------------------------------

  /** `lstrip` removes exactly the leading whitespace: what is left is a suffix that starts with a non-space. */
  lemma {:induction false} LStripSpec(s: string)
    ensures |LStrip(s)| <= |s| && LStrip(s) == s[|s| - |LStrip(s)|..]
    ensures LStrip(s) == [] || !IsSpace(LStrip(s)[0])
    ensures forall i :: 0 <= i < |s| - |LStrip(s)| ==> IsSpace(s[i])
  {
    if s != [] && IsSpace(s[0]) {
      LStripSpec(s[1..]);
      assert forall i :: 1 <= i < |s| ==> s[i] == s[1..][i - 1];
    }
  }

  /** `rstrip` removes exactly the trailing whitespace: what is left is a prefix that ends with a non-space. */
  lemma {:induction false} RStripSpec(s: string)
    ensures |RStrip(s)| <= |s| && RStrip(s) == s[..|RStrip(s)|]
    ensures RStrip(s) == [] || !IsSpace(RStrip(s)[|RStrip(s)| - 1])
    ensures forall i :: |RStrip(s)| <= i < |s| ==> IsSpace(s[i])
  {
    if s != [] && IsSpace(s[|s| - 1]) {
      RStripSpec(s[..|s| - 1]);
    }
  }

  /** Every line boundary is whitespace, so a string without whitespace has no boundary. */
  lemma LineBreakIsSpace(c: char)
    ensures IsLineBreak(c) ==> IsSpace(c)
  {
  }

  /** `s.strip()` is empty exactly when `s` consists of whitespace only. */
  lemma StripBlankIff(s: string)
    ensures Strip(s) == [] <==> IsBlank(s)
  {
    var l := LStrip(s);
    LStripSpec(s);
    RStripSpec(l);
    assert forall i :: |s| - |l| <= i < |s| ==> s[i] == l[i - (|s| - |l|)];
  }

  /** A string that neither starts nor ends with whitespace is its own strip. */
  lemma StripNoEdgeSpace(s: string)
    requires s == [] || (!IsSpace(s[0]) && !IsSpace(s[|s| - 1]))
    ensures Strip(s) == s
  {
  }

  /** `strip` is idempotent. */
  lemma StripIdempotent(s: string)
    ensures Strip(Strip(s)) == Strip(s)
  {
    var r := Strip(s);
    var l := LStrip(s);
    LStripSpec(s);
    RStripSpec(l);
    if r != [] {
      assert r == l[..|r|];
      assert r[0] == l[0];
      StripNoEdgeSpace(r);
    }
  }

  /** Appending whitespace to a string that does not end in whitespace is undone by `rstrip`. */
  lemma RStripSpaceSuffix(t: string, w: string)
    requires t == [] || !IsSpace(t[|t| - 1])
    requires IsBlank(w)
    ensures RStrip(t + w) == t
  {
    var s := t + w;
    var r := RStrip(s);
    RStripSpec(s);
    assert forall i :: |t| <= i < |s| ==> s[i] == w[i - |t|];
    assert forall i :: 0 <= i < |t| ==> s[i] == t[i];
    assert |r| == |t|;
    assert r == s[..|t|] == t;
  }

  /** A string with no whitespace at all is its own strip. */
  lemma StripNoSpace(s: string)
    requires HasNoSpace(s)
    ensures Strip(s) == s
  {
    if s != [] {
      StripNoEdgeSpace(s);
    }
  }

  /** The joined string starts with the first part. */
  lemma {:induction false} JoinStartsWithFirst(sep: string, parts: seq<string>)
    requires |parts| > 0
    ensures StartsWith(Join(sep, parts), parts[0])
  {
    if |parts| > 1 {
      var rest := sep + Join(sep, parts[1..]);
      assert Join(sep, parts) == parts[0] + rest;
      assert (parts[0] + rest)[..|parts[0]|] == parts[0];
    }
  }

  /** The joined string ends with the last part. */
  lemma {:induction false} JoinEndsWithLast(sep: string, parts: seq<string>)
    requires |parts| > 0
    ensures EndsWith(Join(sep, parts), parts[|parts| - 1])
  {
    if |parts| > 1 {
      var tail := parts[1..];
      JoinEndsWithLast(sep, tail);
      var j := Join(sep, tail);
      var last := parts[|parts| - 1];
      assert tail[|tail| - 1] == last;
      var s := parts[0] + sep + j;
      assert Join(sep, parts) == s;
      assert s[|s| - |last|..] == j[|j| - |last|..];
    }
  }

  /**
    Joining pieces that each hold a non-whitespace character gives a blank
    result exactly when there are no pieces, whatever the separator.
   */
  lemma JoinBlankIff(sep: string, parts: seq<string>)
    requires forall k :: 0 <= k < |parts| ==> !IsBlank(parts[k])
    ensures IsBlank(Join(sep, parts)) <==> parts == []
  {
    if parts != [] {
      JoinStartsWithFirst(sep, parts);
      var j := Join(sep, parts);
      var i :| 0 <= i < |parts[0]| && !IsSpace(parts[0][i]);
      assert j[i] == j[..|parts[0]|][i] == parts[0][i];
    }
  }

  /** `LineEnd` stops at the first line boundary, or at the end when there is none. */
  lemma {:induction false} LineEndSpec(s: string)
    ensures forall j :: 0 <= j < LineEnd(s) ==> !IsLineBreak(s[j])
    ensures LineEnd(s) < |s| ==> IsLineBreak(s[LineEnd(s)])
  {
    if s != [] && !IsLineBreak(s[0]) {
      LineEndSpec(s[1..]);
      assert forall j :: 1 <= j < |s| ==> s[j] == s[1..][j - 1];
    }
  }

  /** Conversely, a position with no boundary before it and a boundary (or the end) at it is `LineEnd`. */
  lemma {:induction false} LineEndAt(s: string, i: nat)
    requires i <= |s|
    requires forall j :: 0 <= j < i ==> !IsLineBreak(s[j])
    requires i < |s| ==> IsLineBreak(s[i])
    ensures LineEnd(s) == i
  {
    if i > 0 {
      assert forall j :: 0 <= j < i - 1 ==> s[1..][j] == s[j + 1];
      LineEndAt(s[1..], i - 1);
    }
  }

  lemma LineEndOfPlainLine(s: string)
    requires forall j :: 0 <= j < |s| ==> !IsLineBreak(s[j])
    ensures LineEnd(s) == |s|
  {
    LineEndAt(s, |s|);
  }

  /** `splitlines` undoes a `"\n"`-join of boundary-free lines whose last line is not empty. */
  lemma {:induction false} SplitLinesOfJoin(lines: seq<string>)
    requires forall k, j :: 0 <= k < |lines| && 0 <= j < |lines[k]| ==> !IsLineBreak(lines[k][j])
    requires lines == [] || lines[|lines| - 1] != ""
    ensures SplitLines(Join("\n", lines)) == lines
  {
    if |lines| == 1 {
      LineEndOfPlainLine(lines[0]);
    } else if |lines| > 1 {
      var l := lines[0];
      var rest := lines[1..];
      var j := Join("\n", rest);
      var s := l + "\n" + j;
      assert Join("\n", lines) == s;
      assert s[|l|] == '\n';
      assert forall k :: 0 <= k < |l| ==> s[k] == l[k];
      LineEndAt(s, |l|);
      var i := LineEnd(s);
      assert s[..i] == l;
      assert s[i + 1..] == j;
      SplitLinesOfJoin(rest);
    }
  }

  /** The printed text of some lines is their `"\n"`-join plus a final newline. */
  lemma {:induction false} PrintedIsJoin(lines: seq<string>)
    requires lines != []
    ensures Printed(lines) == Join("\n", lines) + "\n"
  {
    if |lines| > 1 {
      PrintedIsJoin(lines[1..]);
      assert Printed(lines) == lines[0] + "\n" + (Join("\n", lines[1..]) + "\n");
    }
  }

  /**
    Printing lines and reading the output back with `strip().splitlines()`
    returns the same lines, provided none of them holds a line boundary, the
    first does not start and the last does not end with whitespace.
   */
  lemma PrintedRoundTrip(lines: seq<string>)
    requires lines != []
    requires forall k, j :: 0 <= k < |lines| && 0 <= j < |lines[k]| ==> !IsLineBreak(lines[k][j])
    requires lines[0] != "" && !IsSpace(lines[0][0])
    requires lines[|lines| - 1] != "" && !IsSpace(lines[|lines| - 1][|lines[|lines| - 1]| - 1])
    ensures SplitLines(Strip(Printed(lines))) == lines
  {
    PrintedIsJoin(lines);
    var j := Join("\n", lines);
    JoinStartsWithFirst("\n", lines);
    JoinEndsWithLast("\n", lines);
    var last := lines[|lines| - 1];
    assert j[0] == j[..|lines[0]|][0] == lines[0][0];
    assert j[|j| - 1] == j[|j| - |last|..][|last| - 1] == last[|last| - 1];
    var p := j + "\n";
    assert p[0] == j[0];
    assert LStrip(p) == p;
    RStripSpaceSuffix(j, "\n");
    assert Strip(p) == j;
    SplitLinesOfJoin(lines);
  }
}
