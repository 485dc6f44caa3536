/** The Foundation string operations that `.envlocal` handling relies on, over Unicode scalars. */
module Text {
  import opened Wrappers

  /** A member of `CharacterSet.newlines`: U+000A to U+000D, U+0085, U+2028 and U+2029. */
  predicate IsNewline(c: char) {
    ('\n' <= c <= '\r') || c == '\U{0085}' || c == '\U{2028}' || c == '\U{2029}'
  }

  /** A member of `CharacterSet.whitespaces`: general category Zs, plus the tab. */
  predicate IsWhitespace(c: char) {
    c == '\t' || c == ' ' || c == '\U{00A0}' || c == '\U{1680}' || ('\U{2000}' <= c <= '\U{200A}')
    || c == '\U{202F}' || c == '\U{205F}' || c == '\U{3000}'
  }

  predicate NoNewline(s: string) {
    forall i :: 0 <= i < |s| ==> !IsNewline(s[i])
  }

  /** `s.components(separatedBy: .newlines)`: every newline character ends a line, so a text
      with n newline characters has n + 1 lines (the empty text has one, empty, line). */
  function SplitLines(s: string): (lines: seq<string>)
    ensures |lines| >= 1
    ensures forall i :: 0 <= i < |lines| ==> NoNewline(lines[i])
    decreases |s|
  {
    if s == [] then [""]
    else
      var rest := SplitLines(s[1..]);
      if IsNewline(s[0]) then [""] + rest
      else [[s[0]] + rest[0]] + rest[1..]
  }

  /** `parts.joined(separator: sep)` */
  function Join(parts: seq<string>, sep: string): string {
    if parts == [] then ""
    else if |parts| == 1 then parts[0]
    else parts[0] + sep + Join(parts[1..], sep)
  }

  /** A line that holds no newline character is split into itself. */
  lemma {:induction false} SplitLinesOfLine(s: string)
    requires NoNewline(s)
    ensures SplitLines(s) == [s]
    decreases |s|
  {
    if s != [] {
      SplitLinesOfLine(s[1..]);
      assert [s[0]] + s[1..] == s;
    }
  }

  /** Splitting at a '\n' splits the lines of the two sides apart. */
  lemma {:induction false} SplitLinesAppend(x: string, y: string)
    ensures SplitLines(x + "\n" + y) == SplitLines(x) + SplitLines(y)
    decreases |x|
  {
    if x == [] {
      assert x + "\n" + y == "\n" + y;
      assert ("\n" + y)[1..] == y;
    } else {
      assert (x + "\n" + y)[1..] == x[1..] + "\n" + y;
      SplitLinesAppend(x[1..], y);
    }
  }

  /** Joining lines with '\n' and splitting again gives the lines back. */
  lemma {:induction false} SplitJoin(lines: seq<string>)
    requires lines != []
    requires forall i :: 0 <= i < |lines| ==> NoNewline(lines[i])
    ensures SplitLines(Join(lines, "\n")) == lines
    decreases |lines|
  {
    if |lines| == 1 {
      SplitLinesOfLine(lines[0]);
    } else {
      SplitLinesOfLine(lines[0]);
      SplitJoin(lines[1..]);
      SplitLinesAppend(lines[0], Join(lines[1..], "\n"));
      assert [lines[0]] + lines[1..] == lines;
    }
  }

  /** Splitting a text whose only newline character is '\n' and joining with '\n' gives it back. */
  lemma {:induction false} JoinSplit(s: string)
    requires forall i :: 0 <= i < |s| && IsNewline(s[i]) ==> s[i] == '\n'
    ensures Join(SplitLines(s), "\n") == s
    decreases |s|
  {
    if s != [] {
      var rest := SplitLines(s[1..]);
      JoinSplit(s[1..]);
      if IsNewline(s[0]) {
        assert ([""] + rest)[1..] == rest;
      } else {
        var lines := [[s[0]] + rest[0]] + rest[1..];
        assert lines[1..] == rest[1..];
        if |rest| > 1 {
          assert Join(rest, "\n") == rest[0] + "\n" + Join(rest[1..], "\n");
        }
        assert [s[0]] + s[1..] == s;
      }
    }
  }

  /** The number of whitespace characters `s` starts with. */
  function LeadingWhitespace(s: string): (n: nat)
    ensures n <= |s|
    ensures forall i :: 0 <= i < n ==> IsWhitespace(s[i])
    ensures n == |s| || !IsWhitespace(s[n])
  {
    if s != [] && IsWhitespace(s[0]) then 1 + LeadingWhitespace(s[1..]) else 0
  }

  /** The number of whitespace characters `s` ends with. */
  function TrailingWhitespace(s: string): (n: nat)
    ensures n <= |s|
    ensures forall i :: |s| - n <= i < |s| ==> IsWhitespace(s[i])
    ensures n == |s| || !IsWhitespace(s[|s| - n - 1])
  {
    if s != [] && IsWhitespace(s[|s| - 1]) then 1 + TrailingWhitespace(s[..|s| - 1]) else 0
  }

  /** Every character of `s` is whitespace. */
  predicate AllWhitespace(s: string) {
    forall k :: 0 <= k < |s| ==> IsWhitespace(s[k])
  }

  /** `s.trimmingCharacters(in: .whitespaces)`: `s` with the whitespace at both of its ends removed,
      and nothing else; a text of whitespace only becomes empty. The result starts right after the
      leading whitespace, and only whitespace follows it. */
  function Trim(s: string): (r: string)
    ensures r == [] || (!IsWhitespace(r[0]) && !IsWhitespace(r[|r| - 1]))
    ensures LeadingWhitespace(s) + |r| <= |s|
    ensures r == s[LeadingWhitespace(s)..LeadingWhitespace(s) + |r|]
    ensures AllWhitespace(s[LeadingWhitespace(s) + |r|..])
  {
    var i := LeadingWhitespace(s);
    var rest := s[i..];
    var j := |s| - TrailingWhitespace(rest);
    assert AllWhitespace(s[j..]) by {
      assert forall k :: 0 <= k < |s| - j ==> s[j..][k] == rest[j - i + k];
    }
    s[i..j]
  }

  /** Trimming removes exactly the whitespace around the text in between, when that text has none
      at its ends. */
  lemma TrimAround(w1: string, x: string, w2: string)
    requires AllWhitespace(w1) && AllWhitespace(w2)
    requires x == [] || (!IsWhitespace(x[0]) && !IsWhitespace(x[|x| - 1]))
    ensures Trim(w1 + x + w2) == x
  {
    var s := w1 + x + w2;
    var n := LeadingWhitespace(s);
    if x == [] {
      assert AllWhitespace(s) by {
        assert forall k :: 0 <= k < |s| ==> s[k] == if k < |w1| then w1[k] else w2[k - |w1|];
      }
      assert n == |s|;
    } else {
      assert s[|w1|] == x[0];
      assert n == |w1|;
      var rest := s[n..];
      assert rest == x + w2;
      var t := TrailingWhitespace(rest);
      assert rest[|x| - 1] == x[|x| - 1];
      assert t == |w2|;
      assert s[n..|s| - t] == x;
    }
  }

  /** A text with no whitespace at its ends is left as it is by trimming. */
  lemma TrimUntouched(s: string)
    requires s == [] || (!IsWhitespace(s[0]) && !IsWhitespace(s[|s| - 1]))
    ensures Trim(s) == s
  {
    TrimAround([], s, []);
    assert [] + s + [] == s;
  }

  /** `s.hasPrefix(p)`, `s.starts(with: p)` */
  predicate StartsWith(s: string, p: string) {
    |p| <= |s| && s[..|p|] == p
  }

  /** `s.hasSuffix(p)` */
  predicate EndsWith(s: string, p: string) {
    |p| <= |s| && s[|s| - |p|..] == p
  }

  /** `String(s.dropFirst())` */
  function DropFirst(s: string): (r: string)
    ensures |r| == if s == [] then 0 else |s| - 1
  {
    if s == [] then [] else s[1..]
  }

  /** `String(s.dropLast())` */
  function DropLast(s: string): (r: string)
    ensures |r| == if s == [] then 0 else |s| - 1
  {
    if s == [] then [] else s[..|s| - 1]
  }

  /** The position of the first `c` in `s`. */
  function FirstIndexOf(s: string, c: char): (r: Option<nat>)
    ensures r.None? <==> c !in s
    ensures r.Some? ==> r.value < |s| && s[r.value] == c && c !in s[..r.value]
  {
    if s == [] then None
    else if s[0] == c then Some(0)
    else
      var r := FirstIndexOf(s[1..], c);
      if r.None? then None
      else
        assert s[..r.value + 1] == [s[0]] + s[1..][..r.value];
        Some(r.value + 1)
  }

  /** What a C function sees of a Swift string passed as a `char *`: the characters before the
      first U+0000, which ends the C string. */
  function UpToNul(s: string): (r: string)
    ensures |r| <= |s| && r == s[..|r|]
    ensures '\0' !in r
    ensures |r| < |s| ==> s[|r|] == '\0'
  {
    match FirstIndexOf(s, '\0')
    case None => s
    case Some(i) => s[..i]
  }

  /** A string without U+0000 reaches C whole. */
  lemma UpToNulWhole(s: string)
    requires '\0' !in s
    ensures UpToNul(s) == s
  {
  }

  /** Cutting a string adds no character to it. */
  lemma UpToNulKeepsOut(s: string, c: char)
    requires c !in s
    ensures c !in UpToNul(s)
  {
  }

  /** A U+0000 cuts the string there: what follows it never reaches C. */
  lemma UpToNulCuts(a: string, b: string)
    requires '\0' !in a
    ensures UpToNul(a + "\0" + b) == a
  {
    var s := a + "\0" + b;
    var r := UpToNul(s);
    assert s[|a|] == '\0';
    assert s[..|a|] == a;
  }

  /** `s.split(separator: "=", maxSplits: 1)`, which omits empty pieces: '='s in front of the first
      piece are skipped, a piece is cut at the next '=' and the rest, if not empty, is the second piece. */
  function SplitOnEquals(s: string): (parts: seq<string>)
    ensures |parts| <= 2
    ensures forall i :: 0 <= i < |parts| ==> parts[i] != []
    ensures |parts| >= 1 ==> '=' !in parts[0]
    decreases |s|
  {
    if s == [] then []
    else if s[0] == '=' then SplitOnEquals(s[1..])
    else
      match FirstIndexOf(s, '=')
      case None => [s]
      case Some(p) =>
        if p + 1 == |s| then [s[..p]] else [s[..p], s[p + 1..]]
  }

  /** `a=b` with `a` free of '=' splits into `a` and everything after the first '=': `A=b=c` gives `A` and `b=c`. */
  lemma SplitOnEqualsAtFirst(a: string, b: string)
    requires a != [] && '=' !in a && b != []
    ensures SplitOnEquals(a + "=" + b) == [a, b]
  {
    var s := a + "=" + b;
    assert s[0] == a[0];
    assert s[..|a|] == a;
    assert s[|a|] == '=';
    assert FirstIndexOf(s, '=') == Some(|a|);
    assert s[|a| + 1..] == b;
  }

  /** A line that ends at its only '=' yields one piece: `KEY=` gives just `KEY`. */
  lemma SplitOnEqualsNoValue(a: string)
    requires a != [] && '=' !in a
    ensures SplitOnEquals(a + "=") == [a]
  {
    var s := a + "=";
    assert s[0] == a[0];
    assert s[..|a|] == a;
    assert FirstIndexOf(s, '=') == Some(|a|);
  }

  /** A line that starts with its only '=' yields one piece: `=value` gives just `value`. */
  lemma SplitOnEqualsNoKey(b: string)
    requires b != [] && '=' !in b
    ensures SplitOnEquals("=" + b) == [b]
  {
    var s := "=" + b;
    assert s[1..] == b;
    assert b[0] != '=';
  }
}
