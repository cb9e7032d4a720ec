/** `String.prototype.trim`, which the page applies to the vCard, and
    splitting/joining text on one separator character in the manner of
    JavaScript's `split` and `join`: the page does not call these two; they
    are the vocabulary in which the card's lines and components are stated. */
module Strings {

  /** The characters `trim` removes: ECMAScript's WhiteSpace and
      LineTerminator code points. */
  predicate IsJsWhitespace(ch: char) {
    || ch == '\t' || ch == '\n' || ch == '\U{B}' || ch == '\U{C}' || ch == '\r'
    || ch == ' ' || ch == '\U{A0}' || ch == '\U{1680}'
    || ('\U{2000}' <= ch <= '\U{200A}')
    || ch == '\U{2028}' || ch == '\U{2029}' || ch == '\U{202F}'
    || ch == '\U{205F}' || ch == '\U{3000}' || ch == '\U{FEFF}'
  }

  /** Drops the leading whitespace: the result is the longest suffix of `s`
      that does not start with whitespace. */
  function TrimStart(s: string): (r: string)
    ensures |r| <= |s| && r == s[|s| - |r|..]
    ensures r == [] || !IsJsWhitespace(r[0])
    ensures forall i :: 0 <= i < |s| - |r| ==> IsJsWhitespace(s[i])
    decreases |s|
  {
    if s != [] && IsJsWhitespace(s[0]) then TrimStart(s[1..]) else s
  }

  /** Drops the trailing whitespace: the result is the longest prefix of `s`
      that does not end with whitespace. */
  function TrimEnd(s: string): (r: string)
    ensures |r| <= |s| && r == s[..|r|]
    ensures r == [] || !IsJsWhitespace(r[|r| - 1])
    ensures forall i :: |r| <= i < |s| ==> IsJsWhitespace(s[i])
    decreases |s|
  {
    if s != [] && IsJsWhitespace(s[|s| - 1]) then TrimEnd(s[..|s| - 1]) else s
  }

  /** `s.trim()`: no longer than `s`, empty or with non-whitespace at both
      ends, and empty when `s` is all whitespace. */
  function Trim(s: string): (r: string)
    ensures |r| <= |s|
    ensures r == [] || (!IsJsWhitespace(r[0]) && !IsJsWhitespace(r[|r| - 1]))
    ensures (forall i :: 0 <= i < |s| ==> IsJsWhitespace(s[i])) ==> r == []
  {
    var t := TrimStart(s);
    assert t != [] ==> t[0] == s[|s| - |t|];
    TrimEnd(t)
  }

  /** `trim` keeps the text between the two ends: the result is the slice
      of `s` that starts after the leading whitespace, and everything outside
      that slice is whitespace. */
  lemma TrimKeepsMiddle(s: string)
    ensures var r := Trim(s);
      var a := |s| - |TrimStart(s)|;
      && a + |r| <= |s|
      && r == s[a..a + |r|]
      && (forall i :: 0 <= i < a ==> IsJsWhitespace(s[i]))
      && (forall i :: a + |r| <= i < |s| ==> IsJsWhitespace(s[i]))
  {
    var t := TrimStart(s);
    var r := Trim(s);
    var a := |s| - |t|;
    assert t == s[a..];
    assert r == t[..|r|];
    forall i | a + |r| <= i < |s| ensures IsJsWhitespace(s[i]) {
      assert s[i] == t[i - a];
    }
  }

  /** `trim` only touches the two ends: text that starts and ends with
      non-whitespace comes back unchanged, whatever lies in between. */
  lemma TrimKeepsText(s: string)
    requires s != [] && !IsJsWhitespace(s[0]) && !IsJsWhitespace(s[|s| - 1])
    ensures Trim(s) == s
  {
  }

  /** `s.startsWith(prefix)`. */
  predicate StartsWith(s: string, prefix: string) {
    |prefix| <= |s| && s[..|prefix|] == prefix
  }

  /** `s.split(sep)` for a one-character separator: the pieces between the
      separators, the empty ones included; the empty text gives `[""]`. */
  function Split(s: string, sep: char): (parts: seq<string>)
    ensures |parts| >= 1
    ensures forall i :: 0 <= i < |parts| ==> sep !in parts[i]
    decreases |s|
  {
    if s == [] then [[]]
    else
      var rest := Split(s[1..], sep);
      if s[0] == sep then [[]] + rest
      else [[s[0]] + rest[0]] + rest[1..]
  }

  /** `parts.join(sep)`. */
  function Join(parts: seq<string>, sep: char): string
    decreases |parts|
  {
    if |parts| == 0 then []
    else if |parts| == 1 then parts[0]
    else parts[0] + [sep] + Join(parts[1..], sep)
  }

  /** One step of `Split`: the first character either ends the first piece
      or joins it. */
  lemma SplitCons(ch: char, s: string, sep: char)
    ensures Split([ch] + s, sep) ==
      if ch == sep then [[]] + Split(s, sep)
      else [[ch] + Split(s, sep)[0]] + Split(s, sep)[1..]
  {
    assert ([ch] + s)[0] == ch && ([ch] + s)[1..] == s;
  }

  /** A separator between two texts splits them apart: the pieces of the
      first, then the pieces of the second. */
  lemma {:induction false} SplitAround(x: string, y: string, sep: char)
    ensures Split(x + [sep] + y, sep) == Split(x, sep) + Split(y, sep)
    decreases |x|
  {
    if x == [] {
      assert x + [sep] + y == [sep] + y;
      SplitCons(sep, y, sep);
    } else {
      var w := x[1..] + [sep] + y;
      assert x + [sep] + y == [x[0]] + w;
      assert [x[0]] + x[1..] == x;
      SplitAround(x[1..], y, sep);
      SplitFront(x[0], x[1..], w, Split(y, sep), sep);
    }
  }

  /** Putting one character in front of two texts that split alike up to a
      common tail of pieces keeps them splitting alike. */
  lemma SplitFront(ch: char, x: string, w: string, right: seq<string>, sep: char)
    requires Split(w, sep) == Split(x, sep) + right
    ensures Split([ch] + w, sep) == Split([ch] + x, sep) + right
  {
    if ch == sep {
      SplitFrontSeparator(x, w, right, sep);
    } else {
      SplitFrontOther(ch, x, w, right, sep);
    }
  }

  lemma SplitFrontSeparator(x: string, w: string, right: seq<string>, sep: char)
    requires Split(w, sep) == Split(x, sep) + right
    ensures Split([sep] + w, sep) == Split([sep] + x, sep) + right
  {
    var left := Split(x, sep);
    SplitCons(sep, w, sep);
    SplitCons(sep, x, sep);
    assert [[]] + (left + right) == ([[]] + left) + right;
  }

  lemma SplitFrontOther(ch: char, x: string, w: string, right: seq<string>, sep: char)
    requires ch != sep
    requires Split(w, sep) == Split(x, sep) + right
    ensures Split([ch] + w, sep) == Split([ch] + x, sep) + right
  {
    var left := Split(x, sep);
    var first := [ch] + left[0];
    assert Split([ch] + w, sep) == [first] + (left[1..] + right) by {
      SplitCons(ch, w, sep);
      assert (left + right)[0] == left[0];
      assert (left + right)[1..] == left[1..] + right;
    }
    assert Split([ch] + x, sep) == [first] + left[1..] by {
      SplitCons(ch, x, sep);
    }
    assert [first] + (left[1..] + right) == ([first] + left[1..]) + right;
  }

  /** Text without the separator is a single piece. */
  lemma {:induction false} SplitWhole(s: string, sep: char)
    requires sep !in s
    ensures Split(s, sep) == [s]
    decreases |s|
  {
    if s != [] {
      SplitWhole(s[1..], sep);
      assert [s[0]] + s[1..] == s;
    }
  }

  /** One line followed by the separator splits off as a piece of its own. */
  lemma SplitLine(line: string, rest: string, sep: char)
    requires sep !in line
    ensures Split(line + [sep] + rest, sep) == [line] + Split(rest, sep)
  {
    SplitAround(line, rest, sep);
    SplitWhole(line, sep);
  }

  /** Joining the pieces of a split gives the text back. */
  lemma {:induction false} JoinSplit(s: string, sep: char)
    ensures Join(Split(s, sep), sep) == s
    decreases |s|
  {
    if s != [] {
      var rest := Split(s[1..], sep);
      JoinSplit(s[1..], sep);
      if s[0] == sep {
        assert Split(s, sep)[1..] == rest;
        assert s == [sep] + s[1..];
      } else if |rest| == 1 {
        assert s == [s[0]] + s[1..];
      } else {
        var parts := Split(s, sep);
        assert parts[1..] == rest[1..];
        assert Join(rest, sep) == rest[0] + [sep] + Join(rest[1..], sep);
        assert s == [s[0]] + s[1..];
      }
    }
  }

  /** Splitting pieces that do not contain the separator after joining them
      gives the pieces back. */
  lemma {:induction false} SplitJoin(parts: seq<string>, sep: char)
    requires |parts| >= 1
    requires forall i :: 0 <= i < |parts| ==> sep !in parts[i]
    ensures Split(Join(parts, sep), sep) == parts
    decreases |parts|
  {
    if |parts| == 1 {
      SplitWhole(parts[0], sep);
    } else {
      SplitJoin(parts[1..], sep);
      SplitLine(parts[0], Join(parts[1..], sep), sep);
      assert [parts[0]] + parts[1..] == parts;
    }
  }

  /** A join ends with its last piece. */
  lemma {:induction false} JoinEndsWithLast(parts: seq<string>, sep: char)
    requires |parts| >= 1
    ensures |Join(parts, sep)| >= |parts[|parts| - 1]|
    ensures Join(parts, sep)[|Join(parts, sep)| - |parts[|parts| - 1]|..] == parts[|parts| - 1]
    decreases |parts|
  {
    if |parts| > 1 {
      JoinEndsWithLast(parts[1..], sep);
      var j := Join(parts[1..], sep);
      var last := parts[|parts| - 1];
      assert parts[1..][|parts[1..]| - 1] == last;
      var prefix := parts[0] + [sep];
      assert Join(parts, sep) == prefix + j;
      assert (prefix + j)[|prefix + j| - |last|..] == j[|j| - |last|..];
    }
  }
}
