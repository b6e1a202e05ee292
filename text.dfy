/** The two `str` operations the daemon's command reader relies on: `splitn(2, " ")` and `trim`. */
module Text {

  /** `char::is_whitespace`: the characters with the Unicode White_Space property. */
  predicate IsWhitespace(c: char) {
    ('\U{0009}' <= c <= '\U{000D}') || c == ' ' || c == '\U{0085}' || c == '\U{00A0}' ||
    c == '\U{1680}' || ('\U{2000}' <= c <= '\U{200A}') || c == '\U{2028}' || c == '\U{2029}' ||
    c == '\U{202F}' || c == '\U{205F}' || c == '\U{3000}'
  }

  /**
   * `s.splitn(2, [sep])`: the text before the first `sep` and, when there is one, the
   * text after it. There is always at least one part.
   */
  function SplitOnce(s: string, sep: char): (parts: seq<string>)
    ensures 1 <= |parts| <= 2
    ensures sep !in parts[0]
    ensures |parts| == 1 ==> parts[0] == s
    ensures |parts| == 2 ==> s == parts[0] + [sep] + parts[1]
  {
    if s == [] then [[]]
    else if s[0] == sep then [[], s[1..]]
    else
      var rest := SplitOnce(s[1..], sep);
      [[s[0]] + rest[0]] + rest[1..]
  }

  /** The split is determined by the position of the first separator. */
  lemma {:induction false} SplitOnceAt(a: string, sep: char, b: string)
    requires sep !in a
    ensures SplitOnce(a + [sep] + b, sep) == [a, b]
  {
    var s := a + [sep] + b;
    if a != [] {
      assert s[1..] == a[1..] + [sep] + b;
      SplitOnceAt(a[1..], sep, b);
      assert [a[0]] + a[1..] == a;
    }
  }

  /** A string without the separator is one part. */
  lemma SplitOnceWithout(s: string, sep: char)
    requires sep !in s
    ensures SplitOnce(s, sep) == [s]
  {
  }

  /** `trim_start`. */
  function TrimStart(s: string): (r: string)
    ensures |r| <= |s| && r == s[|s| - |r|..]
    ensures r == [] || !IsWhitespace(r[0])
    ensures forall i :: 0 <= i < |s| - |r| ==> IsWhitespace(s[i])
  {
    if s != [] && IsWhitespace(s[0]) then TrimStart(s[1..]) else s
  }

  /** `trim_end`. */
  function TrimEnd(s: string): (r: string)
    ensures |r| <= |s| && r == s[..|r|]
    ensures r == [] || !IsWhitespace(r[|r| - 1])
    ensures forall i :: |r| <= i < |s| ==> IsWhitespace(s[i])
  {
    if s != [] && IsWhitespace(s[|s| - 1]) then TrimEnd(s[..|s| - 1]) else s
  }

  /** `str::trim`: leading and trailing whitespace removed. */
  function Trim(s: string): (r: string)
    ensures |r| <= |s|
  {
    TrimEnd(TrimStart(s))
  }

  /** No leading or trailing whitespace. */
  predicate Trimmed(s: string) {
    s == [] || (!IsWhitespace(s[0]) && !IsWhitespace(s[|s| - 1]))
  }

  /** What `trim` returns has no whitespace at either end. */
  lemma TrimIsTrimmed(s: string)
    ensures Trimmed(Trim(s))
  {
    var t := TrimStart(s);
    var r := TrimEnd(t);
    assert Trim(s) == r;
    if r != [] {
      assert !IsWhitespace(r[0]) by {
        assert r[0] == t[0];
      }
    }
  }

  /** `r` is the slice of `s` starting at `i`, and everything of `s` outside it is whitespace. */
  predicate WhitespaceAround(s: string, i: int, r: string) {
    0 <= i && i + |r| <= |s| && r == s[i..i + |r|] &&
    (forall k :: 0 <= k < i ==> IsWhitespace(s[k])) &&
    (forall k :: i + |r| <= k < |s| ==> IsWhitespace(s[k]))
  }

  /**
   * `trim` keeps a contiguous slice of its input, starting where `trim_start` stops, and
   * everything it drops, before and after that slice, is whitespace.
   */
  lemma {:induction false} TrimSlice(s: string)
    ensures WhitespaceAround(s, |s| - |TrimStart(s)|, Trim(s))
  {
    var t := TrimStart(s);
    var r := TrimEnd(t);
    assert Trim(s) == r;
    SuffixPrefixSlice(s, t, r);
  }

  /**
   * A prefix of a suffix is a slice; when whitespace precedes the suffix and follows the
   * prefix, only whitespace lies around the slice.
   */
  lemma SuffixPrefixSlice(s: string, t: string, r: string)
    requires |t| <= |s| && t == s[|s| - |t|..]
    requires forall k :: 0 <= k < |s| - |t| ==> IsWhitespace(s[k])
    requires |r| <= |t| && r == t[..|r|]
    requires forall j :: |r| <= j < |t| ==> IsWhitespace(t[j])
    ensures WhitespaceAround(s, |s| - |t|, r)
  {
    var i := |s| - |t|;
    forall k | i + |r| <= k < |s|
      ensures IsWhitespace(s[k])
    {
      assert s[k] == t[k - i];
    }
  }

  /** A string already free of whitespace at both ends is left as it is. */
  lemma TrimTrimmed(s: string)
    requires Trimmed(s)
    ensures Trim(s) == s
  {
  }

  /** Trimming drops the line terminator `read_line` leaves at the end of a line. */
  lemma {:induction false} TrimLine(s: string)
    requires Trimmed(s)
    ensures Trim(s + "\n") == s
  {
    var line := s + "\n";
    if s == [] {
      assert TrimStart(line) == [] by {
        assert line[1..] == [];
      }
    } else {
      assert TrimStart(line) == line by {
        assert line[0] == s[0];
      }
      assert TrimEnd(line) == s by {
        assert line[..|line| - 1] == s;
        assert TrimEnd(s) == s;
      }
    }
  }
}
