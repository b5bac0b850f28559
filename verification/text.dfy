/**
 * The Kotlin string operations the GPS frame parser relies on:
 * `CharSequence.trim()` and `String.split(delimiter)`.
 */
module Text {

  /**
   * Kotlin's `Char.isWhitespace()` on the JVM: `Character.isWhitespace(c) ||
   * Character.isSpaceChar(c)`, i.e. the ASCII controls TAB, LF, VT, FF, CR and
   * FS..US, plus every Unicode space, line and paragraph separator.
   */
  predicate IsWhitespace(c: char) {
    || c == '\t' || c == '\n' || c == '\U{B}' || c == '\U{C}' || c == '\r'
    || ('\U{1C}' <= c <= '\U{1F}')
    || c == ' ' || c == '\U{A0}' || c == '\U{1680}'
    || ('\U{2000}' <= c <= '\U{200A}')
    || c == '\U{2028}' || c == '\U{2029}' || c == '\U{202F}' || c == '\U{205F}' || c == '\U{3000}'
  }

  /** Drops the leading whitespace: the result is the longest suffix starting with a non-blank. */
  function TrimStart(s: string): (r: string)
    ensures |r| <= |s|
    ensures |r| == |s| ==> r == s
    ensures |r| < |s| ==> r == s[|s| - |r|..]
    ensures forall i :: 0 <= i < |s| - |r| ==> IsWhitespace(s[i])
    ensures r == "" || !IsWhitespace(r[0])
  {
    if s != "" && IsWhitespace(s[0]) then TrimStart(s[1..]) else s
  }

  /** Drops the trailing whitespace: the result is the longest prefix ending in a non-blank. */
  function TrimEnd(s: string): (r: string)
    ensures |r| <= |s| && r == s[..|r|]
    ensures forall i :: |r| <= i < |s| ==> IsWhitespace(s[i])
    ensures r == "" || !IsWhitespace(r[|r| - 1])
  {
    if s != "" && IsWhitespace(s[|s| - 1]) then TrimEnd(s[..|s| - 1]) else s
  }

  /** `CharSequence.trim()`: the infix of `s` left after removing whitespace at both ends. */
  function Trim(s: string): (r: string)
    ensures |r| <= |TrimStart(s)| <= |s|
    ensures |TrimStart(s)| == |s| ==> r == s[..|r|]
    ensures |TrimStart(s)| < |s| ==> r == s[|s| - |TrimStart(s)|..|s| - |TrimStart(s)| + |r|]
    ensures r == "" || (!IsWhitespace(r[0]) && !IsWhitespace(r[|r| - 1]))
    ensures forall i :: 0 <= i < |s| - |TrimStart(s)| ==> IsWhitespace(s[i])
    ensures forall i :: |s| - |TrimStart(s)| + |r| <= i < |s| ==> IsWhitespace(s[i])
  {
    TrimEnd(TrimStart(s))
  }

  /** A string is left alone by `trim()` exactly when it has no whitespace at either end. */
  lemma TrimFixpoint(s: string)
    ensures Trim(s) == s <==> (s == "" || (!IsWhitespace(s[0]) && !IsWhitespace(s[|s| - 1])))
  {
  }

  /** Trimming twice is trimming once. */
  lemma TrimIdempotent(s: string)
    ensures Trim(Trim(s)) == Trim(s)
  {
    TrimFixpoint(Trim(s));
  }

  /** Trimming only removes characters, so it never introduces `c`. */
  lemma TrimKeepsAbsent(s: string, c: char)
    requires c !in s
    ensures c !in Trim(s)
  {
  }

  /** The inverse of `Split`: the parts glued back together with `sep` between them. */
  function Join(parts: seq<string>, sep: char): string
  {
    if |parts| == 0 then ""
    else if |parts| == 1 then parts[0]
    else parts[0] + [sep] + Join(parts[1..], sep)
  }

  /**
   * `String.split(sep)` with no limit: every occurrence of `sep` ends a part,
   * empty parts (also leading and trailing ones) are kept, and `""` splits into `[""]`.
   */
  function Split(s: string, sep: char): (parts: seq<string>)
    ensures |parts| >= 1
    ensures forall i :: 0 <= i < |parts| ==> sep !in parts[i]
    decreases |s|
  {
    if s == "" then [""]
    else
      var rest := Split(s[1..], sep);
      if s[0] == sep then [""] + rest
      else [[s[0]] + rest[0]] + rest[1..]
  }

  /** Number of occurrences of `c` in `s`. */
  function Count(s: string, c: char): nat
  {
    if s == "" then 0 else (if s[0] == c then 1 else 0) + Count(s[1..], c)
  }

  /** Joining the parts of a split gives back the original string. */
  lemma {:induction false} SplitJoin(s: string, sep: char)
    ensures Join(Split(s, sep), sep) == s
    decreases |s|
  {
    if s != "" {
      var rest := Split(s[1..], sep);
      SplitJoin(s[1..], sep);
      if s[0] == sep {
        assert Split(s, sep) == [""] + rest;
        assert ([""] + rest)[1..] == rest;
      } else {
        var parts := Split(s, sep);
        assert parts == [[s[0]] + rest[0]] + rest[1..];
        if |rest| == 1 {
          assert parts == [[s[0]] + rest[0]];
        } else {
          assert parts[1..] == rest[1..];
          assert Join(rest, sep) == rest[0] + [sep] + Join(rest[1..], sep);
          assert Join(parts, sep) == [s[0]] + rest[0] + [sep] + Join(rest[1..], sep);
        }
        assert [s[0]] + s[1..] == s;
      }
    }
  }

  /** Splitting a join of separator-free parts gives back the parts. */
  lemma {:induction false} JoinSplit(parts: seq<string>, sep: char)
    requires |parts| >= 1
    requires forall i :: 0 <= i < |parts| ==> sep !in parts[i]
    ensures Split(Join(parts, sep), sep) == parts
    decreases |parts|
  {
    if |parts| == 1 {
      SplitNoSeparator(parts[0], sep);
    } else {
      JoinSplit(parts[1..], sep);
      SplitAfterField(parts[0], Join(parts[1..], sep), sep);
      assert Join(parts, sep) == parts[0] + [sep] + Join(parts[1..], sep);
      assert [parts[0]] + parts[1..] == parts;
    }
  }

  /** A string without the separator is a single field. */
  lemma {:induction false} SplitNoSeparator(s: string, sep: char)
    requires sep !in s
    ensures Split(s, sep) == [s]
    decreases |s|
  {
    if s != "" {
      SplitNoSeparator(s[1..], sep);
      assert [s[0]] + s[1..] == s;
    }
  }

  /** A separator-free field followed by the separator is split off as the first part. */
  lemma {:induction false} SplitAfterField(a: string, t: string, sep: char)
    requires sep !in a
    ensures Split(a + [sep] + t, sep) == [a] + Split(t, sep)
    decreases |a|
  {
    if a == "" {
      assert a + [sep] + t == [sep] + t;
      assert ([sep] + t)[1..] == t;
    } else {
      var s := a + [sep] + t;
      assert s[0] == a[0];
      assert s[1..] == a[1..] + [sep] + t;
      SplitAfterField(a[1..], t, sep);
      assert [a[0]] + a[1..] == a;
    }
  }

  /** Splitting yields one more part than there are separators. */
  lemma {:induction false} SplitCount(s: string, sep: char)
    ensures |Split(s, sep)| == Count(s, sep) + 1
    decreases |s|
  {
    if s != "" {
      SplitCount(s[1..], sep);
    }
  }
}
