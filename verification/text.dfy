/** The two string operations of the JavaScript runtime the components rely on:
    `String.prototype.trim` (blank-input guards) and `split(sep)[0]` (the text
    before the first separator). */
module Text {

  /** The code points `trim` strips: the WhiteSpace and LineTerminator
      productions of ECMA-262 (sections 12.2 and 12.3): TAB, LF, VT, FF, CR,
      SPACE, NBSP, ZWNBSP, the Zs space separators, LS and PS. */
  predicate IsWhitespace(c: char) {
    var n := c as int;
    (0x09 <= n <= 0x0D) || n == 0x20 || n == 0xA0 || n == 0x1680
    || (0x2000 <= n <= 0x200A) || n == 0x2028 || n == 0x2029
    || n == 0x202F || n == 0x205F || n == 0x3000 || n == 0xFEFF
  }

  predicate AllWhitespace(s: string) {
    forall i :: 0 <= i < |s| ==> IsWhitespace(s[i])
  }

  /** Drops leading whitespace: the result is a suffix of `s`, everything
      dropped is whitespace, and the result does not start with whitespace. */
  function TrimStart(s: string): (r: string)
    ensures |r| <= |s| && r == s[|s| - |r|..]
    ensures AllWhitespace(s[..|s| - |r|])
    ensures r == [] || !IsWhitespace(r[0])
  {
    if |s| > 0 && IsWhitespace(s[0]) then TrimStart(s[1..]) else s
  }

  /** Drops trailing whitespace: the result is a prefix of `s`, everything
      dropped is whitespace, and the result does not end with whitespace. */
  function TrimEnd(s: string): (r: string)
    ensures |r| <= |s| && r == s[..|r|]
    ensures AllWhitespace(s[|r|..])
    ensures r == [] || !IsWhitespace(r[|r| - 1])
  {
    if |s| > 0 && IsWhitespace(s[|s| - 1]) then
      var t := s[..|s| - 1];
      var r := TrimEnd(t);
      assert s[|r|..] == t[|r|..] + [s[|s| - 1]];
      r
    else s
  }

  /** `s.trim()`. */
  function Trim(s: string): string {
    TrimEnd(TrimStart(s))
  }

  /** The guard `!s.trim()`: the trimmed text is the empty (falsy) string. */
  predicate IsBlank(s: string) {
    Trim(s) == []
  }

  /** A string is blank exactly when every character of it is whitespace, so
      a single visible character anywhere makes the input acceptable. */
  lemma BlankIffAllWhitespace(s: string)
    ensures IsBlank(s) <==> AllWhitespace(s)
  {
    var t := TrimStart(s);
    if IsBlank(s) {
      assert t[0..] == t;
      assert s[..|s| - |t|] == s;
    }
  }

  /** `s.split(sep)[0]`: the text before the first `sep`, or all of `s` when it
      has none. The result is a prefix of `s` free of `sep`, and it stops
      exactly at the first `sep`. */
  function Before(s: string, sep: char): (r: string)
    ensures |r| <= |s| && r == s[..|r|]
    ensures sep !in r
    ensures |r| < |s| ==> s[|r|] == sep
  {
    if |s| == 0 || s[0] == sep then [] else [s[0]] + Before(s[1..], sep)
  }

  /** Without a separator the whole string is kept. */
  lemma {:induction false} BeforeWithoutSeparator(s: string, sep: char)
    requires sep !in s
    ensures Before(s, sep) == s
  {
    if |s| > 0 {
      assert s[0] != sep;
      BeforeWithoutSeparator(s[1..], sep);
      assert s == [s[0]] + s[1..];
    }
  }

  /** Text after the first separator does not matter. */
  lemma {:induction false} BeforeIgnoresTail(a: string, b: string, sep: char)
    requires sep in a
    ensures Before(a + b, sep) == Before(a, sep)
  {
    assert |a| > 0;
    assert (a + b)[0] == a[0];
    if a[0] != sep {
      assert (a + b)[1..] == a[1..] + b;
      BeforeIgnoresTail(a[1..], b, sep);
    }
  }

  /** The first separator ends the result. */
  lemma {:induction false} BeforeStopsAtSeparator(a: string, b: string, sep: char)
    requires sep !in a
    ensures Before(a + [sep] + b, sep) == a
  {
    if |a| > 0 {
      assert (a + [sep] + b)[1..] == a[1..] + [sep] + b;
      BeforeStopsAtSeparator(a[1..], b, sep);
      assert a == [a[0]] + a[1..];
    }
  }
}
