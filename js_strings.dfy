/**
 * The few JavaScript string operations the modelled code relies on:
 * `String.prototype.trim` and repeated `+=` concatenation.
 */
module JsStrings {

  /** The characters `trim` removes: ECMAScript WhiteSpace and LineTerminator. */
  predicate IsWhitespace(c: char) {
    || c == '\t' || c == '\n' || c == '\U{000B}' || c == '\U{000C}' || c == '\r'
    || c == ' ' || c == '\U{00A0}' || c == '\U{1680}'
    || ('\U{2000}' <= c <= '\U{200A}')
    || c == '\U{2028}' || c == '\U{2029}' || c == '\U{202F}' || c == '\U{205F}'
    || c == '\U{3000}' || c == '\U{FEFF}'
  }

  predicate AllWhitespace(s: string) {
    forall i :: 0 <= i < |s| ==> IsWhitespace(s[i])
  }

  /** Drops leading whitespace: the result is a suffix of `s`, and what was dropped is all whitespace. */
  function TrimStart(s: string): (r: string)
    ensures |r| <= |s| && r == s[|s| - |r|..]
    ensures AllWhitespace(s[..|s| - |r|])
    ensures r == [] || !IsWhitespace(r[0])
  {
    if s == [] then []
    else if IsWhitespace(s[0]) then TrimStart(s[1..])
    else s
  }

  /** Drops trailing whitespace: the result is a prefix of `s`, and what was dropped is all whitespace. */
  function TrimEnd(s: string): (r: string)
    ensures |r| <= |s| && r == s[..|r|]
    ensures AllWhitespace(s[|r|..])
    ensures r == [] || !IsWhitespace(r[|r| - 1])
  {
    if s == [] then []
    else if IsWhitespace(s[|s| - 1]) then TrimEnd(s[..|s| - 1])
    else s
  }

  /**
   * `s.trim()`: the contiguous middle of `s` left after removing whitespace at both ends.
   * It is empty exactly when `s` is all whitespace.
   */
  function Trim(s: string): (r: string)
    ensures |r| <= |s|
    ensures r == [] || (!IsWhitespace(r[0]) && !IsWhitespace(r[|r| - 1]))
    ensures r == [] <==> AllWhitespace(s)
  {
    var a := TrimStart(s);
    var b := TrimEnd(a);
    assert s == s[..|s| - |a|] + a;
    b
  }

  /** What `trim` keeps is one contiguous piece of the input, starting after the leading whitespace. */
  lemma TrimIsSlice(s: string)
    ensures var k := |s| - |TrimStart(s)|;
      k + |Trim(s)| <= |s| && Trim(s) == s[k..k + |Trim(s)|]
  {
  }

  /** Only whitespace comes before the kept piece, and only whitespace after it. */
  lemma {:induction false} TrimSurroundedByWhitespace(s: string)
    ensures var k := |s| - |TrimStart(s)|;
      k + |Trim(s)| <= |s| && AllWhitespace(s[..k]) && AllWhitespace(s[k + |Trim(s)|..])
  {
    var a := TrimStart(s);
    var b := TrimEnd(a);
    assert Trim(s) == b;
    WhitespaceAround(s, a, b);
  }

  /** A prefix `b` of a suffix `a` of `s`, each cut off from whitespace, sits between whitespace in `s`. */
  lemma WhitespaceAround(s: string, a: string, b: string)
    requires |a| <= |s| && a == s[|s| - |a|..] && AllWhitespace(s[..|s| - |a|])
    requires |b| <= |a| && b == a[..|b|] && AllWhitespace(a[|b|..])
    ensures var k := |s| - |a|;
      && k + |b| <= |s| && b == s[k..k + |b|]
      && AllWhitespace(s[..k]) && AllWhitespace(s[k + |b|..])
  {
    var k := |s| - |a|;
    assert a[..|b|] == s[k..k + |b|];
    assert a[|b|..] == s[k + |b|..];
  }

  /** Trimming a trimmed string changes nothing. */
  lemma TrimIdempotent(s: string)
    ensures Trim(Trim(s)) == Trim(s)
  {
  }

  /** The result of `acc += s` for every `s` of `ss` in turn, starting from `''`. */
  function Concat(ss: seq<string>): string {
    if ss == [] then "" else Concat(ss[..|ss| - 1]) + ss[|ss| - 1]
  }

  lemma {:induction false} ConcatAppend(a: seq<string>, b: seq<string>)
    ensures Concat(a + b) == Concat(a) + Concat(b)
    decreases |b|
  {
    if b == [] {
      assert a + b == a;
    } else {
      var b' := b[..|b| - 1];
      assert (a + b)[..|a + b| - 1] == a + b';
      ConcatAppend(a, b');
    }
  }
}
