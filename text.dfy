/** JavaScript's `String.prototype.trim` on Unicode text, and blankness. A Dafny string is a
    sequence of Unicode scalar values rather than UTF-16 code units; every character `trim`
    removes lies in the Basic Multilingual Plane, so the two views agree on it. */
module Text {

  /** The code points `trim` removes: the WhiteSpace and LineTerminator
      productions of ECMAScript (section 12.2 and 12.3 of ECMA-262). */
  predicate IsWhitespace(c: char)
    ensures IsWhitespace(c) ==> c <= '\U{FFFF}'
  {
    || c == '\t' || c == '\n' || c == '\U{000B}' || c == '\U{000C}' || c == '\r' || c == ' '
    || c == '\U{00A0}' || c == '\U{1680}'
    || ('\U{2000}' <= c <= '\U{200A}')
    || c == '\U{2028}' || c == '\U{2029}' || c == '\U{202F}' || c == '\U{205F}'
    || c == '\U{3000}' || c == '\U{FEFF}'
  }

  predicate AllWhitespace(s: string)
  {
    forall i :: 0 <= i < |s| ==> IsWhitespace(s[i])
  }

  /** Drops leading whitespace; the result is a suffix of `s`. */
  function TrimStart(s: string): (r: string)
    ensures |r| <= |s| && r == s[|s| - |r|..]
    ensures r == [] || !IsWhitespace(r[0])
    ensures AllWhitespace(s[..|s| - |r|])
  {
    if s == [] || !IsWhitespace(s[0]) then s
    else
      var rest := TrimStart(s[1..]);
      assert s[..|s| - |rest|] == [s[0]] + s[1..][..|s[1..]| - |rest|];
      rest
  }

  /** Drops trailing whitespace; the result is a prefix of `s`. */
  function TrimEnd(s: string): (r: string)
    ensures |r| <= |s| && r == s[..|r|]
    ensures r == [] || !IsWhitespace(r[|r| - 1])
    ensures AllWhitespace(s[|r|..])
  {
    if s == [] || !IsWhitespace(s[|s| - 1]) then s
    else
      var rest := TrimEnd(s[..|s| - 1]);
      assert s[|rest|..] == s[..|s| - 1][|rest|..] + [s[|s| - 1]];
      rest
  }

  /** `s.trim()`: the result neither starts nor ends with whitespace. */
  function Trim(s: string): (r: string)
    ensures |r| <= |s|
    ensures r == [] || (!IsWhitespace(r[0]) && !IsWhitespace(r[|r| - 1]))
  {
    var t := TrimStart(s);
    var r := TrimEnd(t);
    assert r != [] ==> r[0] == t[0];
    r
  }

  /** `!s.trim()`: the trimmed string is empty exactly when every character is whitespace. */
  lemma {:induction false} TrimEmptyIffAllWhitespace(s: string)
    ensures Trim(s) == [] <==> AllWhitespace(s)
  {
    var t := TrimStart(s);
    var k := |s| - |t|;
    if Trim(s) == [] {
      assert t[0..] == t;
      assert t == [];
      assert s[..k] == s;
    }
    if AllWhitespace(s) {
      TrimStartOfWhitespace(s);
    }
  }

  lemma {:induction false} TrimStartOfWhitespace(s: string)
    requires AllWhitespace(s)
    ensures TrimStart(s) == []
  {
    if s != [] {
      assert AllWhitespace(s[1..]) by {
        forall i | 0 <= i < |s[1..]| ensures IsWhitespace(s[1..][i]) {
          assert s[1..][i] == s[i + 1];
        }
      }
      TrimStartOfWhitespace(s[1..]);
    }
  }

  /** Trimming drops only whitespace, and only from the two ends: the result is the slice of
      the text between an all-whitespace prefix and an all-whitespace suffix. */
  lemma {:induction false} TrimIsInfix(s: string)
    ensures exists i, j :: 0 <= i <= j <= |s| && Trim(s) == s[i..j] && AllWhitespace(s[..i]) && AllWhitespace(s[j..])
  {
    var t := TrimStart(s);
    var k := |s| - |t|;
    var r := TrimEnd(t);
    assert t == s[k..];
    assert r == t[..|r|];
    assert r == s[k..k + |r|];
    assert s[k + |r|..] == t[|r|..];
  }
}
