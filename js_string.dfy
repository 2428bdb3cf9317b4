/** The part of JavaScript's string semantics that the medication form relies on:
    `String.prototype.trim` and the truthiness of the string it returns. */
module JsString {

  /** ECMAScript WhiteSpace and LineTerminator code points (the characters
      `trim` removes), with the Unicode "Zs" category as of Unicode 15. */
  predicate IsWhitespace(c: char) {
    || c == '\t' || c == '\n' || c == '\U{000B}' || c == '\U{000C}' || c == '\r'
    || c == ' ' || c == '\U{00A0}' || c == '\U{1680}'
    || ('\U{2000}' <= c <= '\U{200A}')
    || c == '\U{2028}' || c == '\U{2029}' || c == '\U{202F}' || c == '\U{205F}'
    || c == '\U{3000}' || c == '\U{FEFF}'
  }

  /** Every character of `s` is whitespace (the empty string included). */
  ghost predicate IsBlank(s: string) {
    forall i :: 0 <= i < |s| ==> IsWhitespace(s[i])
  }

  /** Drops the leading whitespace: the result is the suffix of `s` that starts
      at its first non-whitespace character. */
  function TrimStart(s: string): (r: string)
    ensures |r| <= |s| && r == s[|s| - |r|..]
    ensures forall i :: 0 <= i < |s| - |r| ==> IsWhitespace(s[i])
    ensures r != [] ==> !IsWhitespace(r[0])
  {
    if s != [] && IsWhitespace(s[0]) then TrimStart(s[1..]) else s
  }

  /** Drops the trailing whitespace: the result is the prefix of `s` that ends
      at its last non-whitespace character. */
  function TrimEnd(s: string): (r: string)
    ensures |r| <= |s| && r == s[..|r|]
    ensures forall i :: |r| <= i < |s| ==> IsWhitespace(s[i])
    ensures r != [] ==> !IsWhitespace(r[|r| - 1])
  {
    if s != [] && IsWhitespace(s[|s| - 1]) then TrimEnd(s[..|s| - 1]) else s
  }

  /** `s.trim()`: what is left neither starts nor ends with whitespace. */
  function Trim(s: string): (r: string)
    ensures |r| <= |s|
    ensures r != [] ==> !IsWhitespace(r[0]) && !IsWhitespace(r[|r| - 1])
  {
    TrimEnd(TrimStart(s))
  }

  /** A JavaScript string is truthy exactly when it is not empty. */
  predicate Truthy(s: string) {
    s != []
  }

  /** `trim` returns the empty string exactly for blank input. */
  lemma {:induction false} TrimEmptyIffBlank(s: string)
    ensures Trim(s) == [] <==> IsBlank(s)
  {
    var t := TrimStart(s);
    assert t == s[|s| - |t|..];
    if t == [] {
      assert forall i :: 0 <= i < |s| ==> IsWhitespace(s[i]);
    } else {
      assert !IsWhitespace(s[|s| - |t|]);
    }
  }

  /** The guard `if (name.trim())` holds exactly when the name has a
      non-whitespace character. */
  lemma TrimTruthyIffVisible(s: string)
    ensures Truthy(Trim(s)) <==> exists i :: 0 <= i < |s| && !IsWhitespace(s[i])
  {
    TrimEmptyIffBlank(s);
  }

  /** `trim` is the infix `s[i..j]` of its input, where `s[..i]` and
      `s[i..][j - i..]` are the parts `TrimStart` and `TrimEnd` drop. */
  lemma TrimIsInfix(s: string) returns (i: nat, j: nat)
    ensures i <= j <= |s| && Trim(s) == s[i..j]
    ensures s[i..] == TrimStart(s) && Trim(s) == TrimEnd(s[i..])
  {
    var t := TrimStart(s);
    i := |s| - |t|;
    var e := TrimEnd(t);
    j := i + |e|;
    assert t == s[i..];
    assert e == t[..j - i];
    assert t[..j - i] == s[i..j];
  }
}
