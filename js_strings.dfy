/**
 * The pieces of JavaScript string behaviour the application relies on:
 * the white-space set that `String.prototype.trim` and `parseFloat` skip,
 * and `trim` itself.
 */
module JsStrings {

  /** WhiteSpace and LineTerminator code points of ECMAScript (sections 12.2 and 12.3 of ECMA-262). */
  predicate IsWhiteSpace(c: char) {
    || c == '\t' || c == '\n' || c == '\U{B}' || c == '\U{C}' || c == '\r' || c == ' '
    || c == '\U{A0}' || c == '\U{1680}' || ('\U{2000}' <= c <= '\U{200A}')
    || c == '\U{2028}' || c == '\U{2029}' || c == '\U{202F}' || c == '\U{205F}'
    || c == '\U{3000}' || c == '\U{FEFF}'
  }

  predicate IsDigit(c: char) {
    '0' <= c <= '9'
  }

  /** `s.trimStart()`: drops the leading white space, and only that. */
  function TrimStart(s: string): (r: string)
    ensures |r| <= |s| && r == s[|s| - |r|..]
    ensures forall i :: 0 <= i < |s| - |r| ==> IsWhiteSpace(s[i])
    ensures r == [] || !IsWhiteSpace(r[0])
  {
    if |s| > 0 && IsWhiteSpace(s[0]) then TrimStart(s[1..]) else s
  }

  /** `s.trimEnd()`: drops the trailing white space, and only that. */
  function TrimEnd(s: string): (r: string)
    ensures |r| <= |s| && r == s[..|r|]
    ensures forall i :: |r| <= i < |s| ==> IsWhiteSpace(s[i])
    ensures r == [] || !IsWhiteSpace(r[|r| - 1])
  {
    if |s| > 0 && IsWhiteSpace(s[|s| - 1]) then TrimEnd(s[..|s| - 1]) else s
  }

  /** `s.trim()`. */
  function Trim(s: string): string {
    TrimEnd(TrimStart(s))
  }

  /**
   * What `trim` returns: the infix of `s` that is left once every
   * white-space character at either end is gone.
   */
  lemma {:induction false} TrimIsInfix(s: string)
    ensures var a := |s| - |TrimStart(s)|;
              && a + |Trim(s)| <= |s|
              && (forall i :: 0 <= i < |Trim(s)| ==> Trim(s)[i] == s[a + i])
              && (forall i :: 0 <= i < a ==> IsWhiteSpace(s[i]))
              && (forall i :: a + |Trim(s)| <= i < |s| ==> IsWhiteSpace(s[i]))
  {
    TrimEndIsPrefix(s, |s| - |TrimStart(s)|, TrimStart(s), Trim(s));
  }

  /** The result of `trim` begins and ends with a character that is not white space, or is empty. */
  lemma TrimmedEnds(s: string)
    ensures Trim(s) == [] || (!IsWhiteSpace(Trim(s)[0]) && !IsWhiteSpace(Trim(s)[|Trim(s)| - 1]))
  {
    var t := TrimStart(s);
    var e := TrimEnd(t);
    if e != [] {
      assert e[0] == t[0];
    }
  }

  /** Trimming the end of the suffix `t == s[a..]` leaves an infix of `s` with only white space after it. */
  lemma TrimEndIsPrefix(s: string, a: nat, t: string, e: string)
    requires a <= |s| && t == s[a..] && e == TrimEnd(t)
    ensures a + |e| <= |s|
    ensures forall i :: 0 <= i < |e| ==> e[i] == s[a + i]
    ensures forall i :: a + |e| <= i < |s| ==> IsWhiteSpace(s[i])
  {
    assert e == t[..|e|];
    forall i | a + |e| <= i < |s| ensures IsWhiteSpace(s[i]) {
      assert s[i] == t[i - a];
    }
  }

  /** Trimming twice is trimming once. */
  lemma TrimIdempotent(s: string)
    ensures Trim(Trim(s)) == Trim(s)
  {
    var r := Trim(s);
    TrimmedEnds(s);
    assert TrimStart(r) == r;
    assert TrimEnd(r) == r;
  }

  /** A string with no white space at either end is left as it is. */
  lemma TrimKeepsInnerText(s: string)
    requires s == [] || (!IsWhiteSpace(s[0]) && !IsWhiteSpace(s[|s| - 1]))
    ensures Trim(s) == s
  {
  }
}
