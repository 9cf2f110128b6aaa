/** The two JavaScript built-ins whose behaviour the plugins depend on:
    `Array.prototype.indexOf` and `String.prototype.trim`. */
module Js {

  /** `xs.indexOf(x)`: the first index holding `x` (strict equality), or -1 when there is none. */
  function IndexOf<T(==)>(xs: seq<T>, x: T): (i: int)
    ensures -1 <= i < |xs|
    ensures i == -1 <==> x !in xs
    ensures 0 <= i ==> xs[i] == x && x !in xs[..i]
  {
    if xs == [] then -1
    else if xs[0] == x then 0
    else
      var j := IndexOf(xs[1..], x);
      if j == -1 then -1
      else
        assert xs[..j + 1] == [xs[0]] + xs[1..][..j];
        j + 1
  }

  /** The characters `trim` removes: ECMAScript's WhiteSpace and LineTerminator code points
      (section 12.2 and 12.3 of ECMA-262), with the space separators of Unicode 15. */
  predicate IsWhitespace(c: char) {
    c in Whitespace
  }

  const Whitespace: set<char> := {
    '\t', '\n', '\U{000B}', '\U{000C}', '\r', ' ', '\U{00A0}', '\U{1680}',
    '\U{2000}', '\U{2001}', '\U{2002}', '\U{2003}', '\U{2004}', '\U{2005}',
    '\U{2006}', '\U{2007}', '\U{2008}', '\U{2009}', '\U{200A}',
    '\U{2028}', '\U{2029}', '\U{202F}', '\U{205F}', '\U{3000}', '\U{FEFF}'
  }

  /** A string made of whitespace only (the empty string included). */
  predicate IsBlank(s: string) {
    forall i | 0 <= i < |s| :: IsWhitespace(s[i])
  }

  /** The number of whitespace characters `s` starts with. */
  function LeadingBlanks(s: string): (n: nat)
    ensures n <= |s| && IsBlank(s[..n])
    ensures n < |s| ==> !IsWhitespace(s[n])
  {
    if s != [] && IsWhitespace(s[0]) then
      var n := LeadingBlanks(s[1..]);
      assert s[..n + 1] == [s[0]] + s[1..][..n];
      n + 1
    else 0
  }

  /** The number of whitespace characters `s` ends with. */
  function TrailingBlanks(s: string): (n: nat)
    ensures n <= |s| && IsBlank(s[|s| - n..])
    ensures n < |s| ==> !IsWhitespace(s[|s| - n - 1])
  {
    if s != [] && IsWhitespace(s[|s| - 1]) then
      var t := s[..|s| - 1];
      var n := TrailingBlanks(t);
      assert IsBlank(s[|s| - n - 1..]) by {
        var u := s[|s| - n - 1..];
        forall i | 0 <= i < |u| ensures IsWhitespace(u[i]) {
          if i < n { assert u[i] == t[|t| - n..][i]; } else { assert u[i] == s[|s| - 1]; }
        }
      }
      assert n + 1 < |s| ==> s[|s| - n - 2] == t[|t| - n - 1];
      n + 1
    else 0
  }

  /** `s.trim()`: a middle part of `s` with only whitespace cut off on either side; it is empty
      exactly when `s` is blank, and otherwise neither starts nor ends with whitespace. */
  function Trim(s: string): (r: string)
    ensures |r| == 0 <==> IsBlank(s)
    ensures r != [] ==> !IsWhitespace(r[0]) && !IsWhitespace(r[|r| - 1])
    ensures exists i, j | 0 <= i <= j <= |s| :: r == s[i..j] && IsBlank(s[..i]) && IsBlank(s[j..])
  {
    var i := LeadingBlanks(s);
    if i == |s| then
      assert s[..i] == s && s[i..] == [];
      []
    else
      var j := |s| - TrailingBlanks(s);
      assert !IsBlank(s);
      s[i..j]
  }
}
