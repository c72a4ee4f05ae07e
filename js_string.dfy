/**
 * The two JavaScript string operations the screens rely on: `trim()` (which
 * strips ECMAScript white space and line terminators from both ends) and
 * truthiness (`!s` holds only for the empty string).
 */
module JsString {

  /** ECMAScript WhiteSpace and LineTerminator code points, the set `trim()` strips. */
  predicate IsJsSpace(c: char) {
    c == '\t' || c == '\n' || c == '\U{000B}' || c == '\U{000C}' || c == '\r' || c == ' '
    || c == '\U{00A0}' || c == '\U{1680}' || ('\U{2000}' <= c <= '\U{200A}')
    || c == '\U{2028}' || c == '\U{2029}' || c == '\U{202F}' || c == '\U{205F}'
    || c == '\U{3000}' || c == '\U{FEFF}'
  }

  /** The number of white-space characters at the front of `s`. */
  function LeadingSpaces(s: string): (k: nat)
    ensures k <= |s|
    ensures forall i :: 0 <= i < k ==> IsJsSpace(s[i])
    ensures k < |s| ==> !IsJsSpace(s[k])
  {
    if |s| > 0 && IsJsSpace(s[0]) then 1 + LeadingSpaces(s[1..]) else 0
  }

  /** The number of white-space characters at the back of `s`. */
  function TrailingSpaces(s: string): (k: nat)
    ensures k <= |s|
    ensures forall i :: |s| - k <= i < |s| ==> IsJsSpace(s[i])
    ensures k < |s| ==> !IsJsSpace(s[|s| - 1 - k])
  {
    if |s| > 0 && IsJsSpace(s[|s| - 1]) then 1 + TrailingSpaces(s[..|s| - 1]) else 0
  }

  /** `s.trim()`: the slice of `s` between its leading and its trailing white space. */
  function Trim(s: string): (r: string)
    ensures |r| <= |s|
    ensures r == [] || (!IsJsSpace(r[0]) && !IsJsSpace(r[|r| - 1]))
    ensures exists a, b :: 0 <= a <= b <= |s| && r == s[a..b] && Spaces(s[..a]) && Spaces(s[b..])
  {
    var a := LeadingSpaces(s);
    var t := s[a..];
    var b := a + |t| - TrailingSpaces(t);
    assert Spaces(s[b..]) by {
      forall i | 0 <= i < |s[b..]| ensures IsJsSpace(s[b..][i]) {
        assert s[b..][i] == t[b - a + i];
      }
    }
    assert Spaces(s[..a]);
    assert t[..|t| - TrailingSpaces(t)] == s[a..b];
    t[..|t| - TrailingSpaces(t)]
  }

  /** Every character is white space. */
  predicate Spaces(s: string) {
    forall i :: 0 <= i < |s| ==> IsJsSpace(s[i])
  }

  /** `s.trim() === ""` exactly when every character of `s` is white space. */
  lemma TrimEmptyIffBlank(s: string)
    ensures Trim(s) == "" <==> forall i :: 0 <= i < |s| ==> IsJsSpace(s[i])
  {
    var a := LeadingSpaces(s);
    var t := s[a..];
    if Trim(s) == "" {
      assert TrailingSpaces(t) == |t|;
      assert a == |s|;
    }
  }

  /** Trimming keeps the characters between the first and the last non-space one. */
  lemma TrimKeepsInner(s: string, i: nat)
    requires i < |s| && !IsJsSpace(s[i])
    ensures s[i] in Trim(s)
  {
    var a := LeadingSpaces(s);
    var t := s[a..];
    var b := TrailingSpaces(t);
    assert a <= i;
    assert i - a < |t| - b;
    assert Trim(s)[i - a] == s[i];
  }

  /** A string that neither starts nor ends with white space is its own trim. */
  lemma TrimUnpadded(s: string)
    requires s != [] ==> !IsJsSpace(s[0]) && !IsJsSpace(s[|s| - 1])
    ensures Trim(s) == s
  {
    if s != [] {
      assert LeadingSpaces(s) == 0;
      assert TrailingSpaces(s) == 0;
    }
  }
}
