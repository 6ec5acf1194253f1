/** Python's argument-less `str.strip()`, used to compare an answer option
    with the correct answer. */
module Whitespace {

  /** The characters for which Python's `str.isspace()` holds. */
  predicate IsSpace(c: char) {
    || '\t' <= c <= '\r'
    || '\U{001C}' <= c <= ' '
    || c == '\U{0085}' || c == '\U{00A0}' || c == '\U{1680}'
    || '\U{2000}' <= c <= '\U{200A}'
    || c == '\U{2028}' || c == '\U{2029}' || c == '\U{202F}' || c == '\U{205F}' || c == '\U{3000}'
  }

  predicate AllSpace(s: string) {
    forall i :: 0 <= i < |s| ==> IsSpace(s[i])
  }

  /** A string that `strip` leaves as it is: empty, or starting and ending with a non-space. */
  predicate IsTrimmed(s: string) {
    s == [] || (!IsSpace(s[0]) && !IsSpace(s[|s| - 1]))
  }

  /** The length of the longest all-space prefix of `s`. */
  function LeadingSpaces(s: string): (k: nat)
    ensures k <= |s|
    ensures AllSpace(s[..k])
    ensures k < |s| ==> !IsSpace(s[k])
  {
    if s == [] || !IsSpace(s[0]) then 0 else 1 + LeadingSpaces(s[1..])
  }

  /** The length of the longest all-space suffix of `s`. */
  function TrailingSpaces(s: string): (k: nat)
    ensures k <= |s|
    ensures AllSpace(s[|s| - k..])
    ensures k < |s| ==> !IsSpace(s[|s| - 1 - k])
  {
    if s == [] || !IsSpace(s[|s| - 1]) then 0 else 1 + TrailingSpaces(s[..|s| - 1])
  }

  /** `s.strip()`: drop the leading spaces, then the trailing spaces of what is left. */
  function Strip(s: string): (r: string)
    ensures |r| <= |s|
    ensures IsTrimmed(r)
    ensures r == [] <==> AllSpace(s)
  {
    var k := LeadingSpaces(s);
    var t := s[k..];
    AllSpaceSplit(s, k);
    AllSpaceIffNoTrim(t);
    t[..|t| - TrailingSpaces(t)]
  }

  /** A string is all spaces exactly when both parts of any split of it are. */
  lemma AllSpaceSplit(s: string, k: nat)
    requires k <= |s|
    ensures AllSpace(s) <==> AllSpace(s[..k]) && AllSpace(s[k..])
  {
    if AllSpace(s[..k]) && AllSpace(s[k..]) {
      forall i | 0 <= i < |s| ensures IsSpace(s[i]) {
        if i < k { assert s[i] == s[..k][i]; } else { assert s[i] == s[k..][i - k]; }
      }
    }
  }

  /** The trailing spaces cover the whole string exactly when it is all spaces. */
  lemma AllSpaceIffNoTrim(t: string)
    ensures AllSpace(t) <==> TrailingSpaces(t) == |t|
  {
    assert t[|t| - |t|..] == t;
  }

  /** `strip` removes only spaces, from both ends, and leaves a trimmed string. */
  lemma StripShape(s: string)
    ensures IsTrimmed(Strip(s))
    ensures exists a, b :: 0 <= a <= b <= |s| && Strip(s) == s[a..b] && AllSpace(s[..a]) && AllSpace(s[b..])
  {
    var a := LeadingSpaces(s);
    var t := s[a..];
    var b := a + |t| - TrailingSpaces(t);
    assert Strip(s) == s[a..b];
    assert s[b..] == t[|t| - TrailingSpaces(t)..];
  }

  /** `strip` is determined by the decomposition space + trimmed core + space:
      whatever the padding, the core comes out. */
  lemma StripUnique(p: string, m: string, q: string)
    requires AllSpace(p) && AllSpace(q) && IsTrimmed(m)
    ensures Strip(p + m + q) == m
  {
    var s := p + m + q;
    if m == [] {
      assert AllSpace(s);
      assert LeadingSpaces(s) == |s|;
    } else {
      assert s[|p|] == m[0];
      assert s[..|p|] == p;
      assert LeadingSpaces(s) == |p|;
      var t := s[|p|..];
      assert t == m + q;
      assert t[|m| - 1] == m[|m| - 1];
      assert t[|m|..] == q;
      assert TrailingSpaces(t) == |q|;
      assert t[..|m|] == m;
    }
  }

  /** Stripping twice is stripping once. */
  lemma StripIdempotent(s: string)
    ensures Strip(Strip(s)) == Strip(s)
  {
    StripShape(s);
    var m := Strip(s);
    assert m == [] + m + [];
    StripUnique([], m, []);
  }
}
