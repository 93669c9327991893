/**
 * Whitespace trimming as Rust's `str::trim` performs it: leading and trailing
 * characters with the Unicode White_Space property are removed, nothing else.
 */
module Text {

  /** Rust's `char::is_whitespace`: the Unicode White_Space property. */
  predicate IsWhitespace(c: char)
  {
    || ('\t' <= c <= '\r')          // U+0009 .. U+000D
    || c == ' '
    || c == '\U{0085}'
    || c == '\U{00A0}'
    || c == '\U{1680}'
    || ('\U{2000}' <= c <= '\U{200A}')
    || c == '\U{2028}'
    || c == '\U{2029}'
    || c == '\U{202F}'
    || c == '\U{205F}'
    || c == '\U{3000}'
  }

  /** Every character of `s` from index `i` up to `j` is whitespace. */
  predicate BlankBetween(s: string, i: nat, j: nat)
    requires i <= j <= |s|
  {
    forall n :: i <= n < j ==> IsWhitespace(s[n])
  }

  /** Every character of `s` is whitespace (so the empty string is blank). */
  predicate IsBlank(s: string)
  {
    BlankBetween(s, 0, |s|)
  }

  /** The index of the first non-whitespace character of `s` at or after `i`, or `|s|`. */
  function SkipForward(s: string, i: nat): (k: nat)
    requires i <= |s|
    ensures i <= k <= |s| && BlankBetween(s, i, k)
    ensures k < |s| ==> !IsWhitespace(s[k])
    decreases |s| - i
  {
    if i < |s| && IsWhitespace(s[i]) then SkipForward(s, i + 1) else i
  }

  /**
   * The index just past the last non-whitespace character of `s` below `j`
   * and at or after `lo`, or `lo` when there is none.
   */
  function SkipBackward(s: string, lo: nat, j: nat): (e: nat)
    requires lo <= j <= |s|
    ensures lo <= e <= j && BlankBetween(s, e, j)
    ensures lo < e ==> !IsWhitespace(s[e - 1])
    decreases j
  {
    if lo < j && IsWhitespace(s[j - 1]) then SkipBackward(s, lo, j - 1) else j
  }

  /**
   * Rust's `str::trim`. The result is the slice of `s` that starts after the
   * leading whitespace, starts and ends with a non-whitespace character and
   * has only whitespace after it; it is empty exactly when `s` is blank.
   */
  function Trim(s: string): (r: string)
    ensures var k := SkipForward(s, 0);
      && k + |r| <= |s| && r == s[k..k + |r|]
      && BlankBetween(s, 0, k) && BlankBetween(s, k + |r|, |s|)
    ensures r != [] ==> !IsWhitespace(r[0]) && !IsWhitespace(r[|r| - 1])
    ensures r == [] <==> IsBlank(s)
  {
    var k := SkipForward(s, 0);
    var e := SkipBackward(s, k, |s|);
    assert e == k ==> IsBlank(s);
    assert k < e ==> s[k..e][0] == s[k] && s[k..e][e - k - 1] == s[e - 1];
    s[k..e]
  }
}
