/**
 * JavaScript's `String.prototype.trim`, which the scan form uses to reject
 * blank input: it removes white space and line terminators from both ends.
 */
module JsText {

  /** The characters ECMAScript counts as WhiteSpace or LineTerminator. */
  predicate IsJsWhitespace(c: char) {
    || c == '\U{0009}' || c == '\U{000A}' || c == '\U{000B}' || c == '\U{000C}' || c == '\U{000D}'
    || c == '\U{0020}' || c == '\U{00A0}' || c == '\U{1680}'
    || ('\U{2000}' <= c <= '\U{200A}')
    || c == '\U{2028}' || c == '\U{2029}' || c == '\U{202F}' || c == '\U{205F}'
    || c == '\U{3000}' || c == '\U{FEFF}'
  }

  /** Every character of `s` at positions `lo` to `hi - 1` is white space. */
  predicate BlankBetween(s: string, lo: int, hi: int)
    requires 0 <= lo && hi <= |s|
  {
    forall i :: lo <= i < hi ==> IsJsWhitespace(s[i])
  }

  /** Every character of `s` is white space (the empty string included). */
  predicate IsBlank(s: string) {
    BlankBetween(s, 0, |s|)
  }

  /** The first position at or after `lo` that is not white space, or `|s|`. */
  function SkipLeading(s: string, lo: nat): (k: nat)
    requires lo <= |s|
    ensures lo <= k <= |s|
    ensures BlankBetween(s, lo, k)
    ensures k < |s| ==> !IsJsWhitespace(s[k])
    decreases |s| - lo
  {
    if lo < |s| && IsJsWhitespace(s[lo]) then SkipLeading(s, lo + 1) else lo
  }

  /** The end of `s[lo..hi]` once its trailing white space is dropped. */
  function SkipTrailing(s: string, lo: nat, hi: nat): (e: nat)
    requires lo <= hi <= |s|
    ensures lo <= e <= hi
    ensures BlankBetween(s, e, hi)
    ensures lo < e ==> !IsJsWhitespace(s[e - 1])
    decreases hi
  {
    if lo < hi && IsJsWhitespace(s[hi - 1]) then SkipTrailing(s, lo, hi - 1) else hi
  }

  /**
   * `s.trim()`: the middle of `s` between an all-white-space prefix and suffix,
   * starting and ending with a non-white-space character. It is empty exactly
   * when `s` is blank.
   */
  function Trim(s: string): (r: string)
    ensures r == [] <==> IsBlank(s)
    ensures r != [] ==> !IsJsWhitespace(r[0]) && !IsJsWhitespace(r[|r| - 1])
    ensures exists k :: (0 <= k <= |s| - |r| && r == s[k..k + |r|]
                         && BlankBetween(s, 0, k) && BlankBetween(s, k + |r|, |s|))
  {
    var k := SkipLeading(s, 0);
    var e := SkipTrailing(s, k, |s|);
    assert k < |s| ==> k < e;
    s[k..e]
  }
}
