/**
 * The part of JavaScript's `String.prototype.trim` that the chat client relies
 * on: `x.trim()` removes leading and trailing white space, and the result is
 * used as a condition, so it is true exactly when something other than white
 * space remains.
 */
module JsStrings {

  /**
   * The ECMAScript WhiteSpace and LineTerminator code points, the characters
   * `trim` removes: TAB, LF, VT, FF, CR, SPACE, NO-BREAK SPACE, OGHAM SPACE
   * MARK, the spaces U+2000 to U+200A, LINE and PARAGRAPH SEPARATOR, NARROW
   * NO-BREAK SPACE, MEDIUM MATHEMATICAL SPACE, IDEOGRAPHIC SPACE and the
   * byte-order mark U+FEFF.
   */
  predicate IsWhitespace(c: char) {
    if c <= '\U{00A0}' then
      ('\t' <= c <= '\r') || c == ' ' || c == '\U{00A0}'
    else
      || c == '\U{1680}' || ('\U{2000}' <= c <= '\U{200A}') || c == '\U{2028}' || c == '\U{2029}'
      || c == '\U{202F}' || c == '\U{205F}' || c == '\U{3000}' || c == '\U{FEFF}'
  }

  /** Every character of `s` from index `lo` up to (not including) `hi` is white space. */
  ghost predicate BlankBetween(s: string, lo: int, hi: int) {
    forall i :: lo <= i < hi && 0 <= i < |s| ==> IsWhitespace(s[i])
  }

  /** Empty, or white space only. */
  ghost predicate IsBlank(s: string) {
    BlankBetween(s, 0, |s|)
  }

  /** `r` sits at offset `k` in `s`, and everything around it is white space. */
  ghost predicate TrimmedAt(s: string, k: int, r: string) {
    && 0 <= k <= |s| - |r|
    && s[k..k + |r|] == r
    && BlankBetween(s, 0, k)
    && BlankBetween(s, k + |r|, |s|)
  }

  /** The index of the first character at or after `i` that is not white space, or `|s|`. */
  function SkipForward(s: string, i: nat): (k: nat)
    requires i <= |s|
    ensures i <= k <= |s|
    ensures BlankBetween(s, i, k)
    ensures k == |s| || !IsWhitespace(s[k])
    decreases |s| - i
  {
    if i == |s| || !IsWhitespace(s[i]) then i else SkipForward(s, i + 1)
  }

  /** Moving down from `j`, the end of the last character at or above `lo` that is not white space, or `lo`. */
  function SkipBackward(s: string, lo: nat, j: nat): (k: nat)
    requires lo <= j <= |s|
    ensures lo <= k <= j
    ensures BlankBetween(s, k, j)
    ensures k == lo || !IsWhitespace(s[k - 1])
    decreases j
  {
    if j == lo || !IsWhitespace(s[j - 1]) then j else SkipBackward(s, lo, j - 1)
  }

  /**
   * `s.trim()`: the piece of `s` left after removing white space at both ends.
   * It is empty exactly when `s` is blank; otherwise it begins and ends with a
   * character that is not white space.
   */
  function Trim(s: string): (r: string)
    ensures exists k :: TrimmedAt(s, k, r)
    ensures r == [] <==> IsBlank(s)
    ensures r != [] ==> !IsWhitespace(r[0]) && !IsWhitespace(r[|r| - 1])
  {
    var lo := SkipForward(s, 0);
    var hi := SkipBackward(s, lo, |s|);
    assert TrimmedAt(s, lo, s[lo..hi]);
    assert lo < hi ==> s[lo..hi][0] == s[lo] && s[lo..hi][hi - lo - 1] == s[hi - 1];
    s[lo..hi]
  }

  /** Two pieces framed by blank margins that both start on non-white space start at the same offset. */
  lemma SameStart(s: string, k: int, r: string, j: int, t: string)
    requires TrimmedAt(s, k, r) && TrimmedAt(s, j, t)
    requires r != [] && t != [] && !IsWhitespace(r[0]) && !IsWhitespace(t[0])
    ensures k == j
  {
    assert s[k] == s[k..k + |r|][0] && s[j] == s[j..j + |t|][0];
  }

  /** Two pieces framed by blank margins that both end on non-white space end at the same offset. */
  lemma SameEnd(s: string, k: int, r: string, j: int, t: string)
    requires TrimmedAt(s, k, r) && TrimmedAt(s, j, t)
    requires r != [] && t != [] && !IsWhitespace(r[|r| - 1]) && !IsWhitespace(t[|t| - 1])
    ensures k + |r| == j + |t|
  {
    assert s[k + |r| - 1] == s[k..k + |r|][|r| - 1] && s[j + |t| - 1] == s[j..j + |t|][|t| - 1];
  }

  /**
   * `Trim` is the only such piece: any `r` that sits in `s` between blank
   * margins and is empty or has non-white-space ends is `s.trim()`.
   */
  lemma TrimUnique(s: string, k: int, r: string)
    requires TrimmedAt(s, k, r)
    requires r == [] || (!IsWhitespace(r[0]) && !IsWhitespace(r[|r| - 1]))
    ensures r == Trim(s)
  {
    if r != [] {
      assert s[k] == s[k..k + |r|][0];
      var t := Trim(s);
      var j :| TrimmedAt(s, j, t);
      SameStart(s, k, r, j, t);
      SameEnd(s, k, r, j, t);
    }
  }

  /** The condition `if (x.trim())`: a JavaScript string is truthy when non-empty. */
  predicate HasContent(s: string)
    ensures HasContent(s) <==> !IsBlank(s)
  {
    Trim(s) != []
  }
}
