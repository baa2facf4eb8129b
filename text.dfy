/**
 * Character-level helpers shared by the label rule and the five instruction
 * patterns of the function detector: the whitespace class, maximal
 * whitespace runs scanned forwards and backwards, literal matching at a
 * position, and Python's `str.strip()`.
 *
 * Whitespace is the ASCII set that both `str.strip()` and the regular
 * expression class `\s` accept: space, tab, line feed, carriage return,
 * vertical tab and form feed.
 */
module Text {

  /** The whitespace class used by `strip()` and by `\s`. */
  predicate IsSpace(c: char) {
    c == ' ' || c == '\t' || c == '\n' || c == '\r' || c == '\U{000B}' || c == '\U{000C}'
  }

  /** Every character of `s` at an index in `[lo, hi)` is whitespace. */
  ghost predicate SpaceRun(s: string, lo: int, hi: int) {
    0 <= lo <= hi <= |s| && forall k :: lo <= k < hi ==> IsSpace(s[k])
  }

  /** No character of `s` at an index in `[lo, hi)` is a line feed. */
  predicate NoNewline(s: string, lo: int, hi: int) {
    0 <= lo <= hi <= |s| && forall k :: lo <= k < hi ==> s[k] != '\n'
  }

  /** The literal `lit` occurs in `s` starting at index `i`. */
  predicate LitAt(s: string, i: int, lit: string) {
    0 <= i && i + |lit| <= |s| && s[i..i + |lit|] == lit
  }

  /**
   * The end of the longest whitespace run of `s` that starts at `i`: what a
   * greedy `\s*` consumes from position `i`.
   */
  function SkipSpaces(s: string, i: nat): (r: nat)
    requires i <= |s|
    ensures i <= r <= |s|
    ensures SpaceRun(s, i, r)
    ensures r < |s| ==> !IsSpace(s[r])
    decreases |s| - i
  {
    if i < |s| && IsSpace(s[i]) then SkipSpaces(s, i + 1) else i
  }

  /** The start of the longest whitespace run of `s` that ends at `j`. */
  function SpaceStart(s: string, j: nat): (r: nat)
    requires j <= |s|
    ensures r <= j
    ensures SpaceRun(s, r, j)
    ensures 0 < r ==> !IsSpace(s[r - 1])
  {
    if 0 < j && IsSpace(s[j - 1]) then SpaceStart(s, j - 1) else j
  }

  /** `lit` occurs at `i` in `s` and its first character is `s[i]`. */
  lemma LitAtHead(s: string, i: int, lit: string)
    requires LitAt(s, i, lit) && |lit| > 0
    ensures i < |s| && s[i] == lit[0]
  {
    assert s[i..i + |lit|][0] == s[i];
  }

  /** A whitespace run from `i` that stops at a non-space (or the end) is the one `SkipSpaces` finds. */
  lemma SkipSpacesAt(s: string, i: nat, k: int)
    requires i <= |s|
    requires SpaceRun(s, i, k)
    requires k < |s| ==> !IsSpace(s[k])
    ensures SkipSpaces(s, i) == k
  {
  }

  /**
   * `s` with leading and trailing whitespace removed, as `str.strip()`
   * with no argument. The result is the slice of `s` left over once both
   * maximal whitespace runs are dropped.
   */
  function Strip(s: string): (r: string)
    ensures |r| > 0 ==> !IsSpace(r[0]) && !IsSpace(r[|r| - 1])
    ensures exists lo :: StrippedAt(s, lo, r)
  {
    var lo := SkipSpaces(s, 0);
    if lo == |s| then
      assert StrippedAt(s, lo, []);
      []
    else
      var hi := SpaceStart(s, |s|);
      assert s[lo] == s[lo];
      assert StrippedAt(s, lo, s[lo..hi]);
      s[lo..hi]
  }

  /** `r` sits at index `lo` of `s`, with only whitespace before and after it. */
  ghost predicate StrippedAt(s: string, lo: int, r: string) {
    0 <= lo && lo + |r| <= |s| && s[lo..lo + |r|] == r
    && SpaceRun(s, 0, lo) && SpaceRun(s, lo + |r|, |s|)
  }
}
