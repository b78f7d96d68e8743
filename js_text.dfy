/** The pieces of JavaScript string behaviour the link parser relies on:
    the `\d` and `\s` character classes, `String.prototype.trim`,
    `startsWith` and `split(",")[0]`. */
module JsText {

  /** The regular-expression class `\d`: ASCII decimal digits only. */
  predicate IsDigit(c: char) {
    '0' <= c <= '9'
  }

  /** White space as ECMAScript defines it for both `\s` and `trim`:
      the WhiteSpace and LineTerminator code points. */
  predicate IsSpace(c: char) {
    || c == '\t' || c == '\n' || c == '\U{B}' || c == '\U{C}' || c == '\r'
    || c == ' ' || c == '\U{A0}' || c == '\U{1680}'
    || ('\U{2000}' <= c <= '\U{200A}')
    || c == '\U{2028}' || c == '\U{2029}' || c == '\U{202F}' || c == '\U{205F}'
    || c == '\U{3000}' || c == '\U{FEFF}'
  }

  /** `s[lo..hi]` is all white space. */
  predicate SpaceBetween(s: string, lo: nat, hi: nat)
    requires lo <= hi <= |s|
  {
    forall k :: lo <= k < hi ==> IsSpace(s[k])
  }

  predicate AllSpace(s: string) {
    SpaceBetween(s, 0, |s|)
  }

  /** `s.startsWith(prefix)` */
  predicate StartsWith(s: string, prefix: string) {
    |prefix| <= |s| && s[..|prefix|] == prefix
  }

  /** The first index at or after `i` that does not hold white space. */
  function SkipSpace(s: string, i: nat): (j: nat)
    requires i <= |s|
    ensures i <= j <= |s|
    decreases |s| - i
  {
    if i < |s| && IsSpace(s[i]) then SkipSpace(s, i + 1) else i
  }

  /** `SkipSpace` passes white space only, and stops at the first other
      character. */
  lemma {:induction false} SkipSpaceStops(s: string, i: nat)
    requires i <= |s|
    ensures SpaceBetween(s, i, SkipSpace(s, i))
    ensures SkipSpace(s, i) < |s| ==> !IsSpace(s[SkipSpace(s, i)])
    decreases |s| - i
  {
    if i < |s| && IsSpace(s[i]) {
      SkipSpaceStops(s, i + 1);
    }
  }

  /** The smallest `b` in `lo..j` such that `s[b..j]` is all white space. */
  function SkipSpaceBack(s: string, lo: nat, j: nat): (b: nat)
    requires lo <= j <= |s|
    ensures lo <= b <= j
    ensures forall k :: b <= k < j ==> IsSpace(s[k])
    ensures lo < b ==> !IsSpace(s[b - 1])
    decreases j - lo
  {
    if lo < j && IsSpace(s[j - 1]) then SkipSpaceBack(s, lo, j - 1) else j
  }

  /** `s.trim()`: `s` without its leading and trailing white space. */
  function Trim(s: string): (r: string)
    ensures |r| > 0 ==> !IsSpace(r[0]) && !IsSpace(r[|r| - 1])
    ensures r == [] <==> AllSpace(s)
    ensures exists a :: 0 <= a <= |s| - |r| && s[a..a + |r|] == r && SpaceBetween(s, 0, a) && SpaceBetween(s, a + |r|, |s|)
  {
    var a := SkipSpace(s, 0);
    SkipSpaceStops(s, 0);
    var b := SkipSpaceBack(s, a, |s|);
    assert SpaceBetween(s, 0, a) && SpaceBetween(s, a + |s[a..b]|, |s|);
    s[a..b]
  }

  /** Trimming is determined by where the content begins and ends: any split
      of `s` into a white-space prefix, a middle that neither begins nor ends
      with white space, and a white-space suffix gives `Trim(s)` as its middle. */
  lemma TrimIsContent(s: string, a: nat, b: nat)
    requires a <= b <= |s|
    requires SpaceBetween(s, 0, a) && SpaceBetween(s, b, |s|)
    requires a < b ==> !IsSpace(s[a]) && !IsSpace(s[b - 1])
    ensures Trim(s) == s[a..b]
  {
    var r := Trim(s);
    var a' :| 0 <= a' <= |s| - |r| && s[a'..a' + |r|] == r && SpaceBetween(s, 0, a') && SpaceBetween(s, a' + |r|, |s|);
    if a < b {
      assert r != [];
      assert s[a'] == r[0] && s[a' + |r| - 1] == r[|r| - 1];
    }
  }

  /** Trimming twice is trimming once: the pipeline trims the shared text and
      the parser trims it again, with no further effect. */
  lemma TrimIdempotent(s: string)
    ensures Trim(Trim(s)) == Trim(s)
  {
    var r := Trim(s);
    TrimIsContent(r, 0, |r|);
  }

  /** `s.split(",")[0]`: the text before the first comma, or all of `s`. */
  function BeforeFirstComma(s: string): (r: string)
    ensures StartsWith(s, r)
    ensures ',' !in r
    ensures |r| < |s| ==> s[|r|] == ','
  {
    if s == [] || s[0] == ',' then [] else [s[0]] + BeforeFirstComma(s[1..])
  }
}
