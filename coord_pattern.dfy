/** The coordinate regular expression of the link parser,
    `(-?\d{1,2}\.\d+),\s*(-?\d{1,3}\.\d+)`, as an explicit scanner, together
    with the exact decimal value of each captured number.

    With JavaScript's backtracking semantics a match that starts at a given
    index is forced at every step but the last: `-?` takes the sign whenever
    one is there (a digit must follow), `\d{1,2}` and `\d{1,3}` must be the
    whole digit run before the point, the fraction `\d+` must run up to the
    comma and `\s*` up to the longitude. Only the final `\d+` has a choice,
    and being greedy it takes every digit. `String.prototype.match` without
    the `g` flag reports the match at the leftmost index that has one. */
module CoordPattern {
  import opened Wrappers
  import opened JsText

  /** Where the parts of one match lie in the scanned text: the latitude is
      `s[start..comma]` with its point at `latDot`, the longitude is
      `s[lngLo..end]` with its point at `lngDot`. */
  datatype Match = Match(start: nat, latDot: nat, comma: nat, lngLo: nat, lngDot: nat, end: nat)

  /** `s[lo..hi]` matches `-?\d{1,maxInt}\.\d+`, with the point at `dot`. */
  predicate DecimalAt(s: string, lo: nat, dot: nat, hi: nat, maxInt: nat) {
    && lo < dot < hi <= |s|
    && var digitsLo := if s[lo] == '-' then lo + 1 else lo;
    && digitsLo < dot <= digitsLo + maxInt
    && (forall k :: digitsLo <= k < dot ==> IsDigit(s[k]))
    && s[dot] == '.'
    && dot + 1 < hi
    && (forall k :: dot < k < hi ==> IsDigit(s[k]))
  }

  /** `s[m.start..m.end]` matches the whole coordinate pattern, split as `m` says. */
  predicate Shape(s: string, m: Match) {
    && DecimalAt(s, m.start, m.latDot, m.comma, 2)
    && m.comma < m.lngLo <= |s|
    && s[m.comma] == ','
    && (forall k :: m.comma < k < m.lngLo ==> IsSpace(s[k]))
    && DecimalAt(s, m.lngLo, m.lngDot, m.end, 3)
  }

  /** The greedy last `\d+` leaves no digit behind. */
  predicate Greedy(s: string, m: Match) {
    m.end <= |s| && (m.end == |s| || !IsDigit(s[m.end]))
  }

  /** The pattern matches some substring that begins at index `i`. */
  ghost predicate MatchesAt(s: string, i: nat) {
    exists m: Match :: m.start == i && Shape(s, m)
  }

  /** The match `String.prototype.match` reports: the greedy match at the
      leftmost index where the pattern matches at all. */
  ghost predicate LeftmostMatch(s: string, m: Match) {
    && Shape(s, m)
    && Greedy(s, m)
    && forall j: nat :: j < m.start ==> !MatchesAt(s, j)
  }

  /** The end of the run of decimal digits that begins at `p` (what the run
      holds is `ScannerProofs.DigitRunEndStops`). */
  function DigitRunEnd(s: string, p: nat): (q: nat)
    requires p <= |s|
    ensures p <= q <= |s|
    decreases |s| - p
  {
    if p < |s| && IsDigit(s[p]) then DigitRunEnd(s, p + 1) else p
  }

  /** The greedy match of `-?\d{1,maxInt}\.\d+` at `lo`, as the pair
      (index of the point, end). */
  function ScanDecimal(s: string, lo: nat, maxInt: nat): (r: Option<(nat, nat)>)
    requires lo <= |s|
    ensures r.Some? ==> lo < r.value.0 < r.value.1 <= |s| && s[r.value.0] == '.'
  {
    var digitsLo := if lo < |s| && s[lo] == '-' then lo + 1 else lo;
    var dot := DigitRunEnd(s, digitsLo);
    if !(digitsLo < dot <= digitsLo + maxInt && dot < |s| && s[dot] == '.') then None
    else
      var hi := DigitRunEnd(s, dot + 1);
      if hi == dot + 1 then None else Some((dot, hi))
  }

  /** Tries the pattern at index `i` only, as the regular-expression engine
      does before it moves on to `i + 1`. */
  function MatchAt(s: string, i: nat): (r: Option<Match>)
    requires i <= |s|
    ensures r.Some? ==> r.value.start == i
    ensures r.Some? ==> i < r.value.latDot < r.value.comma < r.value.lngLo < r.value.lngDot < r.value.end <= |s|
  {
    var lat := ScanDecimal(s, i, 2);
    if lat.None? || lat.value.1 == |s| || s[lat.value.1] != ',' then None
    else
      var lngLo := SkipSpace(s, lat.value.1 + 1);
      var lng := ScanDecimal(s, lngLo, 3);
      if lng.None? then None
      else Some(Match(i, lat.value.0, lat.value.1, lngLo, lng.value.0, lng.value.1))
  }

  /** The first index at or after `from` where the pattern matches. */
  function FirstMatch(s: string, from: nat): (r: Option<Match>)
    requires from <= |s|
    ensures r.Some? ==> from <= r.value.start <= |s|
    decreases |s| - from
  {
    match MatchAt(s, from)
    case Some(m) => Some(m)
    case None => if from == |s| then None else FirstMatch(s, from + 1)
  }

  /** Decimal digits as a number, most significant first. */
  function DigitsValue(s: string, lo: nat, hi: nat): (n: nat)
    requires lo <= hi <= |s|
    requires forall k :: lo <= k < hi ==> IsDigit(s[k])
    ensures n < Pow10(hi - lo)
    decreases hi - lo
  {
    if lo == hi then 0
    else
      var n := DigitsValue(s, lo, hi - 1) * 10 + DigitValue(s[hi - 1]);
      assert n < Pow10(hi - lo) by {
        assert DigitsValue(s, lo, hi - 1) + 1 <= Pow10(hi - 1 - lo);
      }
      n
  }

  /** The value of one decimal digit. */
  function DigitValue(c: char): (d: nat)
    requires IsDigit(c)
    ensures d < 10
  {
    c as int - '0' as int
  }

  function Pow10(n: nat): (p: nat)
    ensures p >= 1
  {
    if n == 0 then 1 else 10 * Pow10(n - 1)
  }

  lemma Pow10Monotone(a: nat, b: nat)
    requires a <= b
    ensures Pow10(a) <= Pow10(b)
    decreases b
  {
    if a < b { Pow10Monotone(a, b - 1); }
  }

  /** `Number(s[lo..hi])` for a string of the form `-?\d{1,maxInt}\.\d+`,
      computed exactly. Its magnitude is below `10^maxInt`. */
  function DecimalValue(s: string, lo: nat, dot: nat, hi: nat, maxInt: nat): (v: real)
    requires DecimalAt(s, lo, dot, hi, maxInt)
    ensures -(Pow10(maxInt) as real) < v < Pow10(maxInt) as real
    ensures s[lo] == '-' ==> v <= 0.0
    ensures s[lo] != '-' ==> v >= 0.0
  {
    var digitsLo := if s[lo] == '-' then lo + 1 else lo;
    var whole := DigitsValue(s, digitsLo, dot);
    var fracDigits := DigitsValue(s, dot + 1, hi);
    var scale := Pow10(hi - dot - 1);
    var magnitude := whole as real + fracDigits as real / scale as real;
    Pow10Monotone(dot - digitsLo, maxInt);
    FractionBelowOne(fracDigits, scale);
    if s[lo] == '-' then -magnitude else magnitude
  }

  lemma FractionBelowOne(a: nat, b: nat)
    requires a < b
    ensures 0.0 <= a as real / b as real < 1.0
  {
    assert a as real / b as real * b as real == a as real;
  }

  datatype Coords = Coords(latitude: real, longitude: real)

  /** The two captured numbers of a match. */
  function MatchCoords(s: string, m: Match): Coords
    requires Shape(s, m)
  {
    Coords(DecimalValue(s, m.start, m.latDot, m.comma, 2), DecimalValue(s, m.lngLo, m.lngDot, m.end, 3))
  }
}
