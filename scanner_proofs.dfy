/** Soundness and completeness of the coordinate scanner: what `MatchAt`
    finds is a greedy match of the pattern, every match is found, and
    `FirstMatch` reports exactly the match `String.prototype.match` reports. */
module ScannerProofs {
  import opened Wrappers
  import opened JsText
  import opened CoordPattern

  /** `DigitRunEnd` passes digits only, and stops at the first non-digit. */
  lemma {:induction false} DigitRunEndStops(s: string, p: nat)
    requires p <= |s|
    ensures forall k :: p <= k < DigitRunEnd(s, p) ==> IsDigit(s[k])
    ensures DigitRunEnd(s, p) == |s| || !IsDigit(s[DigitRunEnd(s, p)])
    decreases |s| - p
  {
    if p < |s| && IsDigit(s[p]) {
      DigitRunEndStops(s, p + 1);
    }
  }

  /** What `ScanDecimal` finds is a number of the pattern's form, and no
      digit follows it. */
  lemma ScanDecimalSound(s: string, lo: nat, maxInt: nat)
    requires lo <= |s|
    ensures var r := ScanDecimal(s, lo, maxInt);
      r.Some? ==> DecimalAt(s, lo, r.value.0, r.value.1, maxInt) && (r.value.1 == |s| || !IsDigit(s[r.value.1]))
  {
    var digitsLo := if lo < |s| && s[lo] == '-' then lo + 1 else lo;
    DigitRunEndStops(s, digitsLo);
    var dot := DigitRunEnd(s, digitsLo);
    if dot < |s| {
      DigitRunEndStops(s, dot + 1);
    }
  }

  /** The scanner is sound: what it finds at `i` is a greedy match of the
      pattern that starts at `i`. */
  lemma MatchAtSound(s: string, i: nat)
    requires i <= |s|
    ensures MatchAt(s, i).Some? ==>
      MatchAt(s, i).value.start == i && Shape(s, MatchAt(s, i).value) && Greedy(s, MatchAt(s, i).value)
  {
    if MatchAt(s, i).Some? {
      var m := MatchAt(s, i).value;
      ScanDecimalSound(s, i, 2);
      SkipSpaceStops(s, m.comma + 1);
      ScanDecimalSound(s, m.lngLo, 3);
      assert DecimalAt(s, m.lngLo, m.lngDot, m.end, 3);
    }
  }

  /** A digit run that stops where the digits stop is the run `DigitRunEnd` finds. */
  lemma {:induction false} DigitRunEndIs(s: string, p: nat, x: nat)
    requires p <= x <= |s|
    requires forall k :: p <= k < x ==> IsDigit(s[k])
    requires x == |s| || !IsDigit(s[x])
    ensures DigitRunEnd(s, p) == x
    decreases x - p
  {
    if p < x {
      DigitRunEndIs(s, p + 1, x);
    }
  }

  /** A digit run is no longer than the one `DigitRunEnd` finds. */
  lemma {:induction false} DigitRunEndAtLeast(s: string, p: nat, x: nat)
    requires p <= x <= |s|
    requires forall k :: p <= k < x ==> IsDigit(s[k])
    ensures x <= DigitRunEnd(s, p)
    decreases x - p
  {
    if p < x {
      DigitRunEndAtLeast(s, p + 1, x);
    }
  }

  /** A white-space run that stops where the white space stops is the run
      `SkipSpace` skips. */
  lemma {:induction false} SkipSpaceIs(s: string, p: nat, x: nat)
    requires p <= x <= |s|
    requires forall k :: p <= k < x ==> IsSpace(s[k])
    requires x == |s| || !IsSpace(s[x])
    ensures SkipSpace(s, p) == x
    decreases x - p
  {
    if p < x {
      SkipSpaceIs(s, p + 1, x);
    }
  }

  /** Wherever a number of the pattern's form starts, `ScanDecimal` finds it,
      with the same point and an end at least as far. */
  lemma ScanDecimalComplete(s: string, lo: nat, dot: nat, hi: nat, maxInt: nat)
    requires DecimalAt(s, lo, dot, hi, maxInt)
    ensures ScanDecimal(s, lo, maxInt).Some?
    ensures ScanDecimal(s, lo, maxInt).value.0 == dot
    ensures hi <= ScanDecimal(s, lo, maxInt).value.1
    ensures hi == |s| || !IsDigit(s[hi]) ==> ScanDecimal(s, lo, maxInt).value.1 == hi
  {
    var digitsLo := if s[lo] == '-' then lo + 1 else lo;
    DigitRunEndIs(s, digitsLo, dot);
    DigitRunEndAtLeast(s, dot + 1, hi);
    if hi == |s| || !IsDigit(s[hi]) {
      DigitRunEndIs(s, dot + 1, hi);
    }
  }

  /** `MatchAt` assembled from its three scans. */
  lemma MatchAtIs(s: string, i: nat, latDot: nat, comma: nat, lngLo: nat, lngDot: nat, end: nat)
    requires i <= |s| && ScanDecimal(s, i, 2) == Some((latDot, comma))
    requires comma < |s| && s[comma] == ','
    requires SkipSpace(s, comma + 1) == lngLo
    requires ScanDecimal(s, lngLo, 3) == Some((lngDot, end))
    ensures MatchAt(s, i) == Some(Match(i, latDot, comma, lngLo, lngDot, end))
  {
  }

  /** In a match, the latitude is exactly what `ScanDecimal` finds at its start. */
  lemma LatitudeScanned(s: string, m: Match)
    requires Shape(s, m)
    ensures ScanDecimal(s, m.start, 2) == Some((m.latDot, m.comma))
  {
    ScanDecimalComplete(s, m.start, m.latDot, m.comma, 2);
  }

  /** In a match, `\s*` runs from after the comma up to the longitude. */
  lemma SpacesSkipped(s: string, m: Match)
    requires Shape(s, m)
    ensures SkipSpace(s, m.comma + 1) == m.lngLo
  {
    assert !IsSpace(s[m.lngLo]) by {
      assert s[m.lngLo] == '-' || IsDigit(s[m.lngLo]);
    }
    SkipSpaceIs(s, m.comma + 1, m.lngLo);
  }

  /** The scanner misses no match: wherever the pattern matches, `MatchAt`
      finds a match, and it is the greedy one. */
  lemma MatchAtComplete(s: string, m: Match)
    requires Shape(s, m)
    ensures MatchAt(s, m.start).Some?
    ensures m.end <= MatchAt(s, m.start).value.end
    ensures Greedy(s, m) ==> MatchAt(s, m.start) == Some(m)
  {
    LatitudeScanned(s, m);
    SpacesSkipped(s, m);
    ScanDecimalComplete(s, m.lngLo, m.lngDot, m.end, 3);
    var (lngDot, end) := ScanDecimal(s, m.lngLo, 3).value;
    MatchAtIs(s, m.start, m.latDot, m.comma, m.lngLo, lngDot, end);
  }

  /** The scanner found nothing at any index it moved past. */
  lemma {:induction false} FirstMatchSkipsOnlyMisses(s: string, from: nat, j: nat)
    requires from <= j <= |s|
    requires FirstMatch(s, from).None? || j < FirstMatch(s, from).value.start
    ensures MatchAt(s, j).None?
    decreases j - from
  {
    MatchAtSound(s, from);
    if from < j {
      FirstMatchSkipsOnlyMisses(s, from + 1, j);
    }
  }

  /** The scanner moves past an index where `MatchAt` fails. */
  lemma FirstMatchStep(s: string, from: nat)
    requires from < |s| && MatchAt(s, from).None?
    ensures FirstMatch(s, from) == FirstMatch(s, from + 1)
  {
  }

  /** The scanner stops at an index where `MatchAt` succeeds. */
  lemma FirstMatchHere(s: string, i: nat)
    requires i <= |s| && MatchAt(s, i).Some?
    ensures FirstMatch(s, i) == MatchAt(s, i)
  {
  }

  /** The scanner reports what `MatchAt` finds at the index where it stops. */
  lemma {:induction false} FirstMatchFound(s: string, from: nat)
    requires from <= |s|
    ensures FirstMatch(s, from).Some? ==> MatchAt(s, FirstMatch(s, from).value.start) == FirstMatch(s, from)
    decreases |s| - from
  {
    if MatchAt(s, from).Some? {
      FirstMatchHere(s, from);
    } else if from < |s| {
      FirstMatchStep(s, from);
      FirstMatchFound(s, from + 1);
    }
  }

  /** The match the scanner reports is a greedy match of the pattern. */
  lemma FirstMatchSound(s: string, from: nat)
    requires from <= |s|
    ensures FirstMatch(s, from).Some? ==> Shape(s, FirstMatch(s, from).value) && Greedy(s, FirstMatch(s, from).value)
  {
    if FirstMatch(s, from).Some? {
      FirstMatchFound(s, from);
      MatchAtSound(s, FirstMatch(s, from).value.start);
    }
  }

  /** Where the pattern matches, the scanner finds a match at that index. */
  lemma MatchesAtFound(s: string, i: nat)
    requires MatchesAt(s, i)
    ensures i <= |s| && MatchAt(s, i).Some?
  {
    var m: Match :| m.start == i && Shape(s, m);
    MatchAtComplete(s, m);
  }

  /** Wherever the pattern matches, the scanner stops there or earlier. */
  lemma FirstMatchReaches(s: string, i: nat)
    requires MatchesAt(s, i)
    ensures FirstMatch(s, 0).Some? && FirstMatch(s, 0).value.start <= i
  {
    MatchesAtFound(s, i);
    var r := FirstMatch(s, 0);
    if r.None? || i < r.value.start {
      FirstMatchSkipsOnlyMisses(s, 0, i);
    }
  }

  /** Before the index where the scanner stops, the pattern matches nowhere. */
  lemma FirstMatchPassesNoMatch(s: string, j: nat)
    requires FirstMatch(s, 0).Some? && j < FirstMatch(s, 0).value.start
    ensures !MatchesAt(s, j)
  {
    FirstMatchSkipsOnlyMisses(s, 0, j);
    if MatchesAt(s, j) {
      MatchesAtFound(s, j);
    }
  }

  /** The match the scanner reports is a leftmost greedy match. */
  lemma FoundIsLeftmost(s: string)
    requires FirstMatch(s, 0).Some?
    ensures LeftmostMatch(s, FirstMatch(s, 0).value)
  {
    var m := FirstMatch(s, 0).value;
    FirstMatchSound(s, 0);
    forall j: nat | j < m.start ensures !MatchesAt(s, j) {
      FirstMatchPassesNoMatch(s, j);
    }
  }

  /** The leftmost greedy match is the one the scanner reports. */
  lemma LeftmostIsFound(s: string, m: Match)
    requires LeftmostMatch(s, m)
    ensures FirstMatch(s, 0) == Some(m)
  {
    LeftmostStart(s, m);
    FirstMatchFound(s, 0);
    MatchAtComplete(s, m);
  }

  /** The scanner stops at the start of the leftmost match. */
  lemma LeftmostStart(s: string, m: Match)
    requires LeftmostMatch(s, m)
    ensures FirstMatch(s, 0).Some? && FirstMatch(s, 0).value.start == m.start
  {
    assert MatchesAt(s, m.start);
    FirstMatchReaches(s, m.start);
    FirstMatchSound(s, 0);
    assert MatchesAt(s, FirstMatch(s, 0).value.start);
  }

  /** `s.match(pattern)`: the scanner reports exactly the leftmost greedy
      match, and reports none only when the pattern matches nowhere. */
  lemma FirstMatchIsLeftmost(s: string)
    ensures forall m :: FirstMatch(s, 0) == Some(m) <==> LeftmostMatch(s, m)
    ensures FirstMatch(s, 0).None? <==> forall i: nat :: !MatchesAt(s, i)
  {
    forall i: nat | MatchesAt(s, i) ensures FirstMatch(s, 0).Some? {
      FirstMatchReaches(s, i);
    }
    if FirstMatch(s, 0).Some? {
      FoundIsLeftmost(s);
      assert MatchesAt(s, FirstMatch(s, 0).value.start);
    }
    forall m | LeftmostMatch(s, m) ensures FirstMatch(s, 0) == Some(m) {
      LeftmostIsFound(s, m);
    }
  }
}
