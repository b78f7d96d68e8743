/** The parser on concrete links. Where a link has to be parsed as a URL, the
    lemma takes the record the URL Standard gives for it as a hypothesis. */
module ParserExamples {
  import opened Wrappers
  import opened JsText
  import opened WebUrl
  import opened CoordPattern
  import opened ScannerProofs
  import opened LocationTypes
  import opened Parser

  /** No match starts at a character that can neither sign nor begin a number. */
  lemma NoMatchAtNonNumber(s: string, i: nat)
    requires i < |s| && s[i] != '-' && !IsDigit(s[i])
    ensures MatchAt(s, i).None?
  {
    assert DigitRunEnd(s, i) == i;
  }

  /** The scanner skips text in which no number begins. */
  lemma {:induction false} SkipToFirstNumber(s: string, from: nat, i: nat)
    requires from <= i <= |s|
    requires forall k :: from <= k < i ==> s[k] != '-' && !IsDigit(s[k])
    ensures FirstMatch(s, from) == FirstMatch(s, i)
    decreases i - from
  {
    if from < i {
      NoMatchAtNonNumber(s, from);
      FirstMatchStep(s, from);
      SkipToFirstNumber(s, from + 1, i);
    }
  }

  /** A greedy match preceded only by characters that cannot begin a number
      is the first match. */
  lemma FirstMatchAfterText(s: string, m: Match)
    requires Shape(s, m) && Greedy(s, m)
    requires forall k :: 0 <= k < m.start ==> s[k] != '-' && !IsDigit(s[k])
    ensures FirstMatch(s, 0) == Some(m)
  {
    SkipToFirstNumber(s, 0, m.start);
    MatchAtComplete(s, m);
    FirstMatchHere(s, m.start);
  }

  /** Text with no leading or trailing white space is its own trim. */
  lemma TrimmedAlready(s: string)
    requires |s| > 0 && !IsSpace(s[0]) && !IsSpace(s[|s| - 1])
    ensures Trim(s) == s
  {
    TrimIsContent(s, 0, |s|);
  }

  /** The value of a two-digit run. */
  lemma TwoDigits(s: string, lo: nat)
    requires lo + 2 <= |s| && IsDigit(s[lo]) && IsDigit(s[lo + 1])
    ensures DigitsValue(s, lo, lo + 2) == 10 * DigitValue(s[lo]) + DigitValue(s[lo + 1])
  {
    assert DigitsValue(s, lo, lo + 1) == DigitValue(s[lo]);
  }

  /** The value of a three-digit run. */
  lemma ThreeDigits(s: string, lo: nat)
    requires lo + 3 <= |s| && IsDigit(s[lo]) && IsDigit(s[lo + 1]) && IsDigit(s[lo + 2])
    ensures DigitsValue(s, lo, lo + 3) == 100 * DigitValue(s[lo]) + 10 * DigitValue(s[lo + 1]) + DigitValue(s[lo + 2])
  {
    TwoDigits(s, lo);
  }

  /** A number without a sign is its whole part plus its fraction. */
  lemma UnsignedDecimal(s: string, lo: nat, dot: nat, hi: nat, maxInt: nat, whole: nat, frac: nat, v: real)
    requires DecimalAt(s, lo, dot, hi, maxInt) && s[lo] != '-'
    requires DigitsValue(s, lo, dot) == whole && DigitsValue(s, dot + 1, hi) == frac
    requires whole as real + frac as real / Pow10(hi - dot - 1) as real == v
    ensures DecimalValue(s, lo, dot, hi, maxInt) == v
  {
  }

  /** A number with a sign is the negated sum of its whole part and fraction. */
  lemma SignedDecimal(s: string, lo: nat, dot: nat, hi: nat, maxInt: nat, whole: nat, frac: nat, v: real)
    requires DecimalAt(s, lo, dot, hi, maxInt) && s[lo] == '-'
    requires DigitsValue(s, lo + 1, dot) == whole && DigitsValue(s, dot + 1, hi) == frac
    requires -(whole as real + frac as real / Pow10(hi - dot - 1) as real) == v
    ensures DecimalValue(s, lo, dot, hi, maxInt) == v
  {
  }

  /** Only the first match counts: an out-of-range first pair hides a valid
      later one. */
  lemma OutOfRangeFirstMatchHidesLaterOne(s: string)
    requires s == "95.5,1.5 1.5,2.5"
    ensures ParseCoordsFromText(s) == None
  {
    var m := Match(0, 2, 4, 5, 6, 8);
    assert DecimalValue(s, 0, 2, 4, 2) == 95.5 by {
      TwoDigits(s, 0);
      UnsignedDecimal(s, 0, 2, 4, 2, 95, 5, 95.5);
    }
    assert Shape(s, m) && Greedy(s, m) by {
      assert s[8] == ' ';
    }
    FirstMatchAfterText(s, m);
  }

  lemma BoundsValues(s: string)
    requires s == "-90.0,180.0"
    ensures DecimalAt(s, 0, 3, 5, 2) && DecimalValue(s, 0, 3, 5, 2) == -90.0
    ensures DecimalAt(s, 6, 9, 11, 3) && DecimalValue(s, 6, 9, 11, 3) == 180.0
  {
    assert DecimalValue(s, 0, 3, 5, 2) == -90.0 by {
      TwoDigits(s, 1);
      SignedDecimal(s, 0, 3, 5, 2, 90, 0, -90.0);
    }
    ThreeDigits(s, 6);
    UnsignedDecimal(s, 6, 9, 11, 3, 180, 0, 180.0);
  }

  /** The bounds themselves are accepted. */
  lemma BoundsAccepted(s: string)
    requires s == "-90.0,180.0"
    ensures ParseCoordsFromText(s) == Some(Coords(-90.0, 180.0))
  {
    var m := Match(0, 3, 5, 6, 9, 11);
    BoundsValues(s);
    assert Shape(s, m) && Greedy(s, m);
    FirstMatchAfterText(s, m);
  }

  lemma ThreeDigitValues(s: string)
    requires s == "123.5,1.5"
    ensures DecimalAt(s, 1, 3, 5, 2) && DecimalValue(s, 1, 3, 5, 2) == 23.5
    ensures DecimalAt(s, 6, 7, 9, 3) && DecimalValue(s, 6, 7, 9, 3) == 1.5
  {
    assert DecimalValue(s, 1, 3, 5, 2) == 23.5 by {
      TwoDigits(s, 1);
      UnsignedDecimal(s, 1, 3, 5, 2, 23, 5, 23.5);
    }
    UnsignedDecimal(s, 6, 7, 9, 3, 1, 5, 1.5);
  }

  /** A latitude written with three integer digits is not rejected as such:
      no match starts at its first digit, the next index does match, and so
      `123.5,1.5` reads as `23.5, 1.5`. */
  lemma ThreeDigitLatitudeLosesItsFirstDigit(s: string)
    requires s == "123.5,1.5"
    ensures ParseCoordsFromText(s) == Some(Coords(23.5, 1.5))
  {
    var m := Match(1, 3, 5, 6, 7, 9);
    ThreeDigitValues(s);
    assert MatchAt(s, 0).None? by {
      DigitRunEndIs(s, 0, 3);
    }
    FirstMatchStep(s, 0);
    assert Shape(s, m) && Greedy(s, m);
    MatchAtComplete(s, m);
  }

  /** `\s*` lets white space follow the comma. */
  lemma SpaceAfterComma(s: string)
    requires s == "1.5, 2.5"
    ensures ParseCoordsFromText(s) == Some(Coords(1.5, 2.5))
  {
    var m := Match(0, 1, 3, 5, 6, 8);
    assert DecimalValue(s, 0, 1, 3, 2) == 1.5 by {
      UnsignedDecimal(s, 0, 1, 3, 2, 1, 5, 1.5);
    }
    assert DecimalValue(s, 5, 6, 8, 3) == 2.5 by {
      UnsignedDecimal(s, 5, 6, 8, 3, 2, 5, 2.5);
    }
    assert Shape(s, m) && Greedy(s, m);
    FirstMatchAfterText(s, m);
  }

  /** The position in a path such as `/@1.5,2.5,3z`. */
  lemma PathCoords(path: string)
    requires path == "/@1.5,2.5,3z"
    ensures ParseCoordsFromText(path) == Some(Coords(1.5, 2.5))
  {
    var m := Match(2, 3, 5, 6, 7, 9);
    assert DecimalValue(path, 2, 3, 5, 2) == 1.5 by {
      UnsignedDecimal(path, 2, 3, 5, 2, 1, 5, 1.5);
    }
    assert DecimalValue(path, 6, 7, 9, 3) == 2.5 by {
      UnsignedDecimal(path, 6, 7, 9, 3, 2, 5, 2.5);
    }
    assert Shape(path, m) && Greedy(path, m) by {
      assert path[9] == ',';
    }
    FirstMatchAfterText(path, m);
  }

  /** A link whose only position is in its path, such as
      `https://www.google.com/@1.5,2.5,3z`: the label falls back and there is
      no address. */
  lemma PathPosition(parse: UrlParser, raw: string, path: string, url: Url)
    requires path == "/@1.5,2.5,3z" && url == Url("www.google.com", path, [])
    requires parse(Trim(raw)) == Some(url)
    ensures ParseGoogleMapsLink(parse, raw)
         == Ok(ParsedLocation(raw, 1.5, 2.5, Some("Selected destination"), None))
  {
    assert QueryCandidate(url) == "";
    assert ParseCoordsFromText("") == None;
    PathCoords(url.pathname);
    SourcePriority(parse, raw, url);
  }

  /** A name before the position: `Cafe,1.5,2.5`. */
  lemma NamedQueryCoords(q: string)
    requires q == "Cafe,1.5,2.5"
    ensures ParseCoordsFromText(q) == Some(Coords(1.5, 2.5))
  {
    var m := Match(5, 6, 8, 9, 10, 12);
    assert DecimalValue(q, 5, 6, 8, 2) == 1.5 by {
      UnsignedDecimal(q, 5, 6, 8, 2, 1, 5, 1.5);
    }
    assert DecimalValue(q, 9, 10, 12, 3) == 2.5 by {
      UnsignedDecimal(q, 9, 10, 12, 3, 2, 5, 2.5);
    }
    assert Shape(q, m) && Greedy(q, m);
    assert forall k :: 0 <= k < 5 ==> q[k] != '-' && !IsDigit(q[k]) by {
      assert q[0] == 'C' && q[1] == 'a' && q[2] == 'f' && q[3] == 'e' && q[4] == ',';
    }
    FirstMatchAfterText(q, m);
  }

  /** The query of a link that carries only `q`. */
  lemma OnlyQ(url: Url, q: string)
    requires url.searchParams == [("q", q)] && q != ""
    ensures SearchParamGet(url.searchParams, "q") == Some(q)
    ensures QueryCandidate(url) == q
  {
    assert SearchParamGet(url.searchParams, "q") == Some(q);
  }

  /** A link whose `q` carries a name before the position, such as
      `https://maps.google.com/?q=Cafe,1.5,2.5`: the label is the text before
      the first comma and the address is the whole of `q`. */
  lemma NamedQuery(parse: UrlParser, raw: string, q: string, url: Url)
    requires q == "Cafe,1.5,2.5" && url == Url("maps.google.com", "/", [("q", q)])
    requires parse(Trim(raw)) == Some(url)
    ensures ParseGoogleMapsLink(parse, raw) == Ok(ParsedLocation(raw, 1.5, 2.5, Some("Cafe"), Some(q)))
  {
    OnlyQ(url, q);
    assert PlaceName(Some(q)) == "Cafe" by {
      assert q[..4] == "Cafe";
      LabelBeforeComma(q, 4);
    }
    NamedQueryCoords(q);
    SourcePriority(parse, raw, url);
  }

  /** A latitude beyond 90 yields nothing. */
  lemma LatitudeOutOfRange(q: string)
    requires q == "95.5,1.5"
    ensures ParseCoordsFromText(q) == None
  {
    var m := Match(0, 2, 4, 5, 6, 8);
    assert DecimalValue(q, 0, 2, 4, 2) == 95.5 by {
      TwoDigits(q, 0);
      UnsignedDecimal(q, 0, 2, 4, 2, 95, 5, 95.5);
    }
    assert Shape(q, m) && Greedy(q, m);
    FirstMatchAfterText(q, m);
  }

  /** An out-of-range pair in the query falls through to the path, as in
      `https://maps.google.com/@1.5,2.5,3z?q=95.5,1.5`; the label and the
      address still come from the query. */
  lemma QueryOutOfRangeFallsThrough(parse: UrlParser, raw: string, q: string, path: string, url: Url)
    requires q == "95.5,1.5" && path == "/@1.5,2.5,3z" && url == Url("maps.google.com", path, [("q", q)])
    requires parse(Trim(raw)) == Some(url)
    ensures ParseGoogleMapsLink(parse, raw) == Ok(ParsedLocation(raw, 1.5, 2.5, Some("95.5"), Some(q)))
  {
    OnlyQ(url, q);
    assert PlaceName(Some(q)) == "95.5" by {
      assert q[..4] == "95.5";
      LabelBeforeComma(q, 4);
    }
    LatitudeOutOfRange(q);
    PathCoords(path);
    SourcePriority(parse, raw, url);
  }

  /** Text that is not a URL is refused before anything else is looked at. */
  lemma NotAUrl(parse: UrlParser)
    requires parse("not a url") == None
    ensures ParseGoogleMapsLink(parse, "not a url") == Err(InvalidUrl)
  {
    TrimmedAlready("not a url");
  }

  /** A host off the allow-list is refused even when the link holds a valid pair. */
  lemma ForeignHostWithCoordinates(parse: UrlParser)
    requires parse("https://example.com/?q=12.5,77.25")
          == Some(Url("example.com", "/", [("q", "12.5,77.25")]))
    ensures ParseGoogleMapsLink(parse, "https://example.com/?q=12.5,77.25") == Err(NotGoogleMapsUrl)
  {
    TrimmedAlready("https://example.com/?q=12.5,77.25");
  }

  /** The short-link classifier on four sample links. */
  lemma ShortLinkClassification(parse: UrlParser)
    requires parse("https://maps.app.goo.gl/abc123") == Some(Url("maps.app.goo.gl", "/abc123", []))
    requires parse("https://goo.gl/maps/xyz") == Some(Url("goo.gl", "/maps/xyz", []))
    requires parse("https://goo.gl/other") == Some(Url("goo.gl", "/other", []))
    requires parse("https://maps.google.com/?q=1,2") == Some(Url("maps.google.com", "/", [("q", "1,2")]))
    ensures IsLikelyShortLink(parse, "https://maps.app.goo.gl/abc123")
    ensures IsLikelyShortLink(parse, "https://goo.gl/maps/xyz")
    ensures !IsLikelyShortLink(parse, "https://goo.gl/other")
    ensures !IsLikelyShortLink(parse, "https://maps.google.com/?q=1,2")
  {
    TrimmedAlready("https://maps.app.goo.gl/abc123");
    TrimmedAlready("https://goo.gl/maps/xyz");
    TrimmedAlready("https://goo.gl/other");
    assert "/other"[1] != "/maps"[1];
    TrimmedAlready("https://maps.google.com/?q=1,2");
  }
}
