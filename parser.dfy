/** The Google Maps link parser: host allow-list, coordinate extraction with
    its fixed order of sources, the label and address fields, and the
    short-link classifier. */
module Parser {
  import opened Wrappers
  import opened JsText
  import opened WebUrl
  import opened CoordPattern
  import opened ScannerProofs
  import opened LocationTypes

  /** Host names accepted as they are. */
  const GoogleMapsHosts: seq<string> :=
    ["maps.google.com", "www.google.com", "google.com", "goo.gl", "maps.app.goo.gl"]

  /** Prefix that admits country domains such as `maps.google.co.in`. */
  const CountryHostPrefix: string := "maps.google."

  const FallbackPlaceName: string := "Selected destination"

  /** The host check: one of the five listed names, or any name that begins
      with `maps.google.`. */
  function IsGoogleMapsHost(hostname: string): (r: bool)
    ensures r <==>
      || hostname == "maps.google.com" || hostname == "www.google.com" || hostname == "google.com"
      || hostname == "goo.gl" || hostname == "maps.app.goo.gl"
      || (|hostname| >= 12 && hostname[..12] == "maps.google.")
  {
    hostname in GoogleMapsHosts || StartsWith(hostname, CountryHostPrefix)
  }

  /** Every host under the `maps.google.` prefix passes, whatever follows it. */
  lemma CountryHostAccepted(suffix: string)
    ensures IsGoogleMapsHost(CountryHostPrefix + suffix)
  {
    assert (CountryHostPrefix + suffix)[..|CountryHostPrefix|] == CountryHostPrefix;
  }

  function Abs(x: real): (a: real)
    ensures a >= 0.0 && (a == x || a == -x)
  {
    if x < 0.0 then -x else x
  }

  /** The range check of the parser: `|latitude| <= 90`, `|longitude| <= 180`. */
  function InRange(c: Coords): (ok: bool)
    ensures ok <==> -90.0 <= c.latitude <= 90.0 && -180.0 <= c.longitude <= 180.0
  {
    Abs(c.latitude) <= 90.0 && Abs(c.longitude) <= 180.0
  }

  /** `parseCoordsFromText`: the numbers of the first match of the
      coordinate pattern, when they are in range. */
  function ParseCoordsFromText(input: string): (r: Option<Coords>)
    ensures r.Some? ==> -90.0 <= r.value.latitude <= 90.0 && -180.0 <= r.value.longitude <= 180.0
  {
    match FirstMatch(input, 0)
    case None => None
    case Some(m) =>
      FirstMatchSound(input, 0);
      var c := MatchCoords(input, m);
      if InRange(c) then Some(c) else None
  }

  /** What `parseCoordsFromText` returns, in terms of the regular
      expression's own semantics: the numbers of the leftmost greedy match if
      they are in range, and nothing otherwise; a later match is never tried,
      and text the pattern matches nowhere yields nothing. */
  lemma ParseCoordsFromTextMeaning(input: string)
    ensures forall m :: LeftmostMatch(input, m) ==>
      ParseCoordsFromText(input) == (if InRange(MatchCoords(input, m)) then Some(MatchCoords(input, m)) else None)
    ensures (forall i: nat :: !MatchesAt(input, i)) ==> ParseCoordsFromText(input).None?
  {
    FirstMatchIsLeftmost(input);
  }

  /** A parameter value JavaScript treats as true: present and not empty. */
  predicate Truthy(value: Option<string>) {
    value.Some? && value.value != ""
  }

  /** `a || b || c || ""` over parameter values. */
  function FirstNonEmpty(values: seq<Option<string>>): (r: string)
    ensures r == "" <==> forall k :: 0 <= k < |values| ==> !Truthy(values[k])
    ensures r != "" ==> exists k :: 0 <= k < |values| && values[k] == Some(r)
                                    && forall j :: 0 <= j < k ==> !Truthy(values[j])
  {
    if values == [] then ""
    else if Truthy(values[0]) then values[0].value
    else
      var r := FirstNonEmpty(values[1..]);
      assert forall k :: 1 <= k < |values| ==> values[k] == values[1..][k - 1];
      r
  }

  /** The query text the parser searches first and reports as the address:
      the first non-empty of `q`, `query` and `destination`. */
  function QueryCandidate(url: Url): (r: string)
    ensures var q := SearchParamGet(url.searchParams, "q");
      var query := SearchParamGet(url.searchParams, "query");
      var destination := SearchParamGet(url.searchParams, "destination");
      && (Truthy(q) ==> r == q.value)
      && (!Truthy(q) && Truthy(query) ==> r == query.value)
      && (!Truthy(q) && !Truthy(query) && Truthy(destination) ==> r == destination.value)
      && (!Truthy(q) && !Truthy(query) && !Truthy(destination) ==> r == "")
  {
    var values := [
      SearchParamGet(url.searchParams, "q"),
      SearchParamGet(url.searchParams, "query"),
      SearchParamGet(url.searchParams, "destination")];
    assert values[1..] == [values[1], values[2]] && values[1..][1..] == [values[2]];
    FirstNonEmpty(values)
  }

  /** The label: the text of a non-empty `q` before its first comma, and the
      fallback otherwise. Only `q` is consulted. */
  function PlaceName(q: Option<string>): (r: string)
    ensures !Truthy(q) ==> r == FallbackPlaceName
    ensures Truthy(q) ==> StartsWith(q.value, r) && ',' !in r && (|r| < |q.value| ==> q.value[|r|] == ',')
  {
    if Truthy(q) then BeforeFirstComma(q.value) else FallbackPlaceName
  }

  /** The label is exactly the text of `q` up to its first comma. */
  lemma LabelBeforeComma(q: string, k: nat)
    requires k < |q| && q[k] == ',' && ',' !in q[..k]
    ensures PlaceName(Some(q)) == q[..k]
  {
    var r := PlaceName(Some(q));
    assert q[..|r|] == r;
  }

  datatype ParseError = InvalidUrl | NotGoogleMapsUrl | CoordinatesNotFound {
    /** The message of the error thrown; each error has its own. */
    function Message(): (m: string)
      ensures m == "Invalid URL" <==> this == InvalidUrl
      ensures m == "Not a Google Maps URL" <==> this == NotGoogleMapsUrl
      ensures m == "Could not extract coordinates from Google Maps link" <==> this == CoordinatesNotFound
    {
      match this
      case InvalidUrl => "Invalid URL"
      case NotGoogleMapsUrl => "Not a Google Maps URL"
      case CoordinatesNotFound => "Could not extract coordinates from Google Maps link"
    }
  }

  /** `parseGoogleMapsLink`. The trimmed text must parse as a URL, then the
      host must pass the allow-list, and only then are coordinates sought:
      in the query candidate, then the path, then the untrimmed input. */
  function ParseGoogleMapsLink(parse: UrlParser, rawUrl: string): (r: Result<ParsedLocation, ParseError>)
    ensures r == Err(InvalidUrl) <==> parse(Trim(rawUrl)).None?
    ensures r == Err(NotGoogleMapsUrl) <==>
      parse(Trim(rawUrl)).Some? && !IsGoogleMapsHost(parse(Trim(rawUrl)).value.hostname)
    ensures r.Ok? ==>
      && r.value.originalUrl == rawUrl
      && -90.0 <= r.value.latitude <= 90.0 && -180.0 <= r.value.longitude <= 180.0
      && var url := parse(Trim(rawUrl)).value;
      && r.value.placeName == Some(PlaceName(SearchParamGet(url.searchParams, "q")))
      && r.value.address == (if QueryCandidate(url) == "" then None else Some(QueryCandidate(url)))
  {
    match parse(Trim(rawUrl))
    case None => Err(InvalidUrl)
    case Some(url) =>
      if !IsGoogleMapsHost(url.hostname) then Err(NotGoogleMapsUrl)
      else
        var queryCandidate := QueryCandidate(url);
        var fromQuery := ParseCoordsFromText(queryCandidate);
        var fromPath := if fromQuery.Some? then fromQuery else ParseCoordsFromText(url.pathname);
        var coords := if fromPath.Some? then fromPath else ParseCoordsFromText(rawUrl);
        if coords.None? then Err(CoordinatesNotFound)
        else
          var address := if queryCandidate == "" then None else Some(queryCandidate);
          Ok(ParsedLocation(rawUrl, coords.value.latitude, coords.value.longitude,
                            Some(PlaceName(SearchParamGet(url.searchParams, "q"))), address))
  }

  /** The order of the coordinate sources: an in-range pair in the query
      candidate wins; a missing or out-of-range one falls through to the
      path, and that in turn to the untrimmed input. */
  lemma SourcePriority(parse: UrlParser, rawUrl: string, url: Url)
    requires parse(Trim(rawUrl)) == Some(url) && IsGoogleMapsHost(url.hostname)
    ensures var r := ParseGoogleMapsLink(parse, rawUrl);
      match ParseCoordsFromText(QueryCandidate(url))
      case Some(c) => r.Ok? && r.value.latitude == c.latitude && r.value.longitude == c.longitude
      case None =>
        match ParseCoordsFromText(url.pathname)
        case Some(c) => r.Ok? && r.value.latitude == c.latitude && r.value.longitude == c.longitude
        case None =>
          match ParseCoordsFromText(rawUrl)
          case Some(c) => r.Ok? && r.value.latitude == c.latitude && r.value.longitude == c.longitude
          case None => r == Err(CoordinatesNotFound)
  {
  }

  /** `isLikelyGoogleMapsShortLink`: the trimmed text parses, and the host
      is `maps.app.goo.gl`, or `goo.gl` with a path that begins with `/maps`.
      Text that does not parse is simply not a short link. */
  function IsLikelyShortLink(parse: UrlParser, rawUrl: string): (r: bool)
    ensures r ==> parse(Trim(rawUrl)).Some? && IsGoogleMapsHost(parse(Trim(rawUrl)).value.hostname)
    ensures r <==>
      && parse(Trim(rawUrl)).Some?
      && var url := parse(Trim(rawUrl)).value;
      || url.hostname == "maps.app.goo.gl"
      || (url.hostname == "goo.gl" && |url.pathname| >= 5 && url.pathname[..5] == "/maps")
  {
    match parse(Trim(rawUrl))
    case None => false
    case Some(url) => url.hostname == "maps.app.goo.gl" || (url.hostname == "goo.gl" && StartsWith(url.pathname, "/maps"))
  }
}
