/** The mobile app's shared-link pipeline: a link shared into the app is
    trimmed, a Google short link is expanded by following its redirect
    (HEAD first, GET as the fallback), and the result goes to the link
    parser. The network is a parameter: a `Transport` gives the outcome of
    each request, either the final URL after redirects (`Response.url`,
    possibly empty) or a thrown error. */
module ShareHandler {
  import opened Wrappers
  import opened JsText
  import opened WebUrl
  import opened LocationTypes
  import opened Parser

  datatype HttpMethod = Head | Get

  /** One call of `fetch`, with redirects followed. */
  datatype Request = Request(verb: HttpMethod, url: string)

  /** The settled `fetch`: the response's final `url`, or a rejection. */
  datatype FetchOutcome = Responded(url: string) | Threw

  type Transport = Request -> FetchOutcome

  datatype ResolveError =
    | Unresolved       // the GET response carries no URL
    | TransportFailed  // the GET request itself threw
  {
    /** The message of the error thrown, when the pipeline chooses it. */
    function Message(): (m: Option<string>)
      ensures m == Some("Could not resolve shortened Google Maps link") <==> this == Unresolved
      ensures m.None? <==> this == TransportFailed
    {
      match this
      case Unresolved => Some("Could not resolve shortened Google Maps link")
      case TransportFailed => None  // the transport's own error passes through
    }
  }

  /** The requests made, in order, and the URL they resolved to or the
      error raised. */
  datatype Resolution = Resolution(requests: seq<Request>, result: Result<string, ResolveError>)

  /** `resolveGoogleMapsUrl`. A link that is not a likely short link comes
      back untouched. Otherwise a HEAD request whose response names a URL
      settles it; a HEAD that throws or names none is followed by exactly one
      GET, whose failure is final. */
  function ResolveGoogleMapsUrl(parse: UrlParser, transport: Transport, incoming: string): (r: Resolution)
    ensures !IsLikelyShortLink(parse, incoming) ==> r == Resolution([], Ok(incoming))
    ensures IsLikelyShortLink(parse, incoming) ==>
      && 1 <= |r.requests| <= 2
      && r.requests[0] == Request(Head, incoming)
      && (|r.requests| == 2 <==> !NamesUrl(transport(Request(Head, incoming))))
      && (|r.requests| == 2 ==> r.requests[1] == Request(Get, incoming))
      && (r.result.Ok? <==> NamesUrl(transport(r.requests[|r.requests| - 1])))
      && (r.result.Ok? ==> Responded(r.result.value) == transport(r.requests[|r.requests| - 1]))
      && (r.result == Err(TransportFailed) <==> transport(r.requests[|r.requests| - 1]) == Threw)
  {
    if !IsLikelyShortLink(parse, incoming) then Resolution([], Ok(incoming))
    else
      var head := Request(Head, incoming);
      if NamesUrl(transport(head)) then Resolution([head], Ok(transport(head).url))
      else
        var get := Request(Get, incoming);
        var requests := [head, get];
        match transport(get)
        case Threw => Resolution(requests, Err(TransportFailed))
        case Responded(url) =>
          if url == "" then Resolution(requests, Err(Unresolved)) else Resolution(requests, Ok(url))
  }

  /** A response that names a URL (`if (response.url)`). */
  predicate NamesUrl(outcome: FetchOutcome) {
    outcome.Responded? && outcome.url != ""
  }

  /** Why the pipeline produced no location. */
  datatype ShareError =
    | NoSharedLinkReceived
    | ResolveFailed(resolveError: ResolveError)
    | ParseFailed(parseError: ParseError)
  {
    /** The message of the error thrown: the pipeline's own, the
        resolver's or the parser's. */
    function Message(): (m: Option<string>)
      ensures this == NoSharedLinkReceived <==> m == Some("No shared link received")
      ensures this.ResolveFailed? ==> m == resolveError.Message()
      ensures this.ParseFailed? ==> m == Some(parseError.Message())
    {
      match this
      case NoSharedLinkReceived => Some("No shared link received")
      case ResolveFailed(e) => e.Message()
      case ParseFailed(e) => Some(e.Message())
    }
  }

  /** The requests made and the location or error `handleSharedLink` settles with. */
  datatype Handled = Handled(requests: seq<Request>, result: Result<ParsedLocation, ShareError>)

  /** `handleSharedLink`: blank text is refused before anything else; the
      trimmed text is resolved, and the resolved URL parsed. */
  function HandleSharedLink(parse: UrlParser, transport: Transport, incoming: string): (r: Handled)
    ensures Trim(incoming) == [] ==> r == Handled([], Err(NoSharedLinkReceived))
    ensures Trim(incoming) != [] ==>
      && var resolution := ResolveGoogleMapsUrl(parse, transport, Trim(incoming));
      && r.requests == resolution.requests
      && r.result == match resolution.result
                     case Err(e) => Err(ResolveFailed(e))
                     case Ok(url) => FromParser(ParseGoogleMapsLink(parse, url))
  {
    var trimmed := Trim(incoming);
    if trimmed == [] then Handled([], Err(NoSharedLinkReceived))
    else
      var resolution := ResolveGoogleMapsUrl(parse, transport, trimmed);
      match resolution.result
      case Err(e) => Handled(resolution.requests, Err(ResolveFailed(e)))
      case Ok(url) => Handled(resolution.requests, FromParser(ParseGoogleMapsLink(parse, url)))
  }

  /** A parser error raised inside the pipeline. */
  function FromParser(r: Result<ParsedLocation, ParseError>): (h: Result<ParsedLocation, ShareError>)
    ensures h.Ok? <==> r.Ok?
    ensures r.Ok? ==> h.value == r.value
    ensures r.Err? ==> h.error == ParseFailed(r.error)
  {
    match r
    case Ok(location) => Ok(location)
    case Err(e) => Err(ParseFailed(e))
  }

  /** Blank text is refused with "No shared link received" and no request is
      made; the parser on its own would have called the same text an
      invalid URL, since the empty string does not parse. */
  lemma BlankInputRejectedFirst(parse: UrlParser, transport: Transport, incoming: string)
    requires AllSpace(incoming)
    requires parse("") == None
    ensures HandleSharedLink(parse, transport, incoming).requests == []
    ensures HandleSharedLink(parse, transport, incoming).result == Err(NoSharedLinkReceived)
    ensures ParseGoogleMapsLink(parse, incoming) == Err(InvalidUrl)
  {
  }

  /** A link that is not a short link reaches the parser trimmed and
      without any request: the pipeline's answer is the parser's answer on
      the trimmed text, which is then also the `originalUrl` reported. */
  lemma NonShortLinkParsedDirectly(parse: UrlParser, transport: Transport, incoming: string)
    requires Trim(incoming) != []
    requires !IsLikelyShortLink(parse, incoming)
    ensures var r := HandleSharedLink(parse, transport, incoming);
      && r.requests == []
      && r.result == FromParser(ParseGoogleMapsLink(parse, Trim(incoming)))
      && (r.result.Ok? ==> r.result.value.originalUrl == Trim(incoming))
  {
    TrimIdempotent(incoming);
    assert !IsLikelyShortLink(parse, Trim(incoming));
  }

  /** A short link whose HEAD response names a URL is parsed at that URL,
      and no GET is sent. */
  lemma HeadSettlesShortLink(parse: UrlParser, transport: Transport, incoming: string, url: string)
    requires Trim(incoming) != []
    requires IsLikelyShortLink(parse, incoming)
    requires transport(Request(Head, Trim(incoming))) == Responded(url) && url != ""
    ensures var r := HandleSharedLink(parse, transport, incoming);
      && r.requests == [Request(Head, Trim(incoming))]
      && r.result == FromParser(ParseGoogleMapsLink(parse, url))
  {
    TrimIdempotent(incoming);
  }

  /** There is no fallback to the shared link itself: once the HEAD response
      names no URL, a GET that throws or names none ends the pipeline with
      an error, whatever the parser would make of the link. */
  lemma NoFallbackToSharedLink(parse: UrlParser, transport: Transport, incoming: string)
    requires Trim(incoming) != []
    requires IsLikelyShortLink(parse, incoming)
    requires !NamesUrl(transport(Request(Head, Trim(incoming))))
    requires !NamesUrl(transport(Request(Get, Trim(incoming))))
    ensures var r := HandleSharedLink(parse, transport, incoming);
      && r.requests == [Request(Head, Trim(incoming)), Request(Get, Trim(incoming))]
      && r.result == Err(ResolveFailed(
           if transport(Request(Get, Trim(incoming))) == Threw then TransportFailed else Unresolved))
  {
    TrimIdempotent(incoming);
  }

  /** Whatever the network does, the pipeline sends at most two requests,
      both for the trimmed link, HEAD before GET. */
  lemma AtMostTwoRequests(parse: UrlParser, transport: Transport, incoming: string)
    ensures var requests := HandleSharedLink(parse, transport, incoming).requests;
      && |requests| <= 2
      && (forall k :: 0 <= k < |requests| ==> requests[k].url == Trim(incoming))
      && (|requests| >= 1 ==> requests[0].verb == Head)
      && (|requests| == 2 ==> requests[1].verb == Get)
  {
    if Trim(incoming) != [] {
      var resolution := ResolveGoogleMapsUrl(parse, transport, Trim(incoming));
      assert HandleSharedLink(parse, transport, incoming).requests == resolution.requests;
    }
  }

  /** Any location the pipeline returns is the parser's answer on some URL. */
  lemma LocationsComeFromParser(parse: UrlParser, transport: Transport, incoming: string)
    ensures var r := HandleSharedLink(parse, transport, incoming);
      r.result.Ok? ==> exists url :: ParseGoogleMapsLink(parse, url) == Ok(r.result.value)
  {
    var r := HandleSharedLink(parse, transport, incoming);
    if r.result.Ok? {
      var url := ResolveGoogleMapsUrl(parse, transport, Trim(incoming)).result.value;
      assert ParseGoogleMapsLink(parse, url) == Ok(r.result.value);
    }
  }
}
