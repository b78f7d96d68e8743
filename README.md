# RidePrompt link handling, in Dafny

This project models three pieces of the RidePrompt code base and proves
properties about them.

- **The Google Maps link parser** (`packages/shared/src/parser.ts`).
  - The host allow-list.
  - The coordinate regular expression `(-?\d{1,2}\.\d+),\s*(-?\d{1,3}\.\d+)` as JavaScript's `String.prototype.match` applies it. It is written as an explicit scanner (`CoordPattern.MatchAt`, `CoordPattern.FirstMatch`). The numbers are read as exact decimals.
  - The fixed order of coordinate sources: the query candidate, then the path, then the untrimmed input.
  - The `placeName` and `address` fields, and the short-link classifier.
- **The mobile shared-link pipeline** (`apps/mobile/src/shareHandler.ts`). Blank text is refused. A likely short link is expanded by a HEAD request, with one GET as the fallback, and the result is handed to the parser. The network is a parameter, a `Transport` that gives the outcome of each request. A resolution records the requests it made.
- **The API's history store** (`services/api/src/server.ts`). The module-level `history` array is the `seq` field of class `HistoryServer.Server`. The three handlers are its methods:
  - `POST /history` prepends a consent-gated entry;
  - `GET /history` returns the thirty newest entries;
  - `POST /analytics/event` acknowledges an event.

The modules:

- `Wrappers` holds `Option` and `Result`.
- `JsText` holds `\d`, `\s`, `trim`, `startsWith` and `split(",")[0]`.
- `WebUrl` holds the parts of a URL record the parser reads.
- `LocationTypes` holds `ParsedLocation`.
- `CoordPattern` holds the scanner and the decimal values.
- `ScannerProofs` proves the scanner sound and complete against a declarative statement of the pattern.
- `Parser` holds the parser itself.
- `ParserExamples` works the parser through concrete inputs.
- `ShareHandler` holds the pipeline.
- `HistoryServer` holds the API handlers.

Behaviour worth noting:

- The allow-list contains `maps.app.goo.gl` as well as the four other names (`packages/shared/src/parser.ts:8`).
- A GET that throws or reports no URL ends resolution with an error. Nothing falls back to the original link (`apps/mobile/src/shareHandler.ts:34-37`).
- Blank input is refused only by `handleSharedLink`. The parser on its own reports such input as an invalid URL (`ShareHandler.BlankInputRejectedFirst`).

## Model

| member | source | states |
|---|---|---|
| Parser.IsGoogleMapsHost | packages/shared/src/parser.ts:3-22 | A host is accepted exactly when it is one of the five listed names or begins with `maps.google.` |
| Parser.CountryHostAccepted | packages/shared/src/parser.ts:16-19 | Every host under the `maps.google.` prefix is accepted, whatever the country suffix |
| CoordPattern.DigitRunEnd | packages/shared/src/parser.ts:25 | The end of a `\d` run lies between its start and the end of the text |
| JsText.SkipSpaceStops | packages/shared/src/parser.ts:25 | `\s*` passes white space only and stops at the first other character |
| ScannerProofs.DigitRunEndStops | packages/shared/src/parser.ts:25 | The digit run holds digits only and stops at the first non-digit |
| CoordPattern.ScanDecimal | packages/shared/src/parser.ts:25 | A number found at `lo` lies after `lo` and ends within the text, with its point after its digits |
| ScannerProofs.ScanDecimalSound | packages/shared/src/parser.ts:25 | What the number scanner finds has the form `-?\d{1,n}\.\d+`, and no digit follows it |
| ScannerProofs.ScanDecimalComplete | packages/shared/src/parser.ts:25 | Wherever a number of that form starts, the scanner finds it with the same point and an end at least as far |
| CoordPattern.MatchAt | packages/shared/src/parser.ts:25 | A match tried at index `i` starts at `i`, and its parts lie in order within the text |
| ScannerProofs.MatchAtSound | packages/shared/src/parser.ts:25 | A match the scanner finds at an index starts there, has the pattern's shape and is greedy |
| ScannerProofs.MatchAtComplete | packages/shared/src/parser.ts:25 | Wherever the pattern matches, the scanner finds a match there; a greedy match is exactly what it finds |
| ScannerProofs.FirstMatchSkipsOnlyMisses | packages/shared/src/parser.ts:25 | The search moves past an index only when nothing matches there |
| CoordPattern.FirstMatch | packages/shared/src/parser.ts:25-26 | The search from `from` reports a match that starts at or after `from` |
| ScannerProofs.FirstMatchFound | packages/shared/src/parser.ts:25 | The search reports what the scanner finds at the index where it stops |
| ScannerProofs.FirstMatchSound | packages/shared/src/parser.ts:25 | The reported match has the pattern's shape and is greedy |
| ScannerProofs.FirstMatchReaches | packages/shared/src/parser.ts:25 | Wherever the pattern matches, the search stops there or earlier |
| ScannerProofs.FirstMatchPassesNoMatch | packages/shared/src/parser.ts:25 | Before the reported match, the pattern matches nowhere |
| ScannerProofs.FoundIsLeftmost | packages/shared/src/parser.ts:25 | The reported match is the leftmost greedy match |
| ScannerProofs.LeftmostIsFound | packages/shared/src/parser.ts:25 | The leftmost greedy match is the one reported |
| ScannerProofs.FirstMatchIsLeftmost | packages/shared/src/parser.ts:25-26 | `match` reports a match exactly when it is the leftmost greedy one, and reports none exactly when the pattern matches nowhere |
| CoordPattern.DecimalValue | packages/shared/src/parser.ts:28-29 | `Number` of a matched numeral is below `10^n` in magnitude, with the numeral's sign |
| Parser.InRange | packages/shared/src/parser.ts:35 | `Math.abs(latitude) > 90 \|\| Math.abs(longitude) > 180` fails exactly when latitude is in [-90, 90] and longitude in [-180, 180] |
| Parser.ParseCoordsFromText | packages/shared/src/parser.ts:24-40 | Any pair returned has latitude in [-90, 90] and longitude in [-180, 180] |
| Parser.ParseCoordsFromTextMeaning | packages/shared/src/parser.ts:24-40 | The result is the leftmost match's numbers when in range and nothing otherwise; a later match is never tried |
| ParserExamples.OutOfRangeFirstMatchHidesLaterOne | packages/shared/src/parser.ts:25-37 | In `95.5,1.5 1.5,2.5` the out-of-range first pair gives no result, although a valid pair follows |
| ParserExamples.BoundsAccepted | packages/shared/src/parser.ts:35-39 | The bounds `-90.0,180.0` themselves are accepted |
| ParserExamples.LatitudeOutOfRange | packages/shared/src/parser.ts:35-37 | A latitude of 95.5 is rejected |
| ParserExamples.ThreeDigitLatitudeLosesItsFirstDigit | packages/shared/src/parser.ts:25 | In `123.5,1.5` the match starts at the second digit, giving latitude 23.5 |
| ParserExamples.SpaceAfterComma | packages/shared/src/parser.ts:25 | White space after the comma is allowed |
| ParserExamples.PathCoords | packages/shared/src/parser.ts:25-39 | A path `/@1.5,2.5,3z` yields the pair (1.5, 2.5) |
| ParserExamples.NamedQueryCoords | packages/shared/src/parser.ts:25-39 | A query `Cafe,1.5,2.5` yields the pair (1.5, 2.5) |
| Parser.FirstNonEmpty | packages/shared/src/parser.ts:55-59 | `a \|\| b \|\| c \|\| ""`: empty exactly when no value is truthy, and otherwise the first truthy value |
| Parser.QueryCandidate | packages/shared/src/parser.ts:55-59 | The value of `q` when non-empty; else that of `query`; else that of `destination`; else the empty string |
| Parser.PlaceName | packages/shared/src/parser.ts:77-78 | With a non-empty `q`, its text before the first comma; otherwise `Selected destination` |
| JsText.BeforeFirstComma | packages/shared/src/parser.ts:78 | `split(",")[0]`: a prefix of the text without a comma, followed by a comma or the end of the text |
| Parser.LabelBeforeComma | packages/shared/src/parser.ts:77-78 | When `q` has its first comma at `k`, the label is exactly `q[..k]` |
| Parser.ParseGoogleMapsLink | packages/shared/src/parser.ts:42-87 | An unparseable trimmed input gives exactly `Invalid URL`; a foreign host gives exactly `Not a Google Maps URL`; a result has the untrimmed input, in-range coordinates, the `q` label and the query candidate as address |
| Parser.ParseError.Message | packages/shared/src/parser.ts:46-74 | Each parser error carries its own message: `Invalid URL`, `Not a Google Maps URL`, `Could not extract coordinates from Google Maps link` |
| Parser.SourcePriority | packages/shared/src/parser.ts:61-75 | The query candidate's in-range pair wins; otherwise the path's; otherwise the untrimmed input's; otherwise the coordinates error |
| ParserExamples.PathPosition | packages/shared/src/parser.ts:42-87 | A path-only link gives the path's pair and the fallback label, with no address |
| ParserExamples.NamedQuery | packages/shared/src/parser.ts:42-87 | A `q=Cafe,1.5,2.5` link gives the pair, the label `Cafe` and the whole query as address |
| ParserExamples.QueryOutOfRangeFallsThrough | packages/shared/src/parser.ts:61-86 | An out-of-range query pair falls through to the path, while label and address still come from the query |
| ParserExamples.NotAUrl | packages/shared/src/parser.ts:44-48 | Text that does not parse is reported as `Invalid URL` |
| ParserExamples.ForeignHostWithCoordinates | packages/shared/src/parser.ts:50-52 | A foreign host is refused even when its query holds coordinates |
| Parser.IsLikelyShortLink | packages/shared/src/parser.ts:89-96 | True exactly when the trimmed input parses and its host is `maps.app.goo.gl`, or `goo.gl` with a path beginning `/maps`; a short link always passes the allow-list |
| ParserExamples.ShortLinkClassification | packages/shared/src/parser.ts:89-96 | Four links classified: an app link and a `goo.gl/maps` link are short links, a plain `goo.gl` link and a full link are not |
| JsText.Trim | apps/mobile/src/shareHandler.ts:43 | `trim()` yields the text without white space at either end, empty exactly for blank text |
| JsText.TrimIdempotent | apps/mobile/src/shareHandler.ts:43-48 | Trimming the already trimmed text changes nothing |
| WebUrl.SearchParamGet | packages/shared/src/parser.ts:56-58 | `searchParams.get` gives the value of the first pair with the name, and nothing when there is none |
| ShareHandler.ResolveGoogleMapsUrl | apps/mobile/src/shareHandler.ts:20-40 | A non-short link comes back unchanged with no request. Otherwise HEAD is sent first, and GET is sent exactly when HEAD names no URL. The result is the URL the last response names, or an error when that request threw or named none |
| ShareHandler.HandleSharedLink | apps/mobile/src/shareHandler.ts:42-50 | Blank text is refused with no request; otherwise the trimmed text is resolved and the parser's answer on the resolved URL is returned |
| ShareHandler.ResolveError.Message | apps/mobile/src/shareHandler.ts:34-37 | An empty GET response gives `Could not resolve shortened Google Maps link`; a failed GET passes on the transport's own error |
| ShareHandler.ShareError.Message | apps/mobile/src/shareHandler.ts:44-49 | Blank input gives `No shared link received`; otherwise the resolver's or the parser's message is passed on |
| ShareHandler.BlankInputRejectedFirst | apps/mobile/src/shareHandler.ts:43-46 | Blank input gives `No shared link received` with no request, where the parser alone says `Invalid URL` |
| ShareHandler.NonShortLinkParsedDirectly | apps/mobile/src/shareHandler.ts:21-23 | A link that is not a short link is parsed trimmed, with no request, and that trimmed text is the reported original URL |
| ShareHandler.HeadSettlesShortLink | apps/mobile/src/shareHandler.ts:26-29 | A HEAD response naming a URL settles the link, and no GET is sent |
| ShareHandler.NoFallbackToSharedLink | apps/mobile/src/shareHandler.ts:30-39 | After a HEAD without a URL, a GET that throws or names no URL ends the pipeline in an error |
| ShareHandler.AtMostTwoRequests | apps/mobile/src/shareHandler.ts:20-50 | At most two requests are sent, both for the trimmed link, HEAD before GET |
| ShareHandler.LocationsComeFromParser | apps/mobile/src/shareHandler.ts:48-49 | Any location the pipeline returns is the parser's answer on some URL |
| HistoryServer.NewHistoryItem | services/api/src/server.ts:26-34 | The provider and place name are copied; the coordinates are kept only under truthy consent; consent is stored as a boolean |
| HistoryServer.NewHistoryItemWellFormed | services/api/src/server.ts:24-34 | An entry built from a body with a provider names that provider and has no coordinates without consent |
| HistoryServer.Server.constructor | services/api/src/server.ts:18 | The store starts empty |
| HistoryServer.Server.PostHistory | services/api/src/server.ts:22-38 | Without a truthy provider: 400 and the store is unchanged. Otherwise one new entry goes in front of the old ones, in their order, and is sent back with 201. The consent invariant is kept |
| HistoryServer.Window | services/api/src/server.ts:41 | `slice(0, 30)`: the first min(30, n) entries, in order |
| HistoryServer.Server.GetHistory | services/api/src/server.ts:40-42 | 200 with the thirty newest entries; the store is not modified |
| HistoryServer.WindowAfterPost | services/api/src/server.ts:36-41 | After a post the window shows the new entry and then the old window, less its last entry once it was full |
| HistoryServer.VisibleWhileAmongNewest | services/api/src/server.ts:36-41 | An entry is listed while fewer than thirty entries are newer than it; after that the listing is the newer entries' window |
| HistoryServer.Server.PostAnalyticsEvent | services/api/src/server.ts:44-48 | Without a truthy event: 400. Otherwise 202, echoing the event and `at`, with `at` defaulted to the current time only when absent; the store is not touched |

## Left out

- URL parsing follows the WHATWG URL Standard, section 4.4 ("URL parsing") and the application/x-www-form-urlencoded parser of section 5.1 behind `URLSearchParams`. It is not modelled: every operation takes the parser as a parameter `parse`. Host normalisation and percent- or `+`-decoding are part of that parameter.
- Number conversion is exact. Coordinates are exact decimals, so the floating-point rounding of `Number` is not modelled. A numeral a hair above a bound, such as `90.00000000000000001`, rounds to 90 in JavaScript and is accepted there. The model rejects it.
- `Number.isFinite` is not modelled separately. For text the pattern matches it always holds, so the model has no such check.
- `fetchWithTimeout` is replaced by the `Transport` parameter: the network, redirects, `AbortController` and the ten-second timeout. The transport is a function of the request, so the same request always has the same outcome. An error thrown by the transport is `TransportFailed`, with its own message not modelled.
- The model has no concurrency. Promises are settled in order.
- The server's wiring is not modelled: `express`, `cors`, the JSON body parser, `listen` and `process.env.PORT`.
  - `crypto.randomUUID()` and `new Date().toISOString()` are the parameters `id`, `createdAt` and `now`.
  - A request body is taken to be a JSON object. A missing or non-object body is not modelled.
  - Serialising the response to JSON is not modelled. An absent optional member is `None`, which `res.json` omits.
- `GET /health` is not modelled. It has no logic.
- `packages/shared/src/deeplinks.ts`, the browser extension and the two apps' UI code are not part of this model.
