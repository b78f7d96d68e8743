/** The API service's request handlers: an in-memory ride history kept
    newest first, with coordinates stored only under location consent, and
    an analytics endpoint that acknowledges events. Request bodies are the
    JSON objects `express.json()` produces; identifiers and timestamps are
    passed in by the caller. */
module HistoryServer {
  import opened Wrappers

  /** A JSON value as the request body parser produces it. */
  datatype Json =
    | JNull
    | JBool(b: bool)
    | JNumber(n: real)
    | JString(s: string)
    | JArray(elements: seq<Json>)
    | JObject(members: seq<(string, Json)>)

  /** JavaScript truthiness of a JSON value. JSON has no NaN, so only zero
      is a falsy number. */
  predicate Truthy(v: Json) {
    match v
    case JNull => false
    case JBool(b) => b
    case JNumber(n) => n != 0.0
    case JString(s) => s != ""
    case JArray(_) => true
    case JObject(_) => true
  }

  /** A parsed request body: an object's members by name. */
  type Body = map<string, Json>

  /** `body.key`: the member's value, or `None` for `undefined`. */
  function Member(body: Body, key: string): (r: Option<Json>)
    ensures r.Some? <==> key in body
    ensures r.Some? ==> r.value == body[key]
  {
    if key in body then Some(body[key]) else None
  }

  /** Truthiness of `body.key`, where `undefined` is falsy. */
  predicate MemberTruthy(body: Body, key: string) {
    key in body && Truthy(body[key])
  }

  /** A stored history entry. An absent optional member is `None`. */
  datatype HistoryItem = HistoryItem(
    id: string,
    createdAt: string,
    provider: Json,
    placeName: Option<Json>,
    lat: Option<Json>,
    lng: Option<Json>,
    locationConsent: bool)

  /** What a handler sends back as its JSON body: `{error}`, the stored
      entry, the list of entries, or `{accepted: true, event, at}`, whose
      constant `accepted` member is implied by the constructor. */
  datatype Payload =
    | ErrorMessage(error: string)
    | StoredItem(item: HistoryItem)
    | ItemList(items: seq<HistoryItem>)
    | EventAccepted(event: Json, at: Json)

  datatype Response = Response(status: nat, payload: Payload)

  /** How many entries `GET /history` returns at most. */
  const WindowSize: nat := 30

  /** The entry `POST /history` stores for a body with a provider: the
      provider and place name are copied, the coordinates are kept only when
      consent is truthy, and consent itself is stored as a boolean. */
  function NewHistoryItem(body: Body, id: string, createdAt: string): (item: HistoryItem)
    requires MemberTruthy(body, "provider")
    ensures item.id == id && item.createdAt == createdAt
    ensures item.provider == body["provider"]
    ensures item.placeName == Member(body, "placeName")
    ensures item.locationConsent <==> MemberTruthy(body, "locationConsent")
    ensures item.locationConsent ==> item.lat == Member(body, "lat") && item.lng == Member(body, "lng")
    ensures !item.locationConsent ==> item.lat.None? && item.lng.None?
  {
    var consent := MemberTruthy(body, "locationConsent");
    HistoryItem(
      id, createdAt,
      body["provider"],
      Member(body, "placeName"),
      if consent then Member(body, "lat") else None,
      if consent then Member(body, "lng") else None,
      consent)
  }

  /** `history.slice(0, 30)`: the newest entries, at most thirty, in order. */
  function Window(history: seq<HistoryItem>): (w: seq<HistoryItem>)
    ensures |w| == if |history| < WindowSize then |history| else WindowSize
    ensures forall k :: 0 <= k < |w| ==> w[k] == history[k]
  {
    if |history| < WindowSize then history else history[..WindowSize]
  }

  /** What every stored entry satisfies: it names a provider, and it holds
      coordinates only if it was stored with consent. */
  predicate WellFormed(item: HistoryItem) {
    && Truthy(item.provider)
    && (!item.locationConsent ==> item.lat.None? && item.lng.None?)
  }

  /** The module-level `history` array and the handlers that use it. */
  class Server {
    var history: seq<HistoryItem>

    predicate Valid()
      reads this
    {
      forall k :: 0 <= k < |history| ==> WellFormed(history[k])
    }

    constructor()
      ensures history == [] && Valid()
    {
      history := [];
    }

    /** `POST /history`: 400 without a truthy provider, and nothing stored;
        otherwise the new entry goes in front of all earlier ones and is
        sent back with 201. */
    method PostHistory(body: Body, id: string, createdAt: string) returns (response: Response)
      requires Valid()
      modifies this
      ensures Valid()
      ensures !MemberTruthy(body, "provider") ==>
        response == Response(400, ErrorMessage("provider is required")) && history == old(history)
      ensures MemberTruthy(body, "provider") ==>
        && history == [NewHistoryItem(body, id, createdAt)] + old(history)
        && response == Response(201, StoredItem(history[0]))
    {
      if !MemberTruthy(body, "provider") {
        return Response(400, ErrorMessage("provider is required"));
      }
      var item := NewHistoryItem(body, id, createdAt);
      history := [item] + history;
      response := Response(201, StoredItem(item));
    }

    /** `GET /history`: the thirty newest entries with 200; the store is
        left as it is. */
    method GetHistory() returns (response: Response)
      ensures response.status == 200 && response.payload.ItemList?
      ensures response.payload.items == Window(history)
    {
      response := Response(200, ItemList(Window(history)));
    }

    /** `POST /analytics/event`: 400 without a truthy event; otherwise 202
        echoing the event and `at`, which takes the current time only when
        the body has none. The store is not involved. */
    method PostAnalyticsEvent(body: Body, now: string) returns (response: Response)
      ensures !MemberTruthy(body, "event") ==> response == Response(400, ErrorMessage("event is required"))
      ensures MemberTruthy(body, "event") ==>
        && response.status == 202 && response.payload.EventAccepted?
        && response.payload.event == body["event"]
        && response.payload.at == (if "at" in body then body["at"] else JString(now))
    {
      if !MemberTruthy(body, "event") {
        return Response(400, ErrorMessage("event is required"));
      }
      var at := if "at" in body then body["at"] else JString(now);
      response := Response(202, EventAccepted(body["event"], at));
    }
  }

  /** A stored entry is well formed whenever the body named a provider. */
  lemma NewHistoryItemWellFormed(body: Body, id: string, createdAt: string)
    requires MemberTruthy(body, "provider")
    ensures WellFormed(NewHistoryItem(body, id, createdAt))
  {
  }

  /** After a post, the window shows the new entry first, followed by the
      window that was there before less its oldest entry once it was full. */
  lemma WindowAfterPost(history: seq<HistoryItem>, item: HistoryItem)
    ensures Window([item] + history) ==
      [item] + (if |history| < WindowSize then history else history[..WindowSize - 1])
  {
    var h := [item] + history;
    assert forall k :: 0 <= k < |h| - 1 ==> h[k + 1] == history[k];
  }

  /** An entry stays visible for exactly as long as fewer than thirty
      entries have been stored after it. */
  lemma VisibleWhileAmongNewest(newer: seq<HistoryItem>, item: HistoryItem, older: seq<HistoryItem>)
    ensures |newer| < WindowSize ==> item in Window(newer + [item] + older)
    ensures |newer| >= WindowSize ==> Window(newer + [item] + older) == Window(newer)
  {
    var h := newer + [item] + older;
    if |newer| < WindowSize {
      assert h[|newer|] == item;
    } else {
      assert h[..WindowSize] == newer[..WindowSize];
    }
  }
}
