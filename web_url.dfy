/** The part of a WHATWG URL record the link parser reads. Parsing itself
    (the URL Standard's "basic URL parser" and the
    application/x-www-form-urlencoded parser behind `URLSearchParams`) is not
    modelled: callers pass it in as a `UrlParser`, a function that either
    rejects a string (`new URL` throws) or yields its record. */
module WebUrl {
  import opened Wrappers

  /** `hostname`, `pathname` and the decoded query pairs, in order. */
  datatype Url = Url(hostname: string, pathname: string, searchParams: seq<(string, string)>)

  type UrlParser = string -> Option<Url>

  /** `URLSearchParams.get(name)`: the value of the first pair named `name`,
      or `None` (JavaScript's `null`) when there is none. */
  function SearchParamGet(params: seq<(string, string)>, name: string): (r: Option<string>)
    ensures r.None? <==> forall k :: 0 <= k < |params| ==> params[k].0 != name
    ensures r.Some? ==> exists k :: 0 <= k < |params| && params[k] == (name, r.value)
                                    && forall j :: 0 <= j < k ==> params[j].0 != name
  {
    if params == [] then None
    else if params[0].0 == name then Some(params[0].1)
    else
      var r := SearchParamGet(params[1..], name);
      assert forall k :: 1 <= k < |params| ==> params[k] == params[1..][k - 1];
      r
  }
}
