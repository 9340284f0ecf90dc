/** The request side of `search_searxng`: the query parameters it sends, and how
    the outcome of the HTTP call becomes data or an HTTP error. The call itself is
    the parameter `fetch`. */
module Upstream {
  import opened Wrappers
  import opened HttpErrors
  import opened CacheKeys
  import opened Shaping

  /** Python truthiness of an `Optional[str]`: present and non-empty, so `None` and `""`
      are the two falsy values. */
  predicate Truthy(o: Option<string>): (r: bool)
    ensures r <==> o != None && o != Some("")
  {
    o.Some? && o.value != ""
  }

  /** `params.get(name)` on a dict kept as its items in insertion order. */
  function ParamLookup(ps: seq<Param>, name: string): (v: Option<ParamValue>)
    decreases |ps|
  {
    if |ps| == 0 then None
    else if ps[0].0 == name then Some(ps[0].1)
    else ParamLookup(ps[1..], name)
  }

  /** The five parameters every request carries, in the order the dict literal gives them. */
  function FixedParams(query: string, categories: string, language: string, page: int): (ps: seq<Param>) {
    [("q", Text(query)), ("format", Text("json")), ("categories", Text(categories)),
     ("language", Text(language)), ("pageno", Number(page))]
  }

  /** The parameter dict, specified: the fixed five, then `engines` and `time_range` when truthy. */
  function UpstreamParams(query: string, categories: string, engines: Option<string>,
                          timeRange: Option<string>, language: string, page: int): (ps: seq<Param>)
    ensures |ps| >= 5 && ps[..5] == FixedParams(query, categories, language, page)
    ensures |ps| == 5 + (if Truthy(engines) then 1 else 0) + (if Truthy(timeRange) then 1 else 0)
  {
    FixedParams(query, categories, language, page)
    + (if Truthy(engines) then [("engines", Text(engines.value))] else [])
    + (if Truthy(timeRange) then [("time_range", Text(timeRange.value))] else [])
  }

  /** Builds the `params` dict the way `search_searxng` does: a literal, then two conditional additions. */
  method BuildParams(query: string, categories: string, engines: Option<string>,
                     timeRange: Option<string>, language: string, page: int)
    returns (params: seq<Param>)
    ensures params == UpstreamParams(query, categories, engines, timeRange, language, page)
  {
    params := [("q", Text(query)), ("format", Text("json")), ("categories", Text(categories)),
               ("language", Text(language)), ("pageno", Number(page))];
    if engines.Some? && engines.value != "" {
      params := params + [("engines", Text(engines.value))];
    }
    if timeRange.Some? && timeRange.value != "" {
      params := params + [("time_range", Text(timeRange.value))];
    }
  }

  lemma LookupInFixed(query: string, categories: string, language: string, page: int, extra: seq<Param>)
    ensures var ps := FixedParams(query, categories, language, page) + extra;
      && ParamLookup(ps, "q") == Some(Text(query))
      && ParamLookup(ps, "format") == Some(Text("json"))
      && ParamLookup(ps, "categories") == Some(Text(categories))
      && ParamLookup(ps, "language") == Some(Text(language))
      && ParamLookup(ps, "pageno") == Some(Number(page))
  {
    var ps := FixedParams(query, categories, language, page) + extra;
    var p1, p2, p3, p4 := ps[1..], ps[2..], ps[3..], ps[4..];
    assert p1[1..] == p2 && p2[1..] == p3 && p3[1..] == p4;
    assert p1[0].0 == "format" && p2[0].0 == "categories" && p3[0].0 == "language" && p4[0].0 == "pageno";
    assert ParamLookup(p4, "pageno") == Some(Number(page));
    assert ParamLookup(p3, "language") == Some(Text(language));
    assert ParamLookup(p3, "pageno") == ParamLookup(p4, "pageno");
    assert ParamLookup(p2, "categories") == Some(Text(categories));
    assert ParamLookup(p2, "language") == ParamLookup(p3, "language");
    assert ParamLookup(p2, "pageno") == ParamLookup(p3, "pageno");
    assert ParamLookup(p1, "categories") == ParamLookup(p2, "categories");
    assert ParamLookup(p1, "language") == ParamLookup(p2, "language");
    assert ParamLookup(p1, "pageno") == ParamLookup(p2, "pageno");
  }

  lemma LookupPastFixed(query: string, categories: string, language: string, page: int,
                        extra: seq<Param>, name: string)
    requires name !in {"q", "format", "categories", "language", "pageno"}
    ensures ParamLookup(FixedParams(query, categories, language, page) + extra, name) == ParamLookup(extra, name)
  {
    var ps := FixedParams(query, categories, language, page) + extra;
    var p1, p2, p3, p4, p5 := ps[1..], ps[2..], ps[3..], ps[4..], ps[5..];
    assert p1[1..] == p2 && p2[1..] == p3 && p3[1..] == p4 && p4[1..] == p5 && p5 == extra;
    assert ParamLookup(p4, name) == ParamLookup(p5, name);
    assert ParamLookup(p3, name) == ParamLookup(p4, name);
    assert ParamLookup(p2, name) == ParamLookup(p3, name);
    assert ParamLookup(p1, name) == ParamLookup(p2, name);
  }

  /** Every request carries `q`, `format=json`, `categories`, `language` and `pageno`;
      it carries `engines` and `time_range` exactly when those arguments are truthy;
      it carries nothing else and never repeats a name. */
  lemma {:induction false} UpstreamParamsContents(query: string, categories: string, engines: Option<string>,
                               timeRange: Option<string>, language: string, page: int)
    ensures var ps := UpstreamParams(query, categories, engines, timeRange, language, page);
      && ParamLookup(ps, "q") == Some(Text(query))
      && ParamLookup(ps, "format") == Some(Text("json"))
      && ParamLookup(ps, "categories") == Some(Text(categories))
      && ParamLookup(ps, "language") == Some(Text(language))
      && ParamLookup(ps, "pageno") == Some(Number(page))
      && ParamLookup(ps, "engines") == (if Truthy(engines) then Some(Text(engines.value)) else None)
      && ParamLookup(ps, "time_range") == (if Truthy(timeRange) then Some(Text(timeRange.value)) else None)
      && DistinctNames(ps)
      && forall i :: 0 <= i < |ps| ==>
           ps[i].0 in {"q", "format", "categories", "language", "pageno", "engines", "time_range"}
  {
    var e := if Truthy(engines) then [("engines", Text(engines.value))] else [];
    var t := if Truthy(timeRange) then [("time_range", Text(timeRange.value))] else [];
    var fixed := FixedParams(query, categories, language, page);
    var ps := UpstreamParams(query, categories, engines, timeRange, language, page);
    assert ps == fixed + (e + t);
    LookupInFixed(query, categories, language, page, e + t);
    LookupPastFixed(query, categories, language, page, e + t, "engines");
    LookupPastFixed(query, categories, language, page, e + t, "time_range");
    if Truthy(engines) {
      assert (e + t)[1..] == t;
    }
  }

  /** What the HTTP call to the service ends in. */
  datatype FetchOutcome =
    | Fetched(body: UpstreamData)   // a success status and a JSON body
    | TransportError(message: string)   // httpx.RequestError
    | StatusError(message: string)   // httpx.HTTPStatusError from raise_for_status

  /** The `try`/`except` of `search_searxng`: transport failures become 503, failure statuses 502. */
  function FetchResult(o: FetchOutcome): (r: Result<UpstreamData, HttpError>)
    ensures r.Ok? <==> o.Fetched?
    ensures r.Ok? ==> r.value == o.body
    ensures o.TransportError? ==> r == Err(Unavailable(o.message)) && r.error.status == 503
    ensures o.StatusError? ==> r == Err(BadGateway(o.message)) && r.error.status == 502
  {
    match o
    case Fetched(body) => Ok(body)
    case TransportError(m) => Err(Unavailable(m))
    case StatusError(m) => Err(BadGateway(m))
  }

  /** `search_searxng(query, categories, engines, time_range, language, page)`, with the
      network call given as `fetch`, which sees the parameter list that is URL-encoded. */
  method SearchSearxng(fetch: seq<Param> -> FetchOutcome, query: string, categories: string,
                       engines: Option<string>, timeRange: Option<string>, language: string, page: int)
    returns (r: Result<UpstreamData, HttpError>)
    ensures r == FetchResult(fetch(UpstreamParams(query, categories, engines, timeRange, language, page)))
  {
    var params := BuildParams(query, categories, engines, timeRange, language, page);
    var outcome := fetch(params);
    match outcome
    case Fetched(body) => r := Ok(body);
    case TransportError(m) => r := Err(Unavailable(m));
    case StatusError(m) => r := Err(BadGateway(m));
  }
}
