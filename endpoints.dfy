/** The request handlers `search`, `news_search`, `tech_search` and `image_search`,
    after routing and parameter validation: the API-key gate, the cache lookup, the
    call to the search service and the response they build. Clocks are parameters:
    `now` stands for `time.time()`, `timestamp` for the ISO string of `utcnow()`. */
module Endpoints {
  import opened Wrappers
  import opened HttpErrors
  import opened CacheKeys
  import opened TtlCaches
  import opened Auth
  import opened Upstream
  import opened Shaping

  /** `SearchResponse`, the body of the three search endpoints. */
  datatype SearchResponse = SearchResponse(
    query: string,
    results: seq<SearchResult>,
    total: int,
    cached: bool,
    timestamp: string,
    enginesUsed: set<string>,
    suggestions: seq<string>)

  /** The body of `/images`. */
  datatype ImageResponse = ImageResponse(
    query: string,
    images: seq<ImageResult>,
    total: int,
    timestamp: string)

  /** The `response` dict that a miss builds and stores in the cache. The cache keeps
      the dict itself, so a later hit that sets `"cached"` changes the stored entry. */
  class Envelope {
    var query: string
    var results: seq<SearchResult>
    var total: int
    var cached: bool
    var timestamp: string
    var enginesUsed: set<string>
    var suggestions: seq<string>

    constructor (resp: SearchResponse)
      ensures Snapshot() == resp
    {
      query, results, total, cached := resp.query, resp.results, resp.total, resp.cached;
      timestamp, enginesUsed, suggestions := resp.timestamp, resp.enginesUsed, resp.suggestions;
    }

    /** `SearchResponse(**d)`: the model built from the dict's current contents. */
    function Snapshot(): (resp: SearchResponse)
      reads this
    {
      SearchResponse(query, results, total, cached, timestamp, enginesUsed, suggestions)
    }
  }

  /** The dicts the cache holds; a hit may write to any of them. */
  function Stored(m: map<string, (Envelope, int)>): (envs: set<Envelope>) {
    set k | k in m :: m[k].0
  }

  /** A map that keeps every key other than `ck` still holds every stored dict not under `ck`. */
  lemma StoredOutsideKey(m: map<string, (Envelope, int)>, m2: map<string, (Envelope, int)>, ck: string)
    requires forall k :: k in m && k != ck ==> k in m2 && m2[k] == m[k]
    ensures forall env :: env in Stored(m) && (ck !in m || env != m[ck].0) ==> env in Stored(m2)
  {
    forall env | env in Stored(m) && (ck !in m || env != m[ck].0)
      ensures env in Stored(m2)
    {
      var k :| k in m && m[k].0 == env;
      assert k != ck && m2[k].0 == env;
    }
  }

  /** The response a miss builds from the service's answer and the converted results: not
      marked cached, `total` the service's count or else the number of results, the engines
      the distinct non-empty engine names, and the suggestions as sent (none when missing). */
  function FreshResponse(q: string, results: seq<SearchResult>, data: UpstreamData, timestamp: string): (r: SearchResponse)
    ensures !r.cached && r.query == q && r.results == results && r.timestamp == timestamp
    ensures r.total == if data.numberOfResults.Some? then data.numberOfResults.value else |results|
    ensures forall e :: e in r.enginesUsed <==> e != "" && exists i :: 0 <= i < |results| && results[i].engine == e
    ensures r.suggestions == if data.suggestions.Some? then data.suggestions.value else []
  {
    SearchResponse(q, results, Total(data, results), false, timestamp, EnginesUsed(results), Suggestions(data))
  }

  /** A keyword argument of type `Optional[str]`. */
  function OptText(o: Option<string>): (v: ParamValue) {
    match o
    case None => NoneValue
    case Some(s) => Text(s)
  }

  /** What one cached search did, from the cache before the request to the cache after it.
      The clock is read twice: `now` by the lookup, `storedAt` by the store after the call.
      - a fresh entry for `ck` is returned with `cached` set to true, on the stored dict itself,
        and neither the answer nor the cache depends on the service;
      - otherwise an expired entry for `ck` is dropped and the service is asked with `request`;
        its failure is returned, or a result it sends without title or url fails the request
        with a 500, and in both cases nothing is stored;
      - or a new response with `cached` false is built, stored under `ck` at `storedAt`, and returned.
      No stored dict other than the one a hit returns is changed. After a success the cache
      holds under `ck` the very response returned; after a failure it is as the lookup left it. */
  twostate predicate Served(cache: TtlCache<Envelope>, new ck: string, new fetch: seq<Param> -> FetchOutcome,
                            new request: seq<Param>, new q: string, now: int, storedAt: int,
                            new timestamp: string, new r: Result<SearchResponse, HttpError>): (b: bool)
    reads cache, Stored(cache.entries)
    ensures b && r.Ok? ==> ck in cache.entries && cache.entries[ck].0.Snapshot() == r.value
    ensures b && r.Err? ==> cache.entries == AfterGet(old(cache.entries), ck, now, cache.ttl)
  {
    var m := old(cache.entries);
    var outcome := fetch(request);
    var after := AfterGet(m, ck, now, cache.ttl);
    && (forall env :: env in Stored(m) && (ck !in m || env != m[ck].0) ==>
          env in Stored(cache.entries) && unchanged(env))
    && if Lookup(m, ck, now, cache.ttl).Some? then
         && cache.entries == m
         && m[ck].0.Snapshot() == old(m[ck].0.Snapshot()).(cached := true)
         && r == Ok(m[ck].0.Snapshot())
       else if !outcome.Fetched? then
         r == Err(FetchResult(outcome).error) && cache.entries == after
       else if ToSearchResults(RawResults(outcome.body)).None? then
         r == Err(InternalError()) && cache.entries == after
       else
         && ck in cache.entries
         && fresh(cache.entries[ck].0)
         && cache.entries == AfterSet(after, ck, cache.entries[ck].0, storedAt)
         && r == Ok(FreshResponse(q, ToSearchResults(RawResults(outcome.body)).value, outcome.body, timestamp))
         && cache.entries[ck].0.Snapshot() == r.value
  }

  /** The body the three search endpoints share, from `get_cached(ck)` to `return`. */
  method ServeCached(cache: TtlCache<Envelope>, ck: string, fetch: seq<Param> -> FetchOutcome,
                     q: string, categories: string, engines: Option<string>, timeRange: Option<string>,
                     language: string, page: int, now: int, storedAt: int, timestamp: string)
    returns (r: Result<SearchResponse, HttpError>)
    modifies cache, Stored(cache.entries)
    ensures Served(cache, ck, fetch, UpstreamParams(q, categories, engines, timeRange, language, page),
                   q, now, storedAt, timestamp, r)
  {
    ghost var m := cache.entries;
    var hit := cache.GetCached(ck, now);
    StoredOutsideKey(m, cache.entries, ck);
    if hit.Some? {
      var env := hit.value;
      assert env in Stored(old(cache.entries));
      env.cached := true;
      return Ok(env.Snapshot());
    }
    var data := SearchSearxng(fetch, q, categories, engines, timeRange, language, page);
    if data.Err? {
      return Err(data.error);
    }
    var converted := ToSearchResults(RawResults(data.value));
    if converted.None? {
      return Err(InternalError());
    }
    var resp := FreshResponse(q, converted.value, data.value, timestamp);
    var env := new Envelope(resp);
    cache.SetCached(ck, env, storedAt);
    StoredOutsideKey(m, cache.entries, ck);
    return Ok(env.Snapshot());
  }

  /** The keyword arguments `search` passes to `cache_key`, in call order. */
  function SearchKeyParams(engines: Option<string>, freshness: Option<string>, lang: string, page: int): (ps: seq<Param>)
    ensures DistinctNames(ps)
  {
    [("engines", OptText(engines)), ("freshness", OptText(freshness)), ("lang", Text(lang)),
     ("page", Number(page)), ("cat", Text("general"))]
  }

  /** The keyword arguments `news_search` passes to `cache_key`. */
  function NewsKeyParams(freshness: string, lang: string, page: int): (ps: seq<Param>)
    ensures DistinctNames(ps)
  {
    [("freshness", Text(freshness)), ("lang", Text(lang)), ("page", Number(page)), ("cat", Text("news"))]
  }

  /** The keyword arguments `tech_search` passes to `cache_key`. */
  function TechKeyParams(freshness: Option<string>, page: int): (ps: seq<Param>)
    ensures DistinctNames(ps)
  {
    [("freshness", OptText(freshness)), ("page", Number(page)), ("cat", Text("tech"))]
  }

  /** Whatever the values, the five `/search` names in ascending order. */
  lemma SearchNamesSorted(v0: ParamValue, v1: ParamValue, v2: ParamValue, v3: ParamValue, v4: ParamValue)
    ensures SortedByName([("cat", v0), ("engines", v1), ("freshness", v2), ("lang", v3), ("page", v4)])
  {
    assert StrLess("cat", "engines") && StrLess("engines", "freshness");
    assert StrLess("freshness", "lang") && StrLess("lang", "page");
    assert StrLess("cat", "freshness") && StrLess("cat", "lang") && StrLess("cat", "page");
    assert StrLess("engines", "lang") && StrLess("engines", "page") && StrLess("freshness", "page");
  }

  /** The `/search` key material is the repr of its items in ascending order of name. */
  lemma SearchKeyMaterialSorted(q: string, engines: Option<string>, freshness: Option<string>, lang: string, page: int)
    ensures KeyMaterial(q, SearchKeyParams(engines, freshness, lang, page))
         == q + ":" + ReprItems([("cat", Text("general")), ("engines", OptText(engines)), ("freshness", OptText(freshness)),
                                 ("lang", Text(lang)), ("page", Number(page))])
  {
    var ps := SearchKeyParams(engines, freshness, lang, page);
    var s := [("cat", Text("general")), ("engines", OptText(engines)), ("freshness", OptText(freshness)),
              ("lang", Text(lang)), ("page", Number(page))];
    SearchNamesSorted(s[0].1, s[1].1, s[2].1, s[3].1, s[4].1);
    assert multiset(s) == multiset(ps);
    SortedPermutationsEqual(SortByName(ps), s);
  }

  /** The repr of five items, spelt out. */
  lemma ReprFiveItems(x0: Param, x1: Param, x2: Param, x3: Param, x4: Param)
    ensures ReprItems([x0, x1, x2, x3, x4])
         == "[" + (ReprItem(x0) + ", " + (ReprItem(x1) + ", " + (ReprItem(x2) + ", "
                  + (ReprItem(x3) + ", " + ReprItem(x4))))) + "]"
  {
    JoinedCons(x3, [x4]);
    JoinedCons(x2, [x3, x4]);
    JoinedCons(x1, [x2, x3, x4]);
    JoinedCons(x0, [x1, x2, x3, x4]);
  }

  lemma JoinedCons(x: Param, rest: seq<Param>)
    requires |rest| >= 1
    ensures ReprItemsJoined([x] + rest) == ReprItem(x) + ", " + ReprItemsJoined(rest)
  {
    assert ([x] + rest)[1..] == rest;
  }

  /** Two key strings that agree up to the first character of the third item's value
      and differ there. */
  lemma KeyStringsDiffer(q: string, a0: string, a1: string, name: string, x: string, y: string, r1: string, r2: string)
    requires |x| >= 1 && |y| >= 1 && x[0] != y[0]
    ensures q + ":" + ("[" + (a0 + ", " + (a1 + ", " + (("(" + name + ", " + x + ")") + ", " + r1))) + "]")
         != q + ":" + ("[" + (a0 + ", " + (a1 + ", " + (("(" + name + ", " + y + ")") + ", " + r2))) + "]")
  {
    var i := |q| + 1 + 1 + |a0| + 2 + |a1| + 2 + 1 + |name| + 2;
    assert (q + ":" + ("[" + (a0 + ", " + (a1 + ", " + (("(" + name + ", " + x + ")") + ", " + r1))) + "]"))[i] == x[0];
    assert (q + ":" + ("[" + (a0 + ", " + (a1 + ", " + (("(" + name + ", " + y + ")") + ", " + r2))) + "]"))[i] == y[0];
  }

  /** Two `/search` requests whose `freshness` reprs open with different quotes have
      different key strings, whatever follows. */
  lemma SearchKeysDifferAtFreshness(q: string, engines: Option<string>, page: int,
                                    fa: string, la: string, fb: string, lb: string)
    requires ReprStr(fa)[0] != ReprStr(fb)[0]
    ensures KeyMaterial(q, SearchKeyParams(engines, Some(fa), la, page))
         != KeyMaterial(q, SearchKeyParams(engines, Some(fb), lb, page))
  {
    var c, e := ("cat", Text("general")), ("engines", OptText(engines));
    SearchKeyMaterialSorted(q, engines, Some(fa), la, page);
    SearchKeyMaterialSorted(q, engines, Some(fb), lb, page);
    ReprFiveItems(c, e, ("freshness", Text(fa)), ("lang", Text(la)), ("page", Number(page)));
    ReprFiveItems(c, e, ("freshness", Text(fb)), ("lang", Text(lb)), ("page", Number(page)));
    KeyStringsDiffer(q, ReprItem(c), ReprItem(e), ReprStr("freshness"), ReprStr(fa), ReprStr(fb),
                     ReprItem(("lang", Text(la))) + ", " + ReprItem(("page", Number(page))),
                     ReprItem(("lang", Text(lb))) + ", " + ReprItem(("page", Number(page))));
  }

  /** Two `/search` requests whose key strings would coincide if strings were always
      single-quoted get different key strings: `freshness="day'), ('lang', 'en"` with
      `lang="fr"`, against `freshness="day"` with `lang="en'), ('lang', 'fr"`. */
  lemma SearchKeysKeptApart(q: string, engines: Option<string>, page: int)
    ensures KeyMaterial(q, SearchKeyParams(engines, Some("day'), ('lang', 'en"), "fr", page))
         != KeyMaterial(q, SearchKeyParams(engines, Some("day"), "en'), ('lang', 'fr", page))
  {
    assert '\'' in "day'), ('lang', 'en" && '"' !in "day'), ('lang', 'en";
    assert '\'' !in "day";
    SearchKeysDifferAtFreshness(q, engines, page, "day'), ('lang', 'en", "fr", "day", "en'), ('lang', 'fr");
  }

  /** The engines `tech_search` always asks for. */
  const TechEngines: string := "github,stackoverflow,hackernews,google"

  /** `GET /search`: general web search. */
  method Search(cache: TtlCache<Envelope>, md5: string -> Digest, fetch: seq<Param> -> FetchOutcome,
                apiKeys: seq<string>, apiKey: Option<string>,
                q: string, engines: Option<string>, freshness: Option<string>, lang: string, page: int,
                now: int, storedAt: int, timestamp: string)
    returns (r: Result<SearchResponse, HttpError>)
    modifies cache, Stored(cache.entries)
    ensures VerifyApiKey(apiKeys, apiKey).Err? ==>
              r == Err(Unauthorized()) && cache.entries == old(cache.entries)
              && unchanged(Stored(old(cache.entries)))
    ensures VerifyApiKey(apiKeys, apiKey).Ok? ==>
              Served(cache, CacheKey(md5, q, SearchKeyParams(engines, freshness, lang, page)), fetch,
                     UpstreamParams(q, "general", engines, freshness, lang, page), q, now, storedAt, timestamp, r)
  {
    var auth := VerifyApiKey(apiKeys, apiKey);
    if auth.Err? {
      return Err(auth.error);
    }
    var ck := CacheKey(md5, q, SearchKeyParams(engines, freshness, lang, page));
    r := ServeCached(cache, ck, fetch, q, "general", engines, freshness, lang, page, now, storedAt, timestamp);
  }

  /** `GET /news`: news search; `freshness` defaults to `"day"` in the route. */
  method NewsSearch(cache: TtlCache<Envelope>, md5: string -> Digest, fetch: seq<Param> -> FetchOutcome,
                    apiKeys: seq<string>, apiKey: Option<string>,
                    q: string, freshness: string, lang: string, page: int,
                    now: int, storedAt: int, timestamp: string)
    returns (r: Result<SearchResponse, HttpError>)
    modifies cache, Stored(cache.entries)
    ensures VerifyApiKey(apiKeys, apiKey).Err? ==>
              r == Err(Unauthorized()) && cache.entries == old(cache.entries)
              && unchanged(Stored(old(cache.entries)))
    ensures VerifyApiKey(apiKeys, apiKey).Ok? ==>
              Served(cache, CacheKey(md5, q, NewsKeyParams(freshness, lang, page)), fetch,
                     UpstreamParams(q, "news", None, Some(freshness), lang, page), q, now, storedAt, timestamp, r)
  {
    var auth := VerifyApiKey(apiKeys, apiKey);
    if auth.Err? {
      return Err(auth.error);
    }
    var ck := CacheKey(md5, q, NewsKeyParams(freshness, lang, page));
    r := ServeCached(cache, ck, fetch, q, "news", None, Some(freshness), lang, page, now, storedAt, timestamp);
  }

  /** `GET /tech`: search over fixed developer-oriented engines, language left at `"en"`. */
  method TechSearch(cache: TtlCache<Envelope>, md5: string -> Digest, fetch: seq<Param> -> FetchOutcome,
                    apiKeys: seq<string>, apiKey: Option<string>,
                    q: string, freshness: Option<string>, page: int,
                    now: int, storedAt: int, timestamp: string)
    returns (r: Result<SearchResponse, HttpError>)
    modifies cache, Stored(cache.entries)
    ensures VerifyApiKey(apiKeys, apiKey).Err? ==>
              r == Err(Unauthorized()) && cache.entries == old(cache.entries)
              && unchanged(Stored(old(cache.entries)))
    ensures VerifyApiKey(apiKeys, apiKey).Ok? ==>
              Served(cache, CacheKey(md5, q, TechKeyParams(freshness, page)), fetch,
                     UpstreamParams(q, "it", Some(TechEngines), freshness, "en", page), q, now, storedAt, timestamp, r)
  {
    var auth := VerifyApiKey(apiKeys, apiKey);
    if auth.Err? {
      return Err(auth.error);
    }
    var ck := CacheKey(md5, q, TechKeyParams(freshness, page));
    r := ServeCached(cache, ck, fetch, q, "it", Some(TechEngines), freshness, "en", page, now, storedAt, timestamp);
  }

  /** `GET /images`: not cached; one image entry per result, `total` their number. */
  method ImageSearch(fetch: seq<Param> -> FetchOutcome, apiKeys: seq<string>, apiKey: Option<string>,
                     q: string, page: int, timestamp: string)
    returns (r: Result<ImageResponse, HttpError>)
    ensures VerifyApiKey(apiKeys, apiKey).Err? ==> r == Err(Unauthorized())
    ensures VerifyApiKey(apiKeys, apiKey).Ok? ==>
              var outcome := fetch(UpstreamParams(q, "images", None, None, "en", page));
              && (!outcome.Fetched? ==> r == Err(FetchResult(outcome).error))
              && (outcome.Fetched? ==>
                    var raw := RawResults(outcome.body);
                    && r.Ok?
                    && r.value.query == q && r.value.timestamp == timestamp
                    && |r.value.images| == |raw| == r.value.total
                    && forall i :: 0 <= i < |raw| ==> r.value.images[i] == ImageOf(raw[i]))
  {
    var auth := VerifyApiKey(apiKeys, apiKey);
    if auth.Err? {
      return Err(auth.error);
    }
    var data := SearchSearxng(fetch, q, "images", None, None, "en", page);
    if data.Err? {
      return Err(data.error);
    }
    var images := MapImages(RawResults(data.value));
    return Ok(ImageResponse(q, images, |images|, timestamp));
  }
}
