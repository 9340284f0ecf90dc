# ClawSearch core, modelled in Dafny

ClawSearch is a small REST gateway in front of a SearXNG meta-search instance
(`clawsearch/main.py`). This project models the logic it adds on top of the
HTTP plumbing, and proves properties of that model:

- **Cache keys** (`cache_key.dfy`, module `CacheKeys`). `cache_key(query, **params)`
  hashes `f"{query}:{sorted(params.items())}"`. The model covers three parts:
  - Python's `<` on strings.
  - `sorted` over items with distinct names, written as an insertion sort that is
    proved sorted and a permutation.
  - The `repr` of the sorted list.

  MD5's `hexdigest` is a parameter `md5: string -> Digest`, where a `Digest` is
  32 lower-case hex digits. The main result is that two sorted permutations of
  the same items are equal. It follows that the key material, and so the key,
  does not depend on the order of the keyword arguments, whatever the hash.
- **TTL cache** (`ttl_cache.dfy`, module `TtlCaches`). The module-level dict
  `_cache` becomes a class `TtlCache<D>`. It holds a `map<string, (D, int)>` that
  `GetCached` and `SetCached` update in place, as `get_cached`/`set_cached` do.
  `CACHE_TTL` is the class's `ttl`, and the clock is the parameter `now`. Each
  method is specified by a pure function on the map (`Lookup`, `AfterGet`,
  `AfterSet`), and the lemmas state expiry, lazy deletion, "nothing else changes"
  and read-after-write.
- **API-key gate** (`auth.dfy`, module `Auth`). The file models two things:
  - `str.split(",")` of `CLAWSEARCH_API_KEYS`, with its round trip against
    `",".join`;
  - `verify_api_key` as a `Result`, with the 401 as its error.

  The lemmas cover an unset variable (`[""]`, auth off), a configured list, empty
  pieces and keys that contain commas.
- **Upstream request** (`upstream.dfy`, module `Upstream`). `BuildParams` builds
  `search_searxng`'s `params` dict step by step and is proved equal to the
  specification `UpstreamParams`. A lemma then states which names it holds, and
  when. The HTTP call is the parameter `fetch`, mapping the parameter list to a
  `FetchOutcome`. The `try`/`except` maps transport failures to 503 and failure
  statuses to 502.
- **Response shaping** (`shaping.dfy`, module `Shaping`). It covers:
  - `SearchResult(**r)`, which fails when `title` or `url` is missing;
  - `engines_used`;
  - `total`;
  - the image-mapping loop of `image_search`.
- **Endpoints** (`endpoints.dfy`, module `Endpoints`). These are `search`,
  `news_search`, `tech_search` and `image_search` after routing. Every one runs
  the API-key gate first. The three search endpoints then:
  - compute the endpoint's own cache key;
  - make the cache lookup;
  - on a miss, call the service with the endpoint's own parameters, giving the
    error or the response it builds, which is then stored.

  `image_search` calls the service with its own parameters and caches nothing.

  The response dict the cache stores is an `Envelope` object kept by reference.
  So, as in the source, a hit sets `cached` to `True` on the stored dict itself
  and not on a copy. The twostate predicate `Served` specifies one cached request
  completely: a hit, an upstream failure, a failed conversion, or a store, and that no
  other stored response changes. The clock is read twice, as in the source: `now` at
  the lookup and `storedAt` when the new entry is stored after the
  service has answered.

Wrappers (`Option`, `Result`) and the HTTP errors the service raises are in
`wrappers.dfy`.

## Model

| member | source | states |
|---|---|---|
| CacheKeys.StrLessIsFirstDifference | clawsearch/main.py:96 | The recursive `StrLess` is Python's `<` on `str`: `a < b` exactly when the strings first differ at a position where `a` has the smaller character, or `a` is a proper prefix of `b`. |
| CacheKeys.StrLessIrreflexive | clawsearch/main.py:96 | No string sorts before itself under Python's `<` on `str`. |
| CacheKeys.StrLessTransitive | clawsearch/main.py:96 | Python's string `<` is transitive. |
| CacheKeys.StrLessAsymmetric | clawsearch/main.py:96 | If `a < b` then not `b < a`. |
| CacheKeys.StrLessTotal | clawsearch/main.py:96 | Any two different strings are ordered one way or the other, so `sorted` on distinct names has one answer. |
| CacheKeys.Insert | clawsearch/main.py:96 | Inserting an item whose name is new into a list sorted by name gives a sorted list holding exactly the old items plus the new one. |
| CacheKeys.SortByName | clawsearch/main.py:96 | `sorted(params.items())` on distinct names is strictly ascending by name and a permutation of the items. |
| CacheKeys.SortedPermutationsEqual | clawsearch/main.py:96 | Two lists strictly sorted by name with the same items (as multisets) are equal. |
| CacheKeys.Digits | clawsearch/main.py:96 | The decimal numeral of a natural number: digits only, no leading zero, and it denotes the number. |
| CacheKeys.ReprInt | clawsearch/main.py:96 | `repr` of an `int` is a minus sign exactly for negative numbers, followed by the numeral of the absolute value. |
| CacheKeys.ReprStr | clawsearch/main.py:96 | `repr` of a `str` opens and closes with the same quote: a double quote exactly when the string holds a single quote and no double quote, a single quote otherwise. |
| CacheKeys.ReprStrReadsBack | clawsearch/main.py:96 | Between the quotes of `repr(s)` every backslash and every occurrence of the chosen quote opens a two-character escape, and reading the escapes back gives `s`. |
| CacheKeys.ReprStrInjective | clawsearch/main.py:96 | Different strings have different reprs. |
| CacheKeys.ReprStrPlain | clawsearch/main.py:96 | A string with no quote and no backslash is written as itself between single quotes. |
| CacheKeys.ReprValue | clawsearch/main.py:96 | `repr` of a value is `None` exactly for `None` and starts with a single or double quote exactly for a string, so the three kinds never look alike. |
| CacheKeys.ReprItem | clawsearch/main.py:96 | `repr` of a `(name, value)` tuple is parenthesised. |
| CacheKeys.ReprItems | clawsearch/main.py:96 | `repr` of the item list is bracketed, and is `[]` exactly for the empty list. |
| CacheKeys.KeyMaterial | clawsearch/main.py:96 | The hashed string is the query, a colon and the repr of the items arranged strictly ascending by name. |
| CacheKeys.CacheKey | clawsearch/main.py:94-97 | The key is the hash of the query, a colon and the repr of the items arranged strictly ascending by name. |
| CacheKeys.KeyMaterialOrderIndependent | clawsearch/main.py:94-96 | The hashed string `"{query}:{sorted(items)}"` is the same for any two orders of the same keyword arguments. |
| CacheKeys.CacheKeyOrderIndependent | clawsearch/main.py:94-97 | `cache_key` returns the same digest for the same query and the same keyword arguments in any order, for every hash function. |
| CacheKeys.WeatherKeyIgnoresOrder | clawsearch/main.py:94-97 | `cache_key("weather", engines=None, page=1)` equals `cache_key("weather", page=1, engines=None)`. |
| CacheKeys.WeatherKeyMaterial | clawsearch/main.py:96 | The string hashed for `cache_key("weather", page=1, engines=None)` is `weather:[('engines', None), ('page', 1)]`. |
| TtlCaches.TtlCache.constructor | clawsearch/main.py:23-26 | The cache starts empty, with its TTL fixed at start-up. |
| TtlCaches.TtlCache.GetCached | clawsearch/main.py:100-107 | Returns the stored data when the key is present and `now - ts < ttl`, else nothing. The new map drops the key exactly when it was present and expired. |
| TtlCaches.TtlCache.SetCached | clawsearch/main.py:110-112 | The new map is the old one with `key` bound to `(data, now)`. |
| TtlCaches.Lookup | clawsearch/main.py:100-107 | A read succeeds if and only if the key is present and `now - ts < ttl`, and then it returns the stored data. |
| TtlCaches.AfterGet | clawsearch/main.py:102-107 | A read removes exactly the expired key it looked up, leaves every other entry as it was, and leaves the map untouched for a missing key. |
| TtlCaches.AfterSet | clawsearch/main.py:110-112 | `set_cached` adds or overwrites `key` with `(data, now)` and keeps every other entry. |
| TtlCaches.ExpiryIsPermanent | clawsearch/main.py:104-106 | An entry expired at `t` is not served at any later time, whether or not the read at `t` deleted it. |
| TtlCaches.GetIsIdempotent | clawsearch/main.py:100-107 | A read changes what no key reads as at that moment, and repeating it changes nothing more. |
| TtlCaches.SetThenGet | clawsearch/main.py:100-112 | After a write at `t`, reading `key` at `now` gives the data exactly while `now - t < ttl`; other keys read as before. |
| TtlCaches.SetThenGetSameMoment | clawsearch/main.py:100-112 | With `ttl > 0`, a read at the moment of writing returns the data written and deletes nothing. |
| TtlCaches.NonPositiveTtlDisablesCache | clawsearch/main.py:104 | With a TTL of 0 or less, nothing written is ever served at the same or a later time. |
| TtlCaches.ExpiryScenario | clawsearch/main.py:100-112 | The class in use: a new cache with the default TTL, written at `t`; a read at `t + 299` returns the data, a read at `t + 301` returns nothing and leaves the cache empty. |
| TtlCaches.DefaultTtlWindow | clawsearch/main.py:23 | With the default TTL of 300, an entry is served 299 seconds after writing and not at 300 or 301. |
| Auth.Split | clawsearch/main.py:22 | `str.split(",")` gives at least one piece, and no piece contains a comma. |
| Auth.JoinSplit | clawsearch/main.py:22 | Joining the pieces of a split with commas gives back the string. |
| Auth.SplitJoin | clawsearch/main.py:22 | Splitting the comma-join of comma-free pieces gives back the pieces. |
| Auth.SplitCommaFree | clawsearch/main.py:22 | A string without commas splits into itself alone. |
| Auth.SplitIsEmptyPieceIff | clawsearch/main.py:22 | The split is `[""]` if and only if the variable's value is empty. |
| Auth.ApiKeysFromEnv | clawsearch/main.py:22 | `API_KEYS` is `[""]` when the variable is unset, and otherwise the comma-free pieces whose comma-join is the variable's value, which by `SplitJoin` is exactly `.split(",")`. |
| Auth.AuthDisabled | clawsearch/main.py:85 | No allow-list is configured exactly when the list has at most one entry and that entry is empty. |
| Auth.VerifyApiKey | clawsearch/main.py:83-89 | The gate either lets the request through or raises the 401 "Invalid or missing API key"; there is no third outcome. |
| Auth.ConfiguredGate | clawsearch/main.py:85-89 | With a configured list, a request passes if and only if its key is present, non-empty and on the list. |
| Auth.UnsetVariableDisablesAuth | clawsearch/main.py:22-86 | An unset or empty `CLAWSEARCH_API_KEYS` gives `[""]`, and every request passes, with or without a key. |
| Auth.ConfiguredVariableGate | clawsearch/main.py:22-89 | With a non-empty variable, a request passes if and only if its key is a non-empty piece of the variable. |
| Auth.EmptyPieceAdmitsNoEmptyKey | clawsearch/main.py:85-89 | With a non-empty variable, a missing or empty key is rejected even when the list holds an empty piece. |
| Auth.KeyWithCommaRejected | clawsearch/main.py:22-89 | With a non-empty variable, a key containing a comma gets the 401. |
| Auth.ConfiguredKeysPass | clawsearch/main.py:22-89 | With auth on, every non-empty key written into the variable passes the gate. |
| Upstream.Truthy | clawsearch/main.py:135-137 | An optional string is truthy exactly when it is neither `None` nor `""`. |
| Upstream.UpstreamParams | clawsearch/main.py:127-138 | The parameters start with the five fixed ones, in the literal's order, and have one more for each truthy option. |
| Upstream.BuildParams | clawsearch/main.py:127-138 | Building the dict by a literal and two conditional additions gives the specified parameter list. |
| Upstream.LookupInFixed | clawsearch/main.py:127-133 | The fixed part binds `q`, `format="json"`, `categories`, `language` and `pageno`, whatever follows it. |
| Upstream.LookupPastFixed | clawsearch/main.py:127-138 | Any other name is looked up in what follows the fixed part. |
| Upstream.UpstreamParamsContents | clawsearch/main.py:127-138 | Every request carries the five fixed parameters first. It carries `engines` and `time_range` exactly when those arguments are truthy, and then with their values. It holds no other names and no repeats, and its length is 5 plus one per truthy option. |
| Upstream.FetchResult | clawsearch/main.py:142-150 | A fetched body is returned as it is. A transport failure becomes 503 "SearXNG unavailable: …" and a failure status becomes 502 "SearXNG error: …". |
| Upstream.SearchSearxng | clawsearch/main.py:117-150 | The service is asked with exactly the specified parameters, and its outcome is mapped to data or the 503/502 error. |
| Shaping.RawResults | clawsearch/main.py:213 | `data.get("results", [])`: the service's results when the key is present, the empty list otherwise. |
| Shaping.Suggestions | clawsearch/main.py:223 | `data.get("suggestions", [])`: the service's suggestions when the key is present, the empty list otherwise. |
| Shaping.ToSearchResults | clawsearch/main.py:213 | The conversion succeeds if and only if every result has a `title` and a `url`. It then converts each result in order, one for one. |
| Shaping.ToSearchResult | clawsearch/main.py:49-56 | One result converts exactly when it has a `title` and a `url`. It keeps `title`, `url` and `publishedDate`, and `snippet` and `engine` default to `""`. |
| Shaping.EnginesUsed | clawsearch/main.py:214 | A name is in `engines_used` if and only if it is non-empty and some result has it as its engine; there are at most as many names as results. |
| Shaping.Total | clawsearch/main.py:219 | `total` is `number_of_results` whenever the service sends it, and the number of results otherwise. |
| Shaping.ImageOf | clawsearch/main.py:337-343 | An image entry's thumbnail is `thumbnail`, else `img_src`, else `""`; title, url, source and engine default to `""`. |
| Shaping.MapImages | clawsearch/main.py:335-343 | The loop yields one image entry per upstream result, in order, each the mapping of its result. |
| Endpoints.Envelope.constructor | clawsearch/main.py:216-224 | The stored response dict holds exactly the response built. |
| Endpoints.FreshResponse | clawsearch/main.py:216-224 | The response a miss builds is not marked cached. It carries the query, the converted results and the timestamp. Its `total` is the service's count, or else the number of results. Its engines are exactly the distinct non-empty engine names, and its suggestions are as sent, or none. |
| Endpoints.Served | clawsearch/main.py:196-227 | After a successful request, the cache holds under the key the very response returned. After a failed one, the cache is as the lookup left it. |
| Endpoints.ServeCached | clawsearch/main.py:196-227 | The request behaves as `Served` states. A fresh hit returns the stored dict, now marked `cached`, and neither the answer nor the new cache depends on the service. Otherwise an expired entry is dropped and the service is asked. Its error, or a 500 for an invalid result, is returned and nothing is stored. On success a new response with `cached` false is stored under the key, stamped with the second clock reading `storedAt`, and returned. No other stored dict changes. |
| Endpoints.SearchKeyParams | clawsearch/main.py:196 | The keyword arguments of the `/search` key never repeat a name. |
| Endpoints.NewsKeyParams | clawsearch/main.py:243 | The keyword arguments of the `/news` key never repeat a name. |
| Endpoints.TechKeyParams | clawsearch/main.py:286 | The keyword arguments of the `/tech` key never repeat a name. |
| Endpoints.SearchKeysDifferAtFreshness | clawsearch/main.py:196 | Two `/search` requests whose `freshness` strings are repr'd with different quotes have different key strings, whatever their other arguments. |
| Endpoints.SearchKeysKeptApart | clawsearch/main.py:196 | `freshness="day'), ('lang', 'en"` with `lang="fr"` and `freshness="day"` with `lang="en'), ('lang', 'fr"` give different key strings, although under plain single quoting they would coincide. |
| Endpoints.Search | clawsearch/main.py:181-227 | A rejected key gives the 401 and changes nothing. Otherwise the request is served as `Served` states (no other stored response changes) from the cache under the key of `(q, engines, freshness, lang, page, cat="general")`, or from the service asked with categories `general`, the given engines and time range, and the language. |
| Endpoints.NewsSearch | clawsearch/main.py:230-271 | It gives the 401 and changes nothing when rejected. Otherwise it is served as `Served` states (no other stored response changes) under the key of `(q, freshness, lang, page, cat="news")`, asking the service with categories `news`, no engines and time range `freshness`. |
| Endpoints.TechSearch | clawsearch/main.py:274-314 | It gives the 401 and changes nothing when rejected. Otherwise it is served as `Served` states (no other stored response changes) under the key of `(q, freshness, page, cat="tech")`, asking the service with categories `it`, the four fixed engines, time range `freshness` and language `en`. |
| Endpoints.ImageSearch | clawsearch/main.py:317-350 | The 401 when rejected; otherwise the service is asked for `images` in `en` and its error is passed on. A successful answer becomes one image entry per result, with `total` equal to their number. |

## Left out

- CacheKeys.ReprStr: Python's choice of quote and its backslash before `\` and before the chosen quote are modelled. Its escapes for control characters (`\n`, `\t`, `\xNN`) and for non-printable characters are not: the model writes those characters as themselves. The model's key strings therefore differ in spelling from Python's for such strings. Each string's repr still reads back as that string (`ReprStrReadsBack`), so different strings keep different reprs.
- MD5 itself is a parameter. Nothing is claimed about collisions.
- `urlencode`, `SEARXNG_URL`, the `httpx` client and its 30-second timeout are not modelled. The service is the parameter `fetch`, which sees the parameter list that would be encoded.
- Clocks are parameters. The two `time.time()` readings of a cached search are integers: `now` for the lookup and `storedAt` for the store. Nothing orders them, since a wall clock can be set back between the two. They are not floats. The `utcnow()` ISO string is a `timestamp` parameter.
- Reading `CLAWSEARCH_CACHE_TTL` with `int(...)` is not modelled. The cache takes its TTL as an integer, and `DefaultTtl` is the 300 used when the variable is unset.
- The environment lookup itself is not modelled: `ApiKeysFromEnv` takes the variable's value as an `Option`.
- `GET /` (main.py:155-158) and `GET /health` (main.py:161-178) are not modelled. They are plain I/O with no logic to prove.
- FastAPI routing, `Query` validation (`min_length`, `ge`/`le`), `Depends`/`Header` injection, CORS and the uvicorn start-up are framework plumbing and left out. Queries and pages reach the model as given.
- Pydantic is modelled only by what the endpoints rely on. A result without `title` or `url` makes the request fail with a 500. Model validation of wrong JSON types, JSON `null` in a field and the `populate_by_name` spellings (`snippet`, `published`) are not modelled.
- The `score: float` field is left out, since floating point is not modelled.
- Shaping.EnginesUsed: the result is a set. `list(set(...))` gives the same names in an order Python does not fix, and that order is not modelled.
- The check `if cached:` is modelled as "an entry was found". A stored response dict is never empty, so the two agree.
- Shaping.RawResults: a JSON `null` for `results`, `suggestions` or `number_of_results` is modelled as a missing key, which it is not in the source. A null `results` makes the loops at main.py:213 and main.py:336 raise, giving a 500. A null `suggestions` or `number_of_results` makes `SearchResponse(**response)` at main.py:227 fail after `set_cached` at main.py:226 has stored the dict, so every hit within the TTL fails with a 500 too. This is not modelled.
- Upstream.FetchResult: a 2xx body that is not JSON, or JSON that is not an object, is not modelled. `resp.json()` at main.py:146 and `data.get` at main.py:213 would raise there, and the request would end in a 500. `Fetched` carries an already-decoded object.
- Endpoints.ImageSearch: a service answer whose `results` entries are not objects is not modelled. Every entry is a record of optional strings.
- Concurrent requests interleaving on `_cache` are not modelled. `await search_searxng(...)` at main.py:203, main.py:249 and main.py:292 yields between `get_cached` and `set_cached`, and another request can delete or store entries in that gap. `Served`'s statement that the cache afterwards is `AfterSet(AfterGet(m, …), …)` therefore holds for a request that runs alone.
- The comment at main.py:25 mentions Redis. The code has only the in-process dict, and so does the model.
- No member covers a sequence of whole requests, such as "a second identical search within the TTL is a hit". `Served`, `SetThenGet` and `SetThenGetSameMoment` together state it, one request at a time.
