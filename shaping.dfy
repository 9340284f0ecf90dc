/** Shaping the search service's JSON into the API's results: the
    `SearchResult(**r)` conversion, `engines_used`, `total`, and the image mapping
    of `image_search`. */
module Shaping {
  import opened Wrappers

  /** One object of the service's `results` array. Each field is absent or a string;
      a JSON `null` in a field is not modelled. */
  datatype RawResult = RawResult(
    title: Option<string>,
    url: Option<string>,
    content: Option<string>,
    engine: Option<string>,
    publishedDate: Option<string>,
    thumbnail: Option<string>,
    imgSrc: Option<string>,
    source: Option<string>)

  /** The service's JSON answer, with the three keys the endpoints read. */
  datatype UpstreamData = UpstreamData(
    results: Option<seq<RawResult>>,
    numberOfResults: Option<int>,
    suggestions: Option<seq<string>>)

  /** The `SearchResult` model: `snippet` is filled from `content`, `published` from `publishedDate`. */
  datatype SearchResult = SearchResult(
    title: string,
    url: string,
    snippet: string,
    engine: string,
    published: Option<string>)

  /** One entry of the `images` list. */
  datatype ImageResult = ImageResult(
    title: string,
    url: string,
    thumbnail: string,
    source: string,
    engine: string)

  /** `data.get("results", [])`. */
  function RawResults(d: UpstreamData): (raw: seq<RawResult>)
    ensures d.results.Some? ==> raw == d.results.value
    ensures d.results.None? ==> raw == []
  {
    d.results.GetOr([])
  }

  /** `data.get("suggestions", [])`. */
  function Suggestions(d: UpstreamData): (s: seq<string>)
    ensures d.suggestions.Some? ==> s == d.suggestions.value
    ensures d.suggestions.None? ==> s == []
  {
    d.suggestions.GetOr([])
  }

  /** The fields `SearchResult` cannot do without. */
  predicate HasRequiredFields(r: RawResult) {
    r.title.Some? && r.url.Some?
  }

  /** `SearchResult(**r)`; `None` where validation raises because `title` or `url` is missing.
      A result keeps `title`, `url` and `publishedDate`; `snippet` and `engine` default to `""`. */
  function ToSearchResult(r: RawResult): (res: Option<SearchResult>)
    ensures res.Some? <==> HasRequiredFields(r)
    ensures res.Some? ==> res.value.title == r.title.value && res.value.url == r.url.value
    ensures res.Some? ==> res.value.snippet == if r.content.Some? then r.content.value else ""
    ensures res.Some? ==> res.value.engine == if r.engine.Some? then r.engine.value else ""
    ensures res.Some? ==> res.value.published == r.publishedDate
  {
    if HasRequiredFields(r) then
      Some(SearchResult(r.title.value, r.url.value, r.content.GetOr(""), r.engine.GetOr(""), r.publishedDate))
    else None
  }

  /** `[SearchResult(**r) for r in raw]`: every result converted, in order, or `None`
      when any one of them fails validation. */
  function ToSearchResults(raw: seq<RawResult>): (r: Option<seq<SearchResult>>)
    ensures r.Some? <==> forall i :: 0 <= i < |raw| ==> HasRequiredFields(raw[i])
    ensures r.Some? ==> |r.value| == |raw|
    ensures r.Some? ==> forall i :: 0 <= i < |raw| ==> ToSearchResult(raw[i]) == Some(r.value[i])
    decreases |raw|
  {
    if raw == [] then Some([])
    else
      var head, rest := ToSearchResult(raw[0]), ToSearchResults(raw[1..]);
      assert forall i :: 1 <= i < |raw| ==> raw[i] == raw[1..][i - 1];
      if head.Some? && rest.Some? then Some([head.value] + rest.value) else None
  }

  /** `set(r.engine for r in results if r.engine)`: the distinct non-empty engine names.
      `list(...)` of it has no duplicates and no particular order, so it is kept as a set. */
  function EnginesUsed(results: seq<SearchResult>): (r: set<string>)
    ensures forall e :: e in r <==> e != "" && exists i :: 0 <= i < |results| && results[i].engine == e
    ensures |r| <= |results|
    decreases |results|
  {
    if results == [] then {}
    else
      var rest := EnginesUsed(results[1..]);
      assert forall i :: 1 <= i < |results| ==> results[i] == results[1..][i - 1];
      (if results[0].engine != "" then {results[0].engine} else {}) + rest
  }

  /** `data.get("number_of_results", len(results))`: the service's count whenever it sends
      one, even 0 with results present, and the number of results only when the key is missing. */
  function Total(d: UpstreamData, results: seq<SearchResult>): (r: int)
    ensures d.numberOfResults.Some? ==> r == d.numberOfResults.value
    ensures d.numberOfResults.None? ==> r == |results|
  {
    d.numberOfResults.GetOr(|results|)
  }

  /** The dict built for one image result. The thumbnail is `thumbnail` if present, else
      `img_src`, else empty; the other fields default to the empty string. */
  function ImageOf(r: RawResult): (img: ImageResult)
    ensures img.thumbnail
         == if r.thumbnail.Some? then r.thumbnail.value
            else if r.imgSrc.Some? then r.imgSrc.value
            else ""
    ensures img.title == (if r.title.Some? then r.title.value else "")
    ensures img.url == (if r.url.Some? then r.url.value else "")
    ensures img.source == (if r.source.Some? then r.source.value else "")
    ensures img.engine == (if r.engine.Some? then r.engine.value else "")
  {
    ImageResult(
      r.title.GetOr(""),
      r.url.GetOr(""),
      r.thumbnail.GetOr(r.imgSrc.GetOr("")),
      r.source.GetOr(""),
      r.engine.GetOr(""))
  }

  /** The `for` loop of `image_search` that appends one entry per result. */
  method MapImages(raw: seq<RawResult>) returns (images: seq<ImageResult>)
    ensures |images| == |raw|
    ensures forall i :: 0 <= i < |raw| ==> images[i] == ImageOf(raw[i])
  {
    images := [];
    for i := 0 to |raw|
      invariant |images| == i
      invariant forall j :: 0 <= j < i ==> images[j] == ImageOf(raw[j])
    {
      images := images + [ImageOf(raw[i])];
    }
  }
}
