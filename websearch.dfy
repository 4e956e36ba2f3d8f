/**
 * `SearchService.search_places`: the web query built for each kind of
 * search, the request sent to the search API, and the first five organic
 * results turned into typed result records. The HTTP request itself is the
 * `fetch` parameter.
 */
module WebSearch {
  import opened Wrappers
  import opened Text

  /** How many results the service asks for and keeps. */
  const ResultLimit: nat := 5

  /** Kinds of search that send a `location` along with the query. */
  predicate UsesLocation(searchType: string) {
    searchType == "hotels" || searchType == "restaurants" || searchType == "attractions"
  }

  /** Kinds of search whose web query adds words to the user's query. */
  predicate HasQueryTemplate(searchType: string) {
    UsesLocation(searchType) || searchType == "flights" || searchType == "products" || searchType == "shopping"
  }

  /**
   * The web query for a kind of search: place searches show the location,
   * and an unknown kind searches for the query as it is. `location` is ""
   * when absent.
   */
  function SearchQuery(query: string, searchType: string, location: string): (r: string)
    ensures UsesLocation(searchType) ==> Contains(r, location)
    ensures !HasQueryTemplate(searchType) ==> r == query
  {
    ContainsSelf(location);
    ContainsInRight("hotels in ", location, location);
    ContainsInLeft("hotels in " + location, " ", location);
    ContainsInLeft("hotels in " + location + " ", query, location);
    ContainsInRight("restaurants " + query + " ", location, location);
    ContainsInRight("tourist attractions " + query + " ", location, location);
    if searchType == "hotels" then "hotels in " + location + " " + query
    else if searchType == "restaurants" then "restaurants " + query + " " + location
    else if searchType == "attractions" then "tourist attractions " + query + " " + location
    else if searchType == "flights" then "flights " + query
    else if searchType == "products" then "buy " + query + " online shopping"
    else if searchType == "shopping" then query + " price compare buy online"
    else query
  }

  /** Whatever the kind of search, the user's query is part of the web query. */
  lemma {:induction false} QueryIsSearched(query: string, searchType: string, location: string)
    ensures Contains(SearchQuery(query, searchType, location), query)
  {
    ContainsSelf(query);
    if searchType == "hotels" {
      ContainsInRight("hotels in " + location + " ", query, query);
    } else if searchType == "restaurants" {
      ContainsInRight("restaurants ", query, query);
      ContainsInLeft("restaurants " + query, " ", query);
      ContainsInLeft("restaurants " + query + " ", location, query);
    } else if searchType == "attractions" {
      ContainsInRight("tourist attractions ", query, query);
      ContainsInLeft("tourist attractions " + query, " ", query);
      ContainsInLeft("tourist attractions " + query + " ", location, query);
    } else if searchType == "flights" {
      ContainsInRight("flights ", query, query);
    } else if searchType == "products" {
      ContainsInRight("buy ", query, query);
      ContainsInLeft("buy " + query, " online shopping", query);
    } else if searchType == "shopping" {
      ContainsInLeft(query, " price compare buy online", query);
    }
  }

  /** The parameters of the search API request (engine "google" and the API key are fixed). */
  datatype SerpRequest = SerpRequest(q: string, num: nat, location: Option<string>)

  /** The request for a search: five results, and the location only for place searches that have one. */
  function RequestFor(query: string, searchType: string, location: string): (r: SerpRequest)
    ensures r.q == SearchQuery(query, searchType, location) && r.num == ResultLimit
    ensures r.location.Some? <==> UsesLocation(searchType) && location != ""
    ensures r.location.Some? ==> r.location.value == location
  {
    SerpRequest(SearchQuery(query, searchType, location), ResultLimit,
      if UsesLocation(searchType) && location != "" then Some(location) else None)
  }

  /** One organic result of the API response; a missing key reads as "". */
  datatype OrganicResult = OrganicResult(title: string, link: string, snippet: string)

  /** What the search API call gives: the organic results (none when the key is missing), or an exception's text. */
  datatype FetchOutcome = Fetched(organic: seq<OrganicResult>) | FetchFailed(message: string)

  /** A processed result; `priceInfo` is present only in product results. */
  datatype WebResult = WebResult(title: string, link: string, snippet: string, kind: string, priceInfo: Option<string>)

  /** The service's answer: the results with their list kind, or `{"error": ...}`. */
  datatype SearchResponse = Found(results: seq<WebResult>, kind: string) | SearchError(error: string)

  const NotConfiguredText: string := "Search service not configured"
  const FailedPrefix: string := "Search failed: "

  predicate IsProductSearch(searchType: string) {
    searchType == "products" || searchType == "shopping"
  }

  /** The `type` of each result of a kind of search. */
  function ItemKind(searchType: string): string {
    if searchType == "hotels" then "hotel"
    else if searchType == "restaurants" then "restaurant"
    else if searchType == "attractions" then "attraction"
    else if IsProductSearch(searchType) then "product"
    else "general"
  }

  /** The `type` of the whole result list of a kind of search. */
  function ListKind(searchType: string): string {
    if searchType == "hotels" then "hotels"
    else if searchType == "restaurants" then "restaurants"
    else if searchType == "attractions" then "attractions"
    else if IsProductSearch(searchType) then "products"
    else "general"
  }

  /** A snippet that mentions a dollar sign or, in any case, the word "price". */
  predicate MentionsPrice(snippet: string) {
    Contains(snippet, "$") || Contains(Lower(snippet), "price")
  }

  /** One organic result as a typed record. */
  function Processed(r: OrganicResult, searchType: string): (w: WebResult)
    ensures w.title == r.title && w.link == r.link && w.snippet == r.snippet && w.kind == ItemKind(searchType)
    ensures w.priceInfo.Some? <==> IsProductSearch(searchType)
    ensures w.priceInfo.Some? ==> w.priceInfo.value == (if MentionsPrice(r.snippet) then r.snippet else "")
  {
    WebResult(r.title, r.link, r.snippet, ItemKind(searchType),
      if IsProductSearch(searchType) then Some(if MentionsPrice(r.snippet) then r.snippet else "") else None)
  }

  /** The first five organic results, in order, as typed records. */
  function ProcessedResults(organic: seq<OrganicResult>, searchType: string): (rs: seq<WebResult>)
    ensures |rs| == if |organic| < ResultLimit then |organic| else ResultLimit
    ensures forall i :: 0 <= i < |rs| ==> rs[i] == Processed(organic[i], searchType)
  {
    var n := if |organic| < ResultLimit then |organic| else ResultLimit;
    seq(n, i requires 0 <= i < n => Processed(organic[i], searchType))
  }

  /** The `_process_*_results` loop: append one record per organic result, at most five. */
  method ProcessResults(organic: seq<OrganicResult>, searchType: string) returns (resp: SearchResponse)
    ensures resp == Found(ProcessedResults(organic, searchType), ListKind(searchType))
  {
    var results: seq<WebResult> := [];
    var top := Prefix(organic, ResultLimit);
    var i := 0;
    while i < |top|
      invariant 0 <= i <= |top|
      invariant |results| == i
      invariant forall j :: 0 <= j < i ==> results[j] == Processed(organic[j], searchType)
    {
      results := results + [Processed(top[i], searchType)];
      i := i + 1;
    }
    resp := Found(results, ListKind(searchType));
  }

  /** What `search_places` answers, given whether an API key is set and what the API call gives. */
  function SearchPlacesResult(configured: bool, fetch: SerpRequest -> FetchOutcome,
                              query: string, searchType: string, location: string): (resp: SearchResponse)
    ensures !configured ==> resp == SearchError(NotConfiguredText)
    ensures configured && fetch(RequestFor(query, searchType, location)).Fetched? ==>
      resp == Found(ProcessedResults(fetch(RequestFor(query, searchType, location)).organic, searchType), ListKind(searchType))
    ensures configured && fetch(RequestFor(query, searchType, location)).FetchFailed? ==>
      resp == SearchError(FailedPrefix + fetch(RequestFor(query, searchType, location)).message)
    ensures resp.Found? ==> |resp.results| <= ResultLimit && resp.kind == ListKind(searchType)
  {
    if !configured then SearchError(NotConfiguredText)
    else match fetch(RequestFor(query, searchType, location))
      case FetchFailed(msg) => SearchError(FailedPrefix + msg)
      case Fetched(organic) => Found(ProcessedResults(organic, searchType), ListKind(searchType))
  }

  /** `search_places`: build the request, call the API, process the results by kind. */
  method SearchPlaces(configured: bool, fetch: SerpRequest -> FetchOutcome,
                      query: string, searchType: string, location: string) returns (resp: SearchResponse)
    ensures resp == SearchPlacesResult(configured, fetch, query, searchType, location)
  {
    if !configured {
      return SearchError(NotConfiguredText);
    }
    var request := RequestFor(query, searchType, location);
    var outcome := fetch(request);
    match outcome
    case FetchFailed(msg) =>
      resp := SearchError(FailedPrefix + msg);
    case Fetched(organic) =>
      resp := ProcessResults(organic, searchType);
  }

  /** "products" and "shopping" searches differ only in their query: results are processed alike. */
  lemma {:induction false} ProductAndShoppingAlike(organic: seq<OrganicResult>)
    ensures ProcessedResults(organic, "products") == ProcessedResults(organic, "shopping")
  {
  }
}
