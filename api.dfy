/**
 * The two endpoints of app.py. Both read the memoised spreadsheet dictionary;
 * `/api/getMetadata` answers with the brand and platform lists, and
 * `/api/getData` additionally runs the insight rows through the filter and
 * search pipeline, answering 400 for a `filters` parameter that is not JSON
 * and an all-empty body when the pipeline raises.
 */
module Api {
  import opened Wrappers
  import opened SheetsService
  import opened Seqs
  import opened Insights
  import opened Metadata

  /** The `filters` query parameter, as `json.loads(filters) if filters else None` sees it. */
  datatype FilterQuery =
    | Absent                 // missing or the empty string
    | Malformed              // `json.loads` raises `JSONDecodeError`
    | Decoded(json: FilterJson)

  /** The answer of `/api/getData`. */
  datatype DataResponse =
    | Data(insights: seq<Record>, brands: seq<string>, platforms: seq<string>)
    | BadRequest             // HTTP 400, invalid filter format

  function FilterDict(q: FilterQuery): Option<FilterJson> {
    if q.Decoded? then Some(q.json) else None
  }

  /** The insight rows `/api/getData` works on. */
  function InsightRows(all: AllData): seq<Row> {
    Lookup(all, "insights", "BANCO_INSIGHTS")
  }

  /**
   * The body of `/api/getData` for a fetched dictionary: 400 for malformed
   * filters; the all-empty body when the pipeline raises; otherwise the
   * selected insight records, ordered by date, beside the same lists
   * `/api/getMetadata` returns.
   */
  method GetInsights(all: AllData, filters: FilterQuery, search: Option<string>) returns (response: DataResponse)
    ensures filters.Malformed? <==> response == BadRequest
    ensures !filters.Malformed? && PipelineFails(InsightRows(all), FilterDict(filters), search) ==>
      response == Data([], [], [])
    ensures !filters.Malformed? && !PipelineFails(InsightRows(all), FilterDict(filters), search) ==>
      response.Data? &&
      multiset(response.insights) == multiset(Apply(ToRecord, Kept(InsightRows(all), FilterDict(filters), search))) &&
      OrderedOutput(response.insights) &&
      response.brands == ListsFrom(all).brands && response.platforms == ListsFrom(all).platforms
  {
    var insights := InsightRows(all);
    var lists := ListsFrom(all);
    if filters.Malformed? {
      return BadRequest;
    }
    var filtered := ApplyFiltersAndSearch(insights, FilterDict(filters), search);
    if filtered.Failure? {
      return Data([], [], []);
    }
    return Data(filtered.value, lists.brands, lists.platforms);
  }

  /** A failed fetch leaves every list empty, so `/api/getData` answers with empty lists and no error. */
  method GetInsightsAfterFailedFetch(filters: FilterQuery, search: Option<string>) returns (response: DataResponse)
    requires !filters.Malformed?
    ensures response == Data([], [], [])
  {
    response := GetInsights(map[], filters, search);
    assert InsightRows(map[]) == [];
    assert !PipelineFails([], FilterDict(filters), search);
    var none: seq<Record> := Apply(ToRecord, Kept([], FilterDict(filters), search));
    assert |none| == 0;
  }

  /** `/api/getMetadata`: the lists of the memoised dictionary, fetching it on the first request. */
  method GetMetadataEndpoint(cache: LruCachedFetch, upstream: Upstream) returns (lists: Lists)
    requires cache.Valid()
    modifies cache
    ensures cache.Valid() && cache.memo.Some?
    ensures cache.memo == if old(cache.memo).Some? then old(cache.memo) else Some(FetchResult(upstream))
    ensures lists == ListsFrom(cache.memo.value)
  {
    var all := cache.FetchAllData(upstream);
    lists := ListsFrom(all);
  }

  /** `/api/getData`: the insights of the memoised dictionary, fetching it on the first request. */
  method GetDataEndpoint(cache: LruCachedFetch, upstream: Upstream, filters: FilterQuery, search: Option<string>)
    returns (response: DataResponse)
    requires cache.Valid()
    modifies cache
    ensures cache.Valid() && cache.memo.Some?
    ensures cache.memo == if old(cache.memo).Some? then old(cache.memo) else Some(FetchResult(upstream))
    ensures filters.Malformed? <==> response == BadRequest
    ensures !filters.Malformed? && PipelineFails(InsightRows(cache.memo.value), FilterDict(filters), search) ==>
      response == Data([], [], [])
    ensures !filters.Malformed? && !PipelineFails(InsightRows(cache.memo.value), FilterDict(filters), search) ==>
      response.Data? &&
      multiset(response.insights) == multiset(Apply(ToRecord, Kept(InsightRows(cache.memo.value), FilterDict(filters), search))) &&
      OrderedOutput(response.insights) &&
      response.brands == ListsFrom(cache.memo.value).brands &&
      response.platforms == ListsFrom(cache.memo.value).platforms
  {
    var all := cache.FetchAllData(upstream);
    response := GetInsights(all, filters, search);
  }

  /**
   * Once the dictionary is memoised, the metadata endpoint and a data request
   * whose pipeline succeeds report the same brands and platforms, whatever the
   * spreadsheet would answer by then.
   */
  method EndpointsAgree(first: Upstream, later: Upstream, filters: FilterQuery, search: Option<string>)
    returns (lists: Lists, response: DataResponse)
    ensures response.Data? ==>
      response == Data([], [], []) || (response.brands == lists.brands && response.platforms == lists.platforms)
    ensures lists == ListsFrom(FetchResult(first))
  {
    var cache := new LruCachedFetch();
    lists := GetMetadataEndpoint(cache, first);
    response := GetDataEndpoint(cache, later, filters, search);
  }
}
