/** The server's GET `/search` route. */
module SearchRoute {
  import opened Catalog
  import opened TmdbService
  import opened QueryString

  /** `ApiErrorClass(message, status)`. */
  datatype ApiError = ApiError(message: string, status: int)

  /** The route either answers `{ status: 200, data }` or throws out of the handler. */
  datatype RouteResult = Respond(status: int, data: seq<Item>) | Raise(error: ApiError)

  const QUERY_REQUIRED := ApiError("Search query is required", 400)
  const SEARCH_ROUTE_FAILED := ApiError("Failed to search shows", 500)

  /** The guard `!query || typeof query !== 'string'`: only a non-empty single string
      passes. */
  predicate ValidQuery(query: QueryValue) {
    query.Str? && query.s != ""
  }

  /** What the `try` block can throw: the guard's `ApiErrorClass`, or the plain `Error`
      of the service. */
  datatype Exception = ApiException(error: ApiError) | PlainException(message: string)

  datatype TryResult = Answered(data: seq<Item>) | Threw(exception: Exception)

  /** The body of the `try`: the guard's error, the service's failure, or the results. */
  function TryBlock(query: QueryValue, api: Lists): TryResult {
    if !ValidQuery(query) then Threw(ApiException(QUERY_REQUIRED))
    else
      match SearchByKeyword(api, query.s)
      case Done(results) => Answered(results)
      case Thrown(m) => Threw(PlainException(m))
  }

  /** The handler: whatever the `try` throws is replaced by one 500 error. */
  function HandleSearch(query: QueryValue, api: Lists): (r: RouteResult)
    ensures r.Raise? ==> r.error == SEARCH_ROUTE_FAILED
    ensures r.Respond? <==> ValidQuery(query) && SearchByKeyword(api, query.s).Done?
    ensures r.Respond? ==> r == Respond(200, SearchByKeyword(api, query.s).value)
  {
    match TryBlock(query, api)
    case Answered(data) => Respond(200, data)
    case Threw(_) => Raise(SEARCH_ROUTE_FAILED)
  }

  /** The 400 for a missing, empty or repeated query never leaves the handler: it becomes
      the same 500 as an upstream failure, and no request is made for it. */
  lemma BadQueryIsReported500(query: QueryValue, api: Lists, api': Lists)
    requires !ValidQuery(query)
    ensures HandleSearch(query, api) == Raise(SEARCH_ROUTE_FAILED)
    ensures HandleSearch(query, api) == HandleSearch(query, api')
    ensures TryBlock(query, api) == Threw(ApiException(ApiError("Search query is required", 400)))
  {
  }

  /** No status 400 ever escapes the route. */
  lemma NeverAnswers400(query: QueryValue, api: Lists)
    ensures HandleSearch(query, api).Raise? ==> HandleSearch(query, api).error.status == 500
    ensures HandleSearch(query, api).Respond? ==> HandleSearch(query, api).status == 200
  {
  }

  /** A valid query reaches the service unchanged: the results are those of exactly this
      query's two search paths. */
  lemma ValidQueryPassedVerbatim(q: string, api: Lists, api': Lists)
    requires q != ""
    requires api(SearchMoviePath(q)) == api'(SearchMoviePath(q))
    requires api(SearchTvPath(q)) == api'(SearchTvPath(q))
    ensures HandleSearch(Str(q), api) == HandleSearch(Str(q), api')
  {
  }
}
