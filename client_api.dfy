/** The client's serverless API: five GET routes in front of TMDB. The HTTP client is the
    same parameter as in the server's service: a path to its results list, or a failure. */
module ClientApi {
  import opened Common
  import opened Catalog
  import opened TmdbService
  import opened QueryString

  /** The `data` of a successful reply. */
  datatype Data = TrendingList(trending: seq<Item>) | ShowList(shows: seq<Item>)

  /** `{ status: true, data }`, or `{ status: false, error, message }`. */
  datatype Body = Success(data: Data) | Failure(error: string, message: string)

  datatype Response = Response(statusCode: int, body: Body)

  const INTERNAL := "Internal server error"
  const BAD_REQUEST := "Bad request"

  function ServerError(message: string): Response {
    Response(500, Failure(INTERNAL, message))
  }

  /** GET `/`. Only the string "true" selects trending ("1", "yes", an array do not). */
  function Root(trending: QueryValue, api: Lists, draws: seq<nat>): (r: Response)
    ensures r.statusCode == 200 <==> r.body.Success?
    ensures r.body.Success? ==> (r.body.data.TrendingList? <==> trending == Str("true"))
    ensures trending == Str("true") ==>
      if api(TRENDING).Some? then r == Response(200, Success(TrendingList(api(TRENDING).value)))
      else r == ServerError("Error fetching shows")
    ensures trending != Str("true") ==>
      if api(DISCOVER_MOVIE).Some? && api(DISCOVER_TV).Some? then
        && r.statusCode == 200 && r.body.data.ShowList?
        && multiset(r.body.data.shows)
           == multiset(TagBoth(api(DISCOVER_MOVIE).value, api(DISCOVER_TV).value))
      else r == ServerError("Error fetching shows")
  {
    if trending == Str("true") then
      match api(TRENDING)
      case Some(items) => Response(200, Success(TrendingList(items)))
      case None => ServerError("Error fetching shows")
    else
      var movies, tv := api(DISCOVER_MOVIE), api(DISCOVER_TV);
      if movies.Some? && tv.Some? then Response(200, Success(ShowList(Shuffle(TagBoth(movies.value, tv.value), draws))))
      else ServerError("Error fetching shows")
  }

  /** The root route and the server's `getAllShows` give the same lists for the same
      upstream answers and random numbers, and fail together. */
  lemma RootAgreesWithService(trending: QueryValue, api: Lists, draws: seq<nat>)
    requires trending != Str("true")
    ensures Root(trending, api, draws).body.Success? <==> GetAllShows(api, draws).Done?
    ensures GetAllShows(api, draws).Done? ==>
      Root(trending, api, draws).body.data == ShowList(GetAllShows(api, draws).value)
  {
  }

  /** GET `/movies`. */
  function Movies(api: Lists): (r: Response)
    ensures r.body.Success? <==> api(DISCOVER_MOVIE).Some?
    ensures r.body.Success? ==>
      var src := api(DISCOVER_MOVIE).value;
      && r.statusCode == 200 && r.body.data.ShowList?
      && |r.body.data.shows| == |src|
      && forall i :: 0 <= i < |src| ==> r.body.data.shows[i] == Tag(src[i], Movie)
    ensures r.body.Failure? ==> r == ServerError("Error fetching movies")
  {
    match api(DISCOVER_MOVIE)
    case Some(movies) => Response(200, Success(ShowList(TagAll(movies, Movie))))
    case None => ServerError("Error fetching movies")
  }

  /** GET `/tv`. */
  function Tv(api: Lists): (r: Response)
    ensures r.body.Success? <==> api(DISCOVER_TV).Some?
    ensures r.body.Success? ==>
      var src := api(DISCOVER_TV).value;
      && r.statusCode == 200 && r.body.data.ShowList?
      && |r.body.data.shows| == |src|
      && forall i :: 0 <= i < |src| ==> r.body.data.shows[i] == Tag(src[i], Catalog.Tv)
    ensures r.body.Failure? ==> r == ServerError("Error fetching TV series")
  {
    match api(DISCOVER_TV)
    case Some(tv) => Response(200, Success(ShowList(TagAll(tv, Catalog.Tv))))
    case None => ServerError("Error fetching TV series")
  }

  /** GET `/search`. A falsy query is refused before any request is made. */
  function Search(query: QueryValue, api: Lists): (r: Response)
    ensures !Truthy(query) ==> r == Response(400, Failure(BAD_REQUEST, "Query parameter is required"))
    ensures Truthy(query) ==>
      var q := Interpolate(query);
      if api(SearchMoviePath(q)).Some? && api(SearchTvPath(q)).Some? then
        && r.statusCode == 200 && r.body.Success? && r.body.data.ShowList?
        && MoviesThenTv(r.body.data.shows, api(SearchMoviePath(q)).value, api(SearchTvPath(q)).value)
      else r == ServerError("Error searching shows")
  {
    if !Truthy(query) then Response(400, Failure(BAD_REQUEST, "Query parameter is required"))
    else
      var q := Interpolate(query);
      var movies, tv := api(SearchMoviePath(q)), api(SearchTvPath(q));
      if movies.Some? && tv.Some? then Response(200, Success(ShowList(TagBoth(movies.value, tv.value))))
      else ServerError("Error searching shows")
  }

  /** A refused search does not depend on upstream at all: no request is made. */
  lemma RefusedSearchCallsNothing(query: QueryValue, api: Lists, api': Lists)
    requires !Truthy(query)
    ensures Search(query, api) == Search(query, api')
    ensures Search(query, api).statusCode == 400 && Search(query, api).body.Failure?
  {
  }

  /** A single-string search answers like the server's `searchByKeyword`. */
  lemma SearchAgreesWithService(q: string, api: Lists)
    requires q != ""
    ensures Search(Str(q), api).body.Success? <==> SearchByKeyword(api, q).Done?
    ensures SearchByKeyword(api, q).Done? ==>
      Search(Str(q), api).body.data == ShowList(SearchByKeyword(api, q).value)
  {
  }

  /** GET `/bookmarked`: a placeholder that always answers an empty list. */
  function Bookmarked(): (r: Response)
    ensures r.statusCode == 200 && r.body == Success(ShowList([]))
  {
    Response(200, Success(ShowList([])))
  }

  /** Every failure of a route that calls upstream is a 500 with `status: false`. */
  lemma UpstreamFailuresAre500(trending: QueryValue, query: QueryValue, api: Lists, draws: seq<nat>)
    ensures Root(trending, api, draws).body.Failure? ==> Root(trending, api, draws).statusCode == 500
    ensures Movies(api).body.Failure? ==> Movies(api).statusCode == 500
    ensures Tv(api).body.Failure? ==> Tv(api).statusCode == 500
    ensures Truthy(query) && Search(query, api).body.Failure? ==> Search(query, api).statusCode == 500
  {
  }
}
