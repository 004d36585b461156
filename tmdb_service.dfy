/** The server's TMDB service. The HTTP client is a parameter: it maps a request path to the
    results list of the response, or to `None` when the request fails (a network error, an
    error status, or a body without a results list, on which `.map` throws). */
module TmdbService {
  import opened Common
  import opened Catalog

  /** A GET of a list endpoint: the `results` of the response body, if the call succeeds. */
  type Lists = string -> Option<seq<Item>>

  /** A GET of a details endpoint: the whole response body, if the call succeeds. */
  type Bodies = string -> Option<Json>

  const DISCOVER_MOVIE := "/discover/movie?include_adult=false&language=en-US&page=1&sort_by=popularity.desc"
  const DISCOVER_TV := "/discover/tv?include_adult=false&include_null_first_air_dates=false&language=en-US&page=1&sort_by=popularity.desc"
  const TRENDING := "/trending/all/day"

  const SEARCH_MOVIE_PREFIX := "/search/movie?query="
  const SEARCH_TV_PREFIX := "/search/tv?query="
  const SEARCH_SUFFIX := "&include_adult=false&language=en-US&page=1"

  /** `/search/movie?query=${query}&…`: the query is pasted in as it is, not URL-encoded. */
  function SearchMoviePath(query: string): string {
    SEARCH_MOVIE_PREFIX + query + SEARCH_SUFFIX
  }

  function SearchTvPath(query: string): string {
    SEARCH_TV_PREFIX + query + SEARCH_SUFFIX
  }

  /** The query occupies the path verbatim right after `query=`, and different queries give
      different paths. */
  lemma SearchPathsEmbedQuery(q: string, q': string)
    ensures SearchMoviePath(q)[|SEARCH_MOVIE_PREFIX|..|SEARCH_MOVIE_PREFIX| + |q|] == q
    ensures SearchTvPath(q)[|SEARCH_TV_PREFIX|..|SEARCH_TV_PREFIX| + |q|] == q
    ensures SearchMoviePath(q) == SearchMoviePath(q') ==> q == q'
    ensures SearchTvPath(q) == SearchTvPath(q') ==> q == q'
  {
    if SearchMoviePath(q) == SearchMoviePath(q') {
      StripAround(SEARCH_MOVIE_PREFIX, q, q', SEARCH_SUFFIX);
    }
    if SearchTvPath(q) == SearchTvPath(q') {
      StripAround(SEARCH_TV_PREFIX, q, q', SEARCH_SUFFIX);
    }
  }

  lemma StripAround(p: string, q: string, q': string, s: string)
    requires p + q + s == p + q' + s
    ensures q == q'
  {
    var w, w' := p + q + s, p + q' + s;
    assert |q| == |q'|;
    assert q == w[|p|..|p| + |q|];
    assert q' == w'[|p|..|p| + |q'|];
  }

  /** An `&` in the query is not escaped, so it ends the `query` parameter early: the text
      after it reaches TMDB as further parameters. */
  lemma AmpersandInQuerySplitsParameters(a: string, b: string)
    ensures var path := SearchMoviePath(a + "&" + b);
      path[|SEARCH_MOVIE_PREFIX| + |a|] == '&'
      && path[|SEARCH_MOVIE_PREFIX| + |a| + 1..|SEARCH_MOVIE_PREFIX| + |a| + 1 + |b|] == b
  {
    var path := SearchMoviePath(a + "&" + b);
    assert path == SEARCH_MOVIE_PREFIX + a + "&" + b + SEARCH_SUFFIX;
  }

  /** A service call either returns a value or throws an `Error` with a message. */
  datatype Outcome<T> = Done(value: T) | Thrown(message: string)

  const SHOWS_FAILED := "Failed to fetch shows"
  const MOVIES_FAILED := "Failed to fetch movies"
  const TV_FAILED := "Failed to fetch TV series"
  const MOVIE_DETAILS_FAILED := "Failed to fetch movie details"
  const TV_DETAILS_FAILED := "Failed to fetch TV series details"
  const TRENDING_FAILED := "Failed to fetch trending shows"
  const SEARCH_FAILED := "Failed to search shows"

  /** `getAllShows`: both discover lists, tagged, movies then TV, in the order the random
      sort leaves them (`draws` stands for its random numbers). If either request fails,
      there is no result at all. */
  function GetAllShows(api: Lists, draws: seq<nat>): (r: Outcome<seq<Item>>)
    ensures r.Done? <==> api(DISCOVER_MOVIE).Some? && api(DISCOVER_TV).Some?
    ensures r.Thrown? ==> r.message == SHOWS_FAILED
    ensures r.Done? ==>
      multiset(r.value) == multiset(TagBoth(api(DISCOVER_MOVIE).value, api(DISCOVER_TV).value))
  {
    var movies, tv := api(DISCOVER_MOVIE), api(DISCOVER_TV);
    if movies.Some? && tv.Some? then Done(Shuffle(TagBoth(movies.value, tv.value), draws))
    else Thrown(SHOWS_FAILED)
  }

  /** The outcome of `getAllShows` is not pinned down beyond being a permutation: for any
      ordering of the tagged items there are random numbers that produce it. */
  lemma GetAllShowsAnyOrder(api: Lists, ys: seq<Item>)
    requires api(DISCOVER_MOVIE).Some? && api(DISCOVER_TV).Some?
    requires multiset(ys) == multiset(TagBoth(api(DISCOVER_MOVIE).value, api(DISCOVER_TV).value))
    ensures exists draws :: GetAllShows(api, draws) == Done(ys)
  {
    var all := TagBoth(api(DISCOVER_MOVIE).value, api(DISCOVER_TV).value);
    ShuffleReachesEveryPermutation(all, ys);
    var draws :| Shuffle(all, draws) == ys;
    assert GetAllShows(api, draws) == Done(ys);
  }

  /** `getMovies`: the discover-movie results, same length and order, each tagged "movie". */
  function GetMovies(api: Lists): (r: Outcome<seq<Item>>)
    ensures r.Done? <==> api(DISCOVER_MOVIE).Some?
    ensures r.Thrown? ==> r.message == MOVIES_FAILED
    ensures r.Done? ==> var src := api(DISCOVER_MOVIE).value;
      |r.value| == |src| && forall i :: 0 <= i < |src| ==> r.value[i] == Tag(src[i], Movie)
  {
    match api(DISCOVER_MOVIE)
    case Some(movies) => Done(TagAll(movies, Movie))
    case None => Thrown(MOVIES_FAILED)
  }

  /** `getTvSeries`: the discover-TV results, same length and order, each tagged "tv". */
  function GetTvSeries(api: Lists): (r: Outcome<seq<Item>>)
    ensures r.Done? <==> api(DISCOVER_TV).Some?
    ensures r.Thrown? ==> r.message == TV_FAILED
    ensures r.Done? ==> var src := api(DISCOVER_TV).value;
      |r.value| == |src| && forall i :: 0 <= i < |src| ==> r.value[i] == Tag(src[i], Tv)
  {
    match api(DISCOVER_TV)
    case Some(tv) => Done(TagAll(tv, Tv))
    case None => Thrown(TV_FAILED)
  }

  /** `getMovieDetails`: the body of `/movie/<id>`, as it comes. */
  function GetMovieDetails(api: Bodies, movieId: string): (r: Outcome<Json>)
    ensures r.Done? <==> api("/movie/" + movieId).Some?
    ensures r.Done? ==> r.value == api("/movie/" + movieId).value
    ensures r.Thrown? ==> r.message == MOVIE_DETAILS_FAILED
  {
    match api("/movie/" + movieId)
    case Some(body) => Done(body)
    case None => Thrown(MOVIE_DETAILS_FAILED)
  }

  /** `getTvSeriesDetails`: the body of `/tv/<id>`, as it comes. */
  function GetTvSeriesDetails(api: Bodies, tvId: string): (r: Outcome<Json>)
    ensures r.Done? <==> api("/tv/" + tvId).Some?
    ensures r.Done? ==> r.value == api("/tv/" + tvId).value
    ensures r.Thrown? ==> r.message == TV_DETAILS_FAILED
  {
    match api("/tv/" + tvId)
    case Some(body) => Done(body)
    case None => Thrown(TV_DETAILS_FAILED)
  }

  /** `getAllTrending`: the trending results untouched, in particular not tagged. */
  function GetAllTrending(api: Lists): (r: Outcome<seq<Item>>)
    ensures r.Done? <==> api(TRENDING).Some?
    ensures r.Done? ==> r.value == api(TRENDING).value
    ensures r.Thrown? ==> r.message == TRENDING_FAILED
  {
    match api(TRENDING)
    case Some(items) => Done(items)
    case None => Thrown(TRENDING_FAILED)
  }

  /** `searchByKeyword`: the movie hits tagged "movie", then the TV hits tagged "tv". */
  function SearchByKeyword(api: Lists, query: string): (r: Outcome<seq<Item>>)
    ensures r.Done? <==> api(SearchMoviePath(query)).Some? && api(SearchTvPath(query)).Some?
    ensures r.Thrown? ==> r.message == SEARCH_FAILED
    ensures r.Done? ==>
      MoviesThenTv(r.value, api(SearchMoviePath(query)).value, api(SearchTvPath(query)).value)
  {
    var movies, tv := api(SearchMoviePath(query)), api(SearchTvPath(query));
    if movies.Some? && tv.Some? then Done(TagBoth(movies.value, tv.value)) else Thrown(SEARCH_FAILED)
  }

  /** Every search hit carries a media type of "movie" or "tv", whatever upstream sent. */
  lemma SearchHitsAreTagged(api: Lists, query: string)
    requires SearchByKeyword(api, query).Done?
    ensures forall it :: it in SearchByKeyword(api, query).value ==>
      MEDIA_TYPE in it && it[MEDIA_TYPE] in {JStr("movie"), JStr("tv")}
  {
    var movies, tv := api(SearchMoviePath(query)).value, api(SearchTvPath(query)).value;
    TagAllTagged(movies, Movie);
    TagAllTagged(tv, Tv);
    assert SearchByKeyword(api, query).value == TagAll(movies, Movie) + TagAll(tv, Tv);
  }
}
