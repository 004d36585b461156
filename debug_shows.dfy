/** The `debug-shows` serverless function: the discover-movie list turned into show records
    in the shape the front end expects. */
module DebugShows {
  import opened Common

  /** A field read from an upstream object: missing (`undefined`), `null`, or a string. */
  datatype Field = Missing | Null | Present(text: string)

  /** One upstream movie result, with the fields the mapping reads. `poster_path` keeps
      apart a missing key and `null`, because the template writes them differently, and so
      does `release_date`, because `new Date` reads them differently; for the other optional
      fields both are `None`. JavaScript numbers are reals. */
  datatype TmdbMovie = TmdbMovie(
    id: int,
    title: string,
    posterPath: Field,
    backdropPath: Option<string>,
    releaseDate: Field,
    voteAverage: Option<real>,
    popularity: Option<real>)

  /** The record built for each movie. `year` is `None` where `getFullYear` gives NaN. */
  datatype ShowRecord = ShowRecord(
    id: int,
    title: string,
    thumbnail: string,
    backdropPath: string,
    year: Option<int>,
    category: string,
    mediaType: string,
    rating: string,
    voteAverage: real,
    isTrending: bool,
    isBookmarked: bool)

  const IMAGE_BASE := "https://image.tmdb.org/t/p/w500"
  const TRENDING_POPULARITY: real := 1000.0

  /** `${movie.poster_path}`: a missing poster is written out as "undefined", a null one
      as "null". */
  function PosterText(p: Field): string {
    match p
    case Present(s) => s
    case Null => "null"
    case Missing => "undefined"
  }

  /** `backdrop_path || ''`: both a missing and an empty backdrop give "". */
  function BackdropOrEmpty(b: Option<string>): string {
    match b
    case Some(s) => s
    case None => ""
  }

  /** `vote_average || 0`. */
  function VoteOrZero(v: Option<real>): real {
    match v
    case Some(x) => x
    case None => 0.0
  }

  /** `movie.popularity > 1000`: a missing popularity compares as NaN, which is never greater. */
  function IsTrending(popularity: Option<real>): bool {
    match popularity
    case Some(x) => x > TRENDING_POPULARITY
    case None => false
  }

  /** The record for one movie. `yearOf` stands for `new Date(d).getFullYear()` on the
      field as read, missing and `null` included. */
  function MapMovie(m: TmdbMovie, yearOf: Field -> Option<int>): (r: ShowRecord)
    ensures r.id == m.id && r.title == m.title
    ensures r.year == yearOf(m.releaseDate)
  {
    ShowRecord(
      m.id, m.title, IMAGE_BASE + PosterText(m.posterPath), BackdropOrEmpty(m.backdropPath),
      yearOf(m.releaseDate), "Movie", "movie", "PG", VoteOrZero(m.voteAverage),
      IsTrending(m.popularity), false)
  }

  /** The fields that do not depend on the movie are the same on every record. */
  lemma ConstantFields(m: TmdbMovie, yearOf: Field -> Option<int>)
    ensures var r := MapMovie(m, yearOf);
      r.category == "Movie" && r.mediaType == "movie" && r.rating == "PG" && !r.isBookmarked
  {
  }

  /** The thumbnail is the image base followed by the poster text, which can be read back
      from it. */
  lemma ThumbnailIsBasePlusPoster(m: TmdbMovie, yearOf: Field -> Option<int>)
    ensures var t := MapMovie(m, yearOf).thumbnail;
      |t| >= |IMAGE_BASE| && t[..|IMAGE_BASE|] == IMAGE_BASE
      && t[|IMAGE_BASE|..] == PosterText(m.posterPath)
    ensures m.posterPath.Missing? ==> MapMovie(m, yearOf).thumbnail == IMAGE_BASE + "undefined"
    ensures m.posterPath.Null? ==> MapMovie(m, yearOf).thumbnail == IMAGE_BASE + "null"
  {
  }

  /** For two present poster paths, equal thumbnails mean equal paths. */
  lemma ThumbnailDeterminesPoster(m1: TmdbMovie, m2: TmdbMovie, yearOf: Field -> Option<int>)
    requires m1.posterPath.Present? && m2.posterPath.Present?
    requires MapMovie(m1, yearOf).thumbnail == MapMovie(m2, yearOf).thumbnail
    ensures m1.posterPath == m2.posterPath
  {
    ThumbnailIsBasePlusPoster(m1, yearOf);
    ThumbnailIsBasePlusPoster(m2, yearOf);
  }

  /** The template cannot tell a `null` poster from the path "null", nor a missing one from
      the path "undefined": each pair gives the same thumbnail. */
  lemma AbsentPosterLooksLikePath(m: TmdbMovie, yearOf: Field -> Option<int>)
    ensures MapMovie(m.(posterPath := Null), yearOf).thumbnail
      == MapMovie(m.(posterPath := Present("null")), yearOf).thumbnail
    ensures MapMovie(m.(posterPath := Missing), yearOf).thumbnail
      == MapMovie(m.(posterPath := Present("undefined")), yearOf).thumbnail
  {
  }

  /** Missing upstream values give the defaults; present ones are copied. */
  lemma Defaults(m: TmdbMovie, yearOf: Field -> Option<int>)
    ensures m.backdropPath.None? ==> MapMovie(m, yearOf).backdropPath == ""
    ensures m.backdropPath.Some? ==> MapMovie(m, yearOf).backdropPath == m.backdropPath.value
    ensures m.voteAverage.None? ==> MapMovie(m, yearOf).voteAverage == 0.0
    ensures m.voteAverage.Some? ==> MapMovie(m, yearOf).voteAverage == m.voteAverage.value
  {
  }

  /** A movie is trending exactly when its popularity is above 1000; 1000 itself is not. */
  lemma TrendingThreshold(m: TmdbMovie, yearOf: Field -> Option<int>)
    ensures MapMovie(m, yearOf).isTrending <==> m.popularity.Some? && m.popularity.value > 1000.0
    ensures m.popularity == Some(1000.0) ==> !MapMovie(m, yearOf).isTrending
  {
  }

  /** `data.results.map(...)`: one record per movie, in order, carrying its id and title. */
  function MapMovies(movies: seq<TmdbMovie>, yearOf: Field -> Option<int>): (r: seq<ShowRecord>)
    ensures |r| == |movies|
    ensures forall i :: 0 <= i < |movies| ==> r[i] == MapMovie(movies[i], yearOf)
    ensures forall i :: 0 <= i < |movies| ==> r[i].id == movies[i].id && r[i].title == movies[i].title
  {
    if movies == [] then [] else [MapMovie(movies[0], yearOf)] + MapMovies(movies[1..], yearOf)
  }

  /** The body: `{ status: 'success', data: { shows } }` or `{ status: 'error', message }`. */
  datatype Body = Shows(shows: seq<ShowRecord>) | Error(message: string)

  datatype Result = Result(statusCode: int, headers: map<string, string>, body: Body)

  const ALLOW_ORIGIN := "https://emilia-burza-entertainment-app.netlify.app"

  const CORS_HEADERS: map<string, string> := map[
    "Access-Control-Allow-Origin" := ALLOW_ORIGIN,
    "Access-Control-Allow-Methods" := "GET, OPTIONS",
    "Access-Control-Allow-Headers" := "Origin, X-Requested-With, Content-Type, Accept, Authorization",
    "Content-Type" := "application/json"]

  /** The handler. `fetched` is the upstream movie list, or `None` when the fetch, the JSON
      parse or `data.results.map` throws. */
  function Handler(fetched: Option<seq<TmdbMovie>>, yearOf: Field -> Option<int>): (r: Result)
    ensures r.headers == CORS_HEADERS
    ensures r.statusCode == 200 <==> fetched.Some?
    ensures fetched.None? ==> r.statusCode == 500 && r.body == Error("Failed to fetch shows")
    ensures fetched.Some? ==>
      && r.body.Shows? && |r.body.shows| == |fetched.value|
      && forall i :: 0 <= i < |fetched.value| ==> r.body.shows[i] == MapMovie(fetched.value[i], yearOf)
  {
    match fetched
    case Some(movies) => Result(200, CORS_HEADERS, Shows(MapMovies(movies, yearOf)))
    case None => Result(500, CORS_HEADERS, Error("Failed to fetch shows"))
  }
}
