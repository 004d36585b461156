/** The `cors-proxy` serverless function: a GET-only relay that fetches a given URL and
    answers its JSON with the site's CORS headers. */
module CorsProxy {
  import opened Common
  import opened Catalog

  /** The incoming event: its method and the `url` query parameter. */
  datatype Event = Event(httpMethod: string, url: Option<string>)

  /** Fetching a URL and parsing its JSON: the data, or the message of the error thrown. */
  datatype Fetched = Parsed(data: Json) | Failed(message: string)

  type Fetch = string -> Fetched

  /** The body: plain text, the relayed JSON, or `{ error }`. */
  datatype Body = Text(text: string) | Relayed(data: Json) | ErrorJson(error: string)

  datatype Result = Result(statusCode: int, body: Body, headers: map<string, string>)

  const ALLOW_ORIGIN := "https://emilia-burza-entertainment-app.netlify.app"
  const ACAO := "Access-Control-Allow-Origin"
  const MISSING_URL := "Missing \"url\" query parameter"

  const CORS_HEADERS: map<string, string> := map[
    "Content-Type" := "application/json",
    ACAO := ALLOW_ORIGIN,
    "Access-Control-Allow-Methods" := "GET, OPTIONS",
    "Access-Control-Allow-Headers" := "Origin, X-Requested-With, Content-Type, Accept"]

  const METHOD_NOT_ALLOWED := Result(405, Text("Method Not Allowed"), map["Allow" := "GET"])

  /** The handler. The method is compared exactly: "get", "HEAD" and also "OPTIONS" are
      refused. */
  function Handler(event: Event, fetch: Fetch): (r: Result)
    ensures event.httpMethod != "GET" ==> r == METHOD_NOT_ALLOWED
    ensures event.httpMethod == "GET" && (event.url.None? || event.url.value == "") ==>
      r == Result(400, ErrorJson(MISSING_URL), CORS_HEADERS)
    ensures event.httpMethod == "GET" && event.url.Some? && event.url.value != "" ==>
      match fetch(event.url.value)
      case Parsed(data) => r == Result(200, Relayed(data), CORS_HEADERS)
      case Failed(m) => r == Result(500, ErrorJson(m), CORS_HEADERS)
  {
    if event.httpMethod != "GET" then METHOD_NOT_ALLOWED
    else if event.url.None? || event.url.value == "" then Result(400, ErrorJson(MISSING_URL), CORS_HEADERS)
    else
      match fetch(event.url.value)
      case Parsed(data) => Result(200, Relayed(data), CORS_HEADERS)
      case Failed(m) => Result(500, ErrorJson(m), CORS_HEADERS)
  }

  /** A refused method makes no fetch, and is refused whatever the url: the method is
      checked first. The 405 has no CORS headers. */
  lemma MethodCheckedFirst(event: Event, fetch: Fetch, fetch': Fetch, url': Option<string>)
    requires event.httpMethod != "GET"
    ensures Handler(event, fetch) == Handler(Event(event.httpMethod, url'), fetch')
    ensures Handler(event, fetch).statusCode == 405
    ensures Handler(event, fetch).headers.Keys == {"Allow"}
  {
  }

  /** A GET without a url makes no fetch. */
  lemma MissingUrlFetchesNothing(fetch: Fetch, fetch': Fetch, url: Option<string>)
    requires url.None? || url.value == ""
    ensures Handler(Event("GET", url), fetch) == Handler(Event("GET", url), fetch')
    ensures Handler(Event("GET", url), fetch).statusCode == 400
  {
  }

  /** The url is fetched as given: the answer depends on that one fetch only. */
  lemma FetchesTheGivenUrl(url: string, fetch: Fetch, fetch': Fetch)
    requires url != "" && fetch(url) == fetch'(url)
    ensures Handler(Event("GET", Some(url)), fetch) == Handler(Event("GET", Some(url)), fetch')
  {
  }

  /** Every answer except the 405 carries the same fixed allowed origin, and the status
      tells the kind of body. */
  lemma AllowOriginOnEveryAnswer(event: Event, fetch: Fetch)
    ensures var r := Handler(event, fetch);
      r.statusCode != 405 ==> ACAO in r.headers && r.headers[ACAO] == ALLOW_ORIGIN
    ensures var r := Handler(event, fetch);
      r.statusCode in {200, 400, 405, 500}
      && (r.statusCode == 200 <==> r.body.Relayed?)
      && (r.statusCode == 405 <==> r.body.Text?)
  {
  }
}
