/** The client's axios instance: its request and response interceptors, including the mock
    data it falls back to when the server cannot be reached. */
module AxiosConfig {
  import opened Common
  import opened Text

  /** The parts of a request config the interceptors look at. */
  datatype RequestConfig = RequestConfig(url: Option<string>, headers: map<string, string>)

  /** An axios error: the config of the failed request and, unless the request never got an
      answer, the response. */
  datatype AxiosError = AxiosError(config: RequestConfig, response: Option<int>)

  /** The build-time environment. */
  datatype Env = Env(nodeEnv: Option<string>, useFallback: Option<string>)

  /** One mock show: `{ title, id }`. */
  datatype MockShow = MockShow(title: string, id: string)

  /** `{ status: true, data }` */
  datatype MockData = MockData(status: bool, data: seq<MockShow>)

  /** What a response interceptor hands on: a (real or mock) response, or the rejection. */
  datatype Settled<R> = Resolve(value: R) | Reject(error: AxiosError)

  /** A real response, or `{ data: mockData }` made up by the fallback. */
  datatype Response = Real(status: int) | Mock(data: MockData)

  const MOCK_MOVIE := MockShow("Mock Movie", "1")
  const MOCK_TV := MockShow("Mock TV Show", "2")

  /** The request interceptor passes the config through: in particular it adds no
      `Authorization` header. */
  function OnRequest(config: RequestConfig): (r: RequestConfig)
    ensures r == config
    ensures "Authorization" in r.headers <==> "Authorization" in config.headers
  {
    config
  }

  /** The request error handler rejects with the same error. */
  function OnRequestError(e: AxiosError): (r: Settled<RequestConfig>)
    ensures r.Reject? && r.error == e
  {
    Reject(e)
  }

  /** A successful response is handed on untouched. */
  function OnResponse(status: int): (r: Settled<Response>)
    ensures r == Resolve(Real(status))
  {
    Resolve(Real(status))
  }

  /** `NODE_ENV === 'development' || REACT_APP_USE_FALLBACK === 'true'` */
  predicate FallbackEnabled(env: Env) {
    env.nodeEnv == Some("development") || env.useFallback == Some("true")
  }

  /** The mock chosen by `url?.includes('movies')`, then `url?.includes('tv')`. */
  function MockFor(url: Option<string>): (m: MockData)
    ensures m.status
    ensures url.Some? && Includes(url.value, "movies") ==> m.data == [MOCK_MOVIE]
    ensures url.Some? && !Includes(url.value, "movies") && Includes(url.value, "tv") ==> m.data == [MOCK_TV]
    ensures url.None? || (!Includes(url.value, "movies") && !Includes(url.value, "tv")) ==> m.data == []
  {
    if url.Some? && Includes(url.value, "movies") then MockData(true, [MOCK_MOVIE])
    else if url.Some? && Includes(url.value, "tv") then MockData(true, [MOCK_TV])
    else MockData(true, [])
  }

  /** The response error handler. */
  function OnResponseError(e: AxiosError, env: Env): (r: Settled<Response>)
    ensures e.response.Some? ==> r == Reject(e)
    ensures e.response.None? && !FallbackEnabled(env) ==> r == Reject(e)
    ensures r.Resolve? <==> e.response.None? && FallbackEnabled(env)
    ensures r.Resolve? ==> r.value == Mock(MockFor(e.config.url))
  {
    if e.response.None? && FallbackEnabled(env) then Resolve(Mock(MockFor(e.config.url)))
    else Reject(e)
  }

  /** "movies" is tested first: a URL with both words gets the movie mock. */
  lemma MoviesTestedFirst(a: string, b: string, c: string)
    ensures MockFor(Some(a + "movies" + b + "tv" + c)).data == [MOCK_MOVIE]
    ensures MockFor(Some(a + "tv" + b + "movies" + c)).data == [MOCK_MOVIE]
  {
    var u1, u2 := a + "movies" + b + "tv" + c, a + "tv" + b + "movies" + c;
    assert OccursAt(u1, "movies", |a|) by { assert u1[|a|..|a| + 6] == "movies"; }
    IncludesIff(u1, "movies");
    assert OccursAt(u2, "movies", |a| + 2 + |b|) by {
      assert u2[|a| + 2 + |b|..|a| + 2 + |b| + 6] == "movies";
    }
    IncludesIff(u2, "movies");
  }

  /** A URL without "movies" that contains "tv" gets the TV mock; no URL at all gets the
      empty list. */
  lemma TvMockAndEmptyMock(a: string, b: string)
    requires !Includes(a + "tv" + b, "movies")
    ensures MockFor(Some(a + "tv" + b)).data == [MOCK_TV]
    ensures MockFor(None).data == []
  {
    var u := a + "tv" + b;
    assert OccursAt(u, "tv", |a|) by { assert u[|a|..|a| + 2] == "tv"; }
    IncludesIff(u, "tv");
  }

  /** In production without the fallback flag, every error is rejected. */
  lemma ProductionNeverMocks(e: AxiosError, useFallback: Option<string>)
    requires useFallback != Some("true")
    ensures OnResponseError(e, Env(Some("production"), useFallback)) == Reject(e)
  {
  }
}
