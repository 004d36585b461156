# Entertainment web app — a Dafny model of its logic

The entertainment web app is a browser front end with two small serverless backends in front of
the TMDB movie and TV catalogue. This project models the parts of it that make decisions:

- the `/auth` routes (`register`, `login`, `me`, `logout`) as methods of a user-store class
  holding a `map` from e-mail to user, and the route guard that protects private routes;
- the `User` and `Show` document schemas, including the e-mail pattern and the title trimming;
- the registration page's password policy and form state;
- the catalog operations: tagging upstream items with `media_type`, concatenating movies and TV,
  and the random "shuffle";
- the request gates and error mappings of the server's search route, the client's serverless
  API, the `debug-shows` and `cors-proxy` functions, and the client's axios interceptors.

Modules and files:

| file | module | models |
|---|---|---|
| `text.dfy` | `Common`, `Text` | `Option`; the JavaScript string operations used (`length`, `replace`, `includes`, `trim`) |
| `user_model.dfy` | `UserModel` | `server/src/models/User.ts`, the `IUser` record, the store invariant |
| `crypto.dfy` | `Crypto` | bcrypt and JWT, seen only through their laws |
| `auth_routes.dfy` | `AuthRoutes` | `server/src/routes/auth.ts` |
| `auth_middleware.dfy` | `AuthMiddleware` | `server/src/middleware/auth.ts`, and whole sessions |
| `register_page.dfy` | `RegisterPage` | `client/src/pages/Register.tsx` |
| `show_model.dfy` | `ShowModel` | `server/src/models/Show.ts` |
| `catalog.dfy` | `Catalog` | JSON items, tagging, concatenation, shuffling |
| `tmdb_service.dfy` | `TmdbService` | `server/src/services/tmdb/tmdb.service.ts` |
| `query.dfy` | `QueryString` | the values of an Express query string |
| `client_api.dfy` | `ClientApi` | `client/netlify/functions/api.js` |
| `search_route.dfy` | `SearchRoute` | `server/src/routes/search.ts` |
| `debug_shows.dfy` | `DebugShows` | `server/netlify/functions/debug-shows.js` |
| `cors_proxy.dfy` | `CorsProxy` | `server/netlify/functions/cors-proxy.js` |
| `axios_config.dfy` | `AxiosConfig` | `client/src/services/api/axiosConfig.ts` |

How things outside the code are represented:

- Foreign libraries are parameters.
  - bcrypt and JWT are a `Crypto` value: four functions plus a `Lawful` predicate.
    - A password matches its own hash.
    - A hash is never the plaintext, and has bcrypt's 60 characters.
    - A signed token is non-empty.
    - A signed token verifies to the id it was signed for.
  - The uuid and the bcrypt salt are arguments of `Register`.
  - The uuid is assumed fresh: the caller guarantees no stored user has that id.
- HTTP is a function parameter.
  - Upstream calls map a request path to its results list, or to `None` when the call fails.
  - "Makes no request" is stated as "the answer is the same for every upstream function".
- Randomness is a list of draws.
  - `sort(() => Math.random() - 0.5)` becomes `Shuffle(xs, draws)`.
  - The result is proved to be a permutation of `xs`.
  - Every permutation is proved reachable with some draws.
- Dates are parameters.
  - The schema's current year is a parameter of `ValidateShow`.
  - `getFullYear` is a function parameter of `DebugShows.MapMovie`.
- Lengths are JavaScript lengths (UTF-16 code units), as schema `minlength`/`maxlength` and
  `password.length` measure them.

Behaviour of the code that a reader might not expect:

- The server's search route throws a 400 error for a bad query, but its own `catch`
  replaces it with a 500, so no 400 leaves that route. The client's serverless `/search`
  does answer 400.
- The auth routes keep state between requests. In a store shaped like the `IUser` record
  (`server/src/types/interface.ts`), which is what the model assumes, `login` and `logout`
  set `isAuthenticated` on the stored user and the guard reads it back
  (`AuthMiddleware.LoginThenGuard`, `AuthMiddleware.LogoutThenGuard`).
- The schema's password length check sees the bcrypt hash, which always has 60 characters,
  so the server never bounds the length of the plaintext password
  (`AuthRoutes.NewUserValidIgnoresPassword`).
- `logout` answers 500, not 401, to a token that fails verification.
- The schema spells `require` rather than `required` on `email` and `password`, so both are
  optional.
- `GET /` of the client API takes the trending branch only for the exact string "true".
- The search paths embed the query without URL-encoding, so an `&` in it starts a new
  parameter.
- The CORS proxy refuses `OPTIONS` with 405, although its headers advertise it.

## Model

| member | source | states |
|---|---|---|
| Text.ReplaceFirst | server/src/routes/auth.ts:133 | `replace` with a string pattern changes only the first occurrence; with no occurrence the string is unchanged |
| Text.ReplaceFirstPrefix | server/src/routes/auth.ts:133 | a string starting with the pattern loses exactly that prefix |
| Text.IncludesIff | client/src/services/api/axiosConfig.ts:73-75 | `includes` holds iff the pattern occurs at some position |
| Text.Trim | server/src/models/Show.ts:9 | the trimmed title neither starts nor ends with JavaScript white space |
| Text.TrimCutsEnds | server/src/models/Show.ts:9 | trimming removes white space from the two ends only: the result is a contiguous middle part of the input |
| Text.TrimIdempotent | server/src/models/Show.ts:9 | trimming twice equals trimming once |
| UserModel.PublicHidesPassword | server/src/routes/auth.ts:101-109 | the user data sent back does not depend on the password, and carries the user's id, name and e-mail |
| UserModel.EmailShapeMatchesRegex | server/src/models/User.ts:19-22 | the decision by first `@` and last `.` holds iff some split of the string matches `^[a-zA-Z0-9._%+-]+@[a-zA-Z0-9.-]+\.[a-zA-Z]{2,}$` |
| UserModel.EmailShapeHasOneAt | server/src/models/User.ts:20 | a valid e-mail contains exactly one `@` |
| UserModel.UserErrors | server/src/models/User.ts:5-29 | a path is reported iff its constraint fails: name required with 3..50 characters; e-mail optional, else 5..50 characters and the pattern; password optional, else 8..255 characters |
| UserModel.UserValidIff | server/src/models/User.ts:5-29 | a document validates iff all three field constraints hold |
| UserModel.EmailAndPasswordOptional | server/src/models/User.ts:13-29 | a document with a valid name and neither e-mail nor password validates |
| UserModel.NameRequired | server/src/models/User.ts:6-12 | a document without a name never validates |
| UserModel.EmailsUnique | server/src/models/User.ts:18 | under the store invariant two stored users never share an e-mail |
| UserModel.InsertKeepsInvariant | server/src/routes/auth.ts:18-42 | inserting a valid user under a new e-mail with a fresh id keeps the store invariant |
| UserModel.SetAuthenticatedKeepsInvariant | server/src/routes/auth.ts:86-87 | setting `isAuthenticated` keeps the store invariant |
| UserModel.FindById | server/src/routes/auth.ts:146 | `findOne({ id })` finds the user with that id, and finds none only when no stored user has it |
| AuthRoutes.TokenFrom | server/src/routes/auth.ts:133-140 | the token is the header with its first "Bearer " removed; a missing header or an empty remainder gives no token |
| AuthRoutes.TokenFromBearer | server/src/routes/auth.ts:133-135 | "Bearer t" carries t for non-empty t; exactly "Bearer " carries none |
| AuthRoutes.TokenFromBare | server/src/routes/auth.ts:133-135 | a header without "Bearer " is taken as the token itself |
| AuthRoutes.UserStore.Register | server/src/routes/auth.ts:13-58 | an existing e-mail gives 400 "User already exists" with the store unchanged. Otherwise exactly one user is added under that e-mail, with the given name, a fresh id, the flags false/false/true/false and a hashed password that is not the plaintext and matches it; the answer is 201. A document the schema rejects gives 500 with the store unchanged; for a new e-mail the answer is 201 exactly when the name and the e-mail pass the schema. The invariant is kept |
| AuthRoutes.UserStore.Login | server/src/routes/auth.ts:63-125 | an unknown e-mail and a wrong password both give 400 "Invalid credentials" with the store unchanged. Success sets `isAuthenticated` for that user only and answers 200 with the passwordless user data and a token signed for the user's id; every 200 carries a token that verifies to the id of the user who logged in |
| AuthRoutes.UserStore.Me | server/src/routes/auth.ts:130-179 | reads only; no token gives 401 "No token…", an unverifiable token 401 "Token is not valid", an unknown id 404 "User not found", otherwise 200 with the public user |
| AuthRoutes.UserStore.Logout | server/src/routes/auth.ts:184-226 | no token gives 401. An unverifiable token gives 500 "Server error" and an unknown id 404, both with the store unchanged. Otherwise only the token's user gets `isAuthenticated` false, and the answer is 200 |
| AuthRoutes.NewUserValidIgnoresPassword | server/src/routes/auth.ts:26-42 | the document `register` builds passes the schema iff its name and e-mail do: the password check sees only the 60-character hash |
| AuthMiddleware.Decoded | server/src/middleware/auth.ts:33-36 | the decoded id exists iff a token is present and verifies, and is what it verifies to |
| AuthMiddleware.Authorize | server/src/middleware/auth.ts:20-62 | the refusals in order: 401 no token, 401 invalid token, 404 unknown user, 401 "User is not authenticated"; admission iff the token's user exists and is authenticated |
| AuthMiddleware.Guard | server/src/middleware/auth.ts:20-62 | `next` is called iff the guard admits, otherwise the refusal is sent; `req.user` is set as soon as the token verifies, even when the request is then refused |
| AuthMiddleware.AdmitAfterLogin | server/src/middleware/auth.ts:39-56 | after a login the returned token, sent as "Bearer <token>", is admitted |
| AuthMiddleware.DenyAfterLogout | server/src/middleware/auth.ts:49-54 | after a logout a token for that user that still verifies is refused with 401 "User is not authenticated" |
| AuthMiddleware.LoginThenGuard | server/src/middleware/auth.ts:20-56 | logging in with the right password and presenting the token from login's own reply passes the guard; only that user's flag changes |
| AuthMiddleware.LogoutThenGuard | server/src/middleware/auth.ts:20-56 | logging out with a user's token and presenting that token again is refused |
| AuthMiddleware.Session | server/src/routes/auth.ts:13-226 | register, login, guard, logout, guard: the guard admits after login and refuses after logout, and this happens exactly when the name and the e-mail pass the schema |
| RegisterPage.PasswordProblem | client/src/pages/Register.tsx:36-53 | no problem iff the two fields match and the policy holds. A mismatch is reported before anything else, and a short password before the policy message; matching passwords of length 8 or more that fail the policy get exactly the policy message |
| RegisterPage.StrongIsWithoutLengthCheck | client/src/pages/Register.tsx:37 | an accepted password is plain ASCII of at least 8 characters, so the separate length check never decides alone |
| RegisterPage.WeakMessageOnlyWhenLongEnough | client/src/pages/Register.tsx:45-50 | the complexity message appears only for matching passwords of length 8 or more that fail the policy |
| RegisterPage.Put | client/src/pages/Register.tsx:24-27 | `{ ...prev, [name]: value }` sets the named field and leaves the others unchanged |
| RegisterPage.RegisterForm.HandleChange | client/src/pages/Register.tsx:22-33 | only the named field changes; editing a password field clears the password error, editing name or e-mail does not |
| RegisterPage.RegisterForm.ValidatePassword | client/src/pages/Register.tsx:36-53 | returns true iff the fields match and the policy holds; on failure the error shown is the first failing check's message |
| RegisterPage.RegisterForm.HandleSubmit | client/src/pages/Register.tsx:56-74 | `register` is called, with the form's name, e-mail and password, only when validation passes |
| ShowModel.ShowErrors | server/src/models/Show.ts:5-34 | a path is reported iff its constraint fails: title trimmed 1..255, thumbnail 1..255, year 1900..schema year, category "Movie" or "TV Series", rating non-empty |
| ShowModel.ValidateShow | server/src/models/Show.ts:5-43 | a document is stored iff every constraint holds. The stored title is trimmed, the other fields are copied, and `isTrending`/`isBookmarked` are false unless set true. A rejection lists the failing paths |
| ShowModel.StoredShowIsStable | server/src/models/Show.ts:6-42 | validating a stored show again gives the same show |
| ShowModel.BlankTitleRejected | server/src/models/Show.ts:6-13 | a title of white space only is rejected although present |
| Catalog.Tag | server/src/services/tmdb/tmdb.service.ts:33-41 | tagging keeps every other field and sets `media_type`, overriding an upstream one |
| Catalog.RetagOverrides | server/src/services/tmdb/tmdb.service.ts:33-36 | tagging twice keeps only the last tag |
| Catalog.TagAll | server/src/services/tmdb/tmdb.service.ts:59-62 | the tagged list has the same length and order, each item tagged |
| Catalog.TagAllTagged | server/src/services/tmdb/tmdb.service.ts:59-62 | every item of a tagged list carries the tag |
| Catalog.TagBoth | server/src/services/tmdb/tmdb.service.ts:129-139 | the tagged movies come first, then the tagged TV items; the length is the sum |
| Catalog.Shuffle | server/src/services/tmdb/tmdb.service.ts:43 | the shuffled list is a permutation of the input |
| Catalog.ShuffleReachesEveryPermutation | server/src/services/tmdb/tmdb.service.ts:43 | every permutation of the input is the result of some draws |
| TmdbService.SearchPathsEmbedQuery | server/src/services/tmdb/tmdb.service.ts:125-126 | the query appears verbatim right after `query=`, and different queries give different paths |
| TmdbService.AmpersandInQuerySplitsParameters | server/src/services/tmdb/tmdb.service.ts:125 | an `&` in the query reaches the path unescaped |
| TmdbService.GetAllShows | server/src/services/tmdb/tmdb.service.ts:22-50 | succeeds iff both discover calls succeed, with a permutation of tagged movies then tagged TV; otherwise "Failed to fetch shows" and no partial result |
| TmdbService.GetAllShowsAnyOrder | server/src/services/tmdb/tmdb.service.ts:43-45 | any ordering of the tagged items is a possible result |
| TmdbService.GetMovies | server/src/services/tmdb/tmdb.service.ts:53-69 | the discover-movie results, same length and order, each tagged "movie"; failure gives "Failed to fetch movies" |
| TmdbService.GetTvSeries | server/src/services/tmdb/tmdb.service.ts:72-82 | the discover-TV results, same length and order, each tagged "tv"; failure gives "Failed to fetch TV series" |
| TmdbService.GetMovieDetails | server/src/services/tmdb/tmdb.service.ts:85-92 | the body of `/movie/<id>` unchanged; failure gives "Failed to fetch movie details" |
| TmdbService.GetTvSeriesDetails | server/src/services/tmdb/tmdb.service.ts:95-102 | the body of `/tv/<id>` unchanged; failure gives "Failed to fetch TV series details" |
| TmdbService.GetAllTrending | server/src/services/tmdb/tmdb.service.ts:105-118 | the trending results unchanged and untagged; failure gives "Failed to fetch trending shows" |
| TmdbService.SearchByKeyword | server/src/services/tmdb/tmdb.service.ts:121-146 | succeeds iff both searches succeed, with the tagged movie hits followed by the tagged TV hits; otherwise "Failed to search shows" |
| TmdbService.SearchHitsAreTagged | server/src/services/tmdb/tmdb.service.ts:129-139 | every search hit carries `media_type` "movie" or "tv" |
| QueryString.Interpolate | client/netlify/functions/api.js:131-132 | a string query is used as it is; a one-element array gives its element |
| QueryString.RepeatedQueryJoins | client/netlify/functions/api.js:131-132 | a repeated query parameter is searched as its values joined by a comma |
| ClientApi.Root | client/netlify/functions/api.js:28-70 | the trending branch is taken iff the value is exactly "true" and returns the upstream results untouched. Otherwise the answer is a permutation of tagged movies then tagged TV. Any upstream failure gives 500 |
| ClientApi.RootAgreesWithService | client/netlify/functions/api.js:40-59 | the non-trending branch gives the same lists as the server's `getAllShows`, and fails with it |
| ClientApi.Movies | client/netlify/functions/api.js:72-93 | the movies, same length and order, tagged "movie"; failure gives 500 |
| ClientApi.Tv | client/netlify/functions/api.js:95-116 | the TV series, same length and order, tagged "tv"; failure gives 500 |
| ClientApi.Search | client/netlify/functions/api.js:118-159 | a missing or empty query gives 400 "Bad request". Otherwise the answer is the tagged movie hits followed by the tagged TV hits, or 500 |
| ClientApi.RefusedSearchCallsNothing | client/netlify/functions/api.js:120-128 | a refused search does not depend on upstream: no request is made |
| ClientApi.SearchAgreesWithService | client/netlify/functions/api.js:130-149 | a single-string search gives the same hits as the server's `searchByKeyword` |
| ClientApi.Bookmarked | client/netlify/functions/api.js:161-167 | always 200 with an empty list |
| ClientApi.UpstreamFailuresAre500 | client/netlify/functions/api.js:62-68 | every failure of a route that calls upstream is a 500 with `status: false` |
| SearchRoute.HandleSearch | server/src/routes/search.ts:8-22 | answers 200 with the results iff the query is a non-empty string and the search succeeds; every other outcome is the error 500 "Failed to search shows" |
| SearchRoute.BadQueryIsReported500 | server/src/routes/search.ts:10-21 | a missing, empty or repeated query raises 400 inside the `try`, reaches the caller as 500, and makes no request |
| SearchRoute.NeverAnswers400 | server/src/routes/search.ts:19-21 | no status other than 200 or 500 leaves the route |
| SearchRoute.ValidQueryPassedVerbatim | server/src/routes/search.ts:14-18 | the answer depends only on the upstream answers for this exact query's paths |
| DebugShows.ConstantFields | server/netlify/functions/debug-shows.js:23-28 | `category` "Movie", `media_type` "movie", `rating` "PG" and `isBookmarked` false on every record |
| DebugShows.ThumbnailIsBasePlusPoster | server/netlify/functions/debug-shows.js:20 | the thumbnail is the image base URL followed by the poster path: "null" for a null poster, "undefined" for a missing one |
| DebugShows.ThumbnailDeterminesPoster | server/netlify/functions/debug-shows.js:20 | for two present poster paths, equal thumbnails mean equal paths |
| DebugShows.AbsentPosterLooksLikePath | server/netlify/functions/debug-shows.js:20 | a `null` poster gives the same thumbnail as the path "null", and a missing one the same as the path "undefined" |
| DebugShows.Defaults | server/netlify/functions/debug-shows.js:21-26 | a missing backdrop gives "" and a missing vote average 0; present values are copied |
| DebugShows.TrendingThreshold | server/netlify/functions/debug-shows.js:27 | `isTrending` iff a popularity is present and above 1000 (1000 itself is not, and a missing one never is) |
| DebugShows.MapMovie | server/netlify/functions/debug-shows.js:17-29 | a record carries the movie's id and title, and its year is `getFullYear` of the release date as read, missing or `null` included |
| DebugShows.MapMovies | server/netlify/functions/debug-shows.js:17-29 | one record per movie, same length and order, with the movie's id and title |
| DebugShows.Handler | server/netlify/functions/debug-shows.js:4-64 | 200 with the mapped list iff the fetch succeeds, otherwise 500 "Failed to fetch shows"; the same CORS headers on both |
| CorsProxy.Handler | server/netlify/functions/cors-proxy.js:1-64 | a method other than "GET" gives 405 with only `Allow: GET`. A missing or empty url gives 400 with the JSON error. Otherwise the answer is 200 with the fetched JSON, or 500 with the error message |
| CorsProxy.MethodCheckedFirst | server/netlify/functions/cors-proxy.js:3-11 | a refused method makes no fetch and is refused whatever the url |
| CorsProxy.MissingUrlFetchesNothing | server/netlify/functions/cors-proxy.js:16-27 | a GET without a url answers 400 and makes no fetch |
| CorsProxy.FetchesTheGivenUrl | server/netlify/functions/cors-proxy.js:29-50 | the answer depends only on fetching the given url |
| CorsProxy.AllowOriginOnEveryAnswer | server/netlify/functions/cors-proxy.js:16-61 | every answer but the 405 carries the fixed allowed origin; the status tells the kind of body |
| AxiosConfig.OnRequest | client/src/services/api/axiosConfig.ts:19-39 | the request config passes through unchanged; no `Authorization` header is added |
| AxiosConfig.OnRequestError | client/src/services/api/axiosConfig.ts:40-46 | a request error is rejected as it is |
| AxiosConfig.OnResponse | client/src/services/api/axiosConfig.ts:51-53 | a successful response passes through unchanged |
| AxiosConfig.MockFor | client/src/services/api/axiosConfig.ts:69-79 | a URL containing "movies" gets the movie mock; otherwise one containing "tv" gets the TV mock; otherwise, and with no URL, the list is empty. Every mock has `status` true |
| AxiosConfig.OnResponseError | client/src/services/api/axiosConfig.ts:54-92 | an error with a response is rejected. A network error resolves with the URL's mock iff NODE_ENV is "development" or REACT_APP_USE_FALLBACK is "true", and is rejected otherwise |
| AxiosConfig.MoviesTestedFirst | client/src/services/api/axiosConfig.ts:73-76 | a URL with both "movies" and "tv" gets the movie mock |
| AxiosConfig.TvMockAndEmptyMock | client/src/services/api/axiosConfig.ts:75-79 | a URL with "tv" but without "movies" gets the TV mock; no URL gets the empty list |
| AxiosConfig.ProductionNeverMocks | client/src/services/api/axiosConfig.ts:63 | in production without the fallback flag, every error is rejected |

## Left out

- HTTP, Express and serverless wiring. Status codes and JSON bodies are values; headers are
  modelled only where the handler sets them itself (the two serverless functions).
- The shapes of upstream responses. A list endpoint is reduced to its `results` list or a
  failure: a body without `results` makes `.map` (or `result.length`) throw, and that counts
  as a failure.
- `ClientApi.Root`: on the trending branch `api.js` passes `response.data.results` on
  without touching it, so a 200 upstream body without `results` answers 200 with `trending`
  undefined. The model has no such outcome and answers 500 "Error fetching shows" there.
- The order of keys in JSON objects. Items are maps, so the key order an object spread
  produces, and with it the key order of the JSON sent on, is not modelled.
- Non-object upstream items. JavaScript would spread them into objects; they are not modelled.
- bcrypt, JWT and uuid as algorithms. The token's one-day expiry needs a clock and is not
  modelled; a verification that fails for any reason is `None`.
- The other fields of the JWT payload. `jwt.verify` is reduced to the id it yields, and a
  payload without `user.id` counts as a failed verification.
- Request bodies without `name`, `email` or `password`. `Register` takes all three as
  strings, so the lookup of an undefined e-mail and the hashing of an undefined password are
  not modelled.
- `AuthRoutes.UserStore.Login`, `AuthRoutes.UserStore.Logout`: the model stores users in
  the `IUser` shape. The `User` schema (`server/src/models/User.ts`) declares neither `id`
  nor `isAuthenticated`, so under Mongoose's default strict mode those assignments would not
  survive `save`, and the guard would read `undefined`. Schema strictness is not modelled.
- Mongoose itself: strict-mode dropping of undeclared fields, the unique index (the model keys
  the store by e-mail instead), lazy queries and races between concurrent requests.
  `UserStore.Register` checks the schema before insertion, as `save` does.
- A failed `save` in `login` and `logout`. Every stored user satisfies the schema and these
  routes change only `isAuthenticated`, so such a `save` cannot fail for validation reasons;
  database errors are not modelled.
- `server/src/routes/bookmarked.ts` and the `isBookmarked` field of users. The route imports
  names the model file does not export, does not await its updates and continues after its
  error answers, so it states no stable behaviour.
- What Express does with the error that the search route rethrows from its `catch`.
  `SearchRoute.HandleSearch` ends in the raised `ApiError`.
- Floating point. Popularity, vote averages and show years are reals, and NaN is not
  modelled.
- `DebugShows.Defaults`: a vote average of exactly 0 is falsy in JavaScript, but `|| 0`
  yields 0 for it anyway, so it is modelled as present.
- `DebugShows.MapMovie`: `getFullYear` of an invalid date (NaN) is `None` through the
  `yearOf` parameter, which also receives a missing or `null` `release_date` as such; the
  date parsing itself is not modelled. A missing or `null` `id` or `title` is not modelled:
  both are taken as present.
- `CorsProxy.Handler`: an event without `queryStringParameters` would throw before the `try`;
  the model takes the parameters as present, with `url` possibly missing.
- The `qs` object form of query values (`?query[a]=b`). Only absent values, single strings and
  repeated parameters (arrays) are modelled.
- React rendering, routing, navigation after registration, the `AppContext` state, logging and
  environment loading. The axios environment flags are an explicit `Env` parameter.
- Console logging in every handler is left out: it has no effect on results.
