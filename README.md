# homeworker proxy backend: token lifecycle and request forwarding

A model of the backend of a desktop dashboard: a reverse proxy in front of the
homeworker API that keeps the user's OAuth2 tokens in private browser cookies.
Three handlers make up its behaviour:

- **login** trades an authorization code for an access/refresh token pair and
  sets two cookies: `access-token` with a max-age of the token's lifetime, and
  `refresh-token` expiring 729 days after now. Both are HttpOnly and Secure and
  scoped to `/homeworker`.
- **logout** drops both cookies.
- **proxy** resolves an access token. It uses the `access-token` cookie when
  there is one. Otherwise it refreshes with the `refresh-token` cookie, or
  answers 401. It then requires a `User-Agent` header, forwards the request
  to `https://homeworker.li/api/v2` + path with `Authorization: Bearer <token>`
  and the inbound User-Agent, and relays the upstream status and body. An
  unreachable upstream becomes a 500 error envelope.

Every locally produced error, in `Login` and in `Proxy`, is the envelope
`{name: "Proxy", message, code}` built by `NewError`.

Modules:

- `Wrappers` (wrappers.dfy): `Option` and `Result`.
- `CookieJar` (cookie_jar.dfy): the cookie jar as a map from name to cookie.
- `Headers` (headers.dfy): inbound headers and the case-insensitive lookup of
  the first header with a given name.
- `Upstream` (upstream.dfy): the homeworker types, the answers of the network
  as input datatypes, and the trace of outbound calls.
- `Handlers` (handlers.dfy): `Login`, `Logout`, `Proxy`, `NewError` and the
  forwarded-request builder.
- `Sessions` (sessions.dfy): several requests from one client chained through
  the handlers, and two worked scenarios.

The network is not modelled. The token endpoint's answer to an exchange or a
refresh (`Granted(tokens) | RequestError | ApiError(err)`) and the API's
answer to the forwarded request (`Response(status, body) | TransportError`)
are parameters of the handlers. Each handler also returns the trace of the
calls it actually made, so "no outbound call" and "no refresh" are statements
about that trace. The wall clock is the parameter `now`, in Unix seconds. The
OAuth client id and secret are the parameter `credentials`.

`Login` and `Proxy` are methods. As in the source, they thread a jar that is
reassigned along each branch and return early on failure. `Logout` and
`NewError` are single expressions and are functions.

## Model

| member | source | states |
|---|---|---|
| `Handlers.Login` | backend/src/main.rs:34-83 | exactly one exchange call with the code and credentials. On success (status 200): `access-token` = the access token with max-age = `expires_in`, and `refresh-token` = the refresh token expiring now + 729 days. Both cookies are HttpOnly, Secure, with path `/homeworker`. Other cookies are unchanged. A transport failure gives 500 with the Proxy envelope "Error while forwarding the request". An API error gives 502 carrying the upstream error. No jar is returned on failure. |
| `Handlers.NewError` | backend/src/main.rs:217-223 | the result is the `"Proxy"` envelope carrying exactly the given message and code. `Handlers.Proxy` states that every error reply is this envelope with the reply's status as its code. |
| `Handlers.Logout` | backend/src/main.rs:85-88 | neither token cookie is left, so the session is logged out. Every other cookie is kept unchanged and no cookie is added. |
| `Handlers.LogoutIdempotent` | backend/src/main.rs:85-88 | logging out twice gives the same jar as logging out once |
| `Handlers.LogoutIgnoresTokens` | backend/src/main.rs:85-88 | two jars that differ only in their token cookies log out to the same jar, so it does not matter whether the tokens were there |
| `Handlers.ForwardRequest` | backend/src/main.rs:175-190 | the URL is the API base followed by exactly the inbound path. The method is kept. A body is attached exactly for POST and DELETE, and it is the inbound body. The headers are exactly `Authorization`, whose Bearer token is the access token, and `User-Agent` with the inbound value. |
| `Handlers.Proxy` | backend/src/main.rs:90-215 | With neither cookie: 401 "No access or refresh token found.", the same jar and no call. With an access-token cookie: no refresh and the same jar. A refresh is asked for exactly when only the refresh-token cookie is present, and it is the first call, using that cookie's value. A failed refresh gives 401 "Unable to refresh the access token." with the same jar and only the refresh call. A granted refresh installs the new access token (max-age = `expires_in`) on every later path. The refresh-token cookie and every other cookie are never changed, and the session never moves back. Without a User-Agent: 401 and no forwarded call. Otherwise exactly one forwarded call comes last, built by `ForwardRequest` from the resolved token. A transport error gives 500 "Proxy could not reach the homeworker API". A response relays the upstream status and body. Every error body is the Proxy envelope whose code is the status, and the status is then 401 or 500. |
| `Headers.Find` | backend/src/main.rs:163 | none exactly when no header has the name, compared case-insensitively. Otherwise the value of the first header with that name. |
| `Sessions.RetryAfterUnreachable` | backend/src/main.rs:132-208 | the first request refreshes and cannot reach the API, yet the jar it returns holds the new access-token cookie (max-age = `expires_in`). Repeating the request then makes no refresh call and forwards once with that token, relaying the answer. |
| `Sessions.RetryAfterRefreshFailure` | backend/src/main.rs:145-158 | the first request's refresh fails and it answers 401. The next request asks again with the same refresh token, and when that refresh succeeds it forwards with the new token. |
| `Sessions.ProxyAfterLogin` | backend/src/main.rs:47-66 | after a successful login, the proxy never refreshes. It forwards once with the issued access token, or makes no call at all (401) when the User-Agent is missing. |
| `Sessions.ProxyAfterLogout` | backend/src/main.rs:85-122 | after a logout, every proxied request gets 401 "No access or refresh token found." with no outbound call |
| `Sessions.LoginScenario` | backend/src/main.rs:47-66 | code "abc123" answered with AT1/RT1/3600 gives `access-token=AT1` (max-age 3600) and `refresh-token=RT1` expiring 62985600 seconds after now |
| `Sessions.RefreshScenario` | backend/src/main.rs:125-190 | GET `/subjects` with only `refresh-token=RT1`, refreshed to AT2: one refresh with RT1, then one GET of `https://homeworker.li/api/v2/subjects` with `Bearer AT2` and no body. The jar holds `access-token=AT2` and still `refresh-token=RT1`. |

## Left out

- Server start-up, routing and the key layer (backend/src/main.rs:10-32) are framework wiring. Reading `CLIENT_ID`/`CLIENT_SECRET` from the environment is replaced by the `credentials` parameter. `println!` logging has no effect on any outcome.
- Cookie sealing (`PrivateCookieJar`, `Key`): the jar is the map of cookies that unsealed, so a cookie that fails to unseal is simply absent. Removal is modelled as the cookie leaving the map. The removal `Set-Cookie` headers the library emits are not modelled.
- The token endpoint client and the HTTP transport (the homeworker crate and reqwest) are foreign code. Their answers are input datatypes, and the calls are recorded in the trace.
- `expires_in` is an unbounded natural number. Its Rust type lives in the homeworker crate, which is not part of this model, so the `as i64` conversion is not modelled.
- Methods other than GET, POST and DELETE: the route registers only those three, so `HttpMethod` has exactly three variants. The `todo!()` panic for any other method is not modelled. A HEAD request that a GET route admits would reach that panic.
- Whether the captured path starts with `/` is decided by the router, which is not part of this model. The path is taken as given and appended to the base URL unchanged.
- Panics: `to_str().unwrap()` on the User-Agent runs only once an access token is resolved, so the requirement `UserAgentReadable` (visible ASCII or tab) applies only then. A request with no cookies, or whose refresh fails, is modelled whatever its User-Agent holds. `text().await.unwrap()` is excluded by giving the upstream answer's body as text.
- The login response's cookie headers and the HTTP encoding of replies (JSON bodies, `Set-Cookie` syntax) are not modelled. A reply is its status, jar and body value.
- frontend/src/types/timetable.rs declares only data types with no behaviour, so it is not part of this model.
