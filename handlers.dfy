/**
 * The three request handlers of the proxy backend: `Login` trades an
 * authorization code for a token pair and stores both tokens in cookies,
 * `Logout` drops them, and `Proxy` resolves an access token (refreshing it
 * when only the refresh token is left) and forwards the request to the
 * homeworker API.
 */
module Handlers {
  import opened Wrappers
  import opened CookieJar
  import opened Headers
  import opened Upstream

  const ACCESS_TOKEN := "access-token"
  const REFRESH_TOKEN := "refresh-token"
  const COOKIE_PATH := "/homeworker"
  const API_BASE := "https://homeworker.li/api/v2"
  const BEARER := "Bearer "

  const SECONDS_PER_DAY := 86400
  /** The refresh-token cookie expires this many days after login. */
  const REFRESH_TOKEN_DAYS := 729

  const OK := 200
  const UNAUTHORIZED := 401
  const INTERNAL_SERVER_ERROR := 500
  const BAD_GATEWAY := 502

  const PROXY_ERROR_NAME := "Proxy"
  const MSG_EXCHANGE_UNREACHABLE := "Error while forwarding the request"
  const MSG_NO_TOKEN := "No access or refresh token found."
  const MSG_REFRESH_FAILED := "Unable to refresh the access token."
  const MSG_NO_USER_AGENT := "No User-Agent header found. This may be required for accessing the homeworker API."
  const MSG_UNREACHABLE := "Proxy could not reach the homeworker API"

  /** The proxy's own error envelope for `code`, told apart from upstream errors by its name. */
  function NewError(code: int, message: string): (e: ErrorBody)
    ensures e.name == PROXY_ERROR_NAME && e.message == message && e.code == code
  {
    ErrorBody(PROXY_ERROR_NAME, message, code)
  }

  /** A token cookie as the handlers set it: readable by the server only, sent over TLS only, scoped to the proxy's path. */
  function TokenCookie(value: string, lifetime: Lifetime): Cookie
  {
    Cookie(value, lifetime, true, true, COOKIE_PATH)
  }

  /** The session a jar represents. */
  datatype Session = LoggedOut | NeedsRefresh | Active

  function SessionOf(jar: Jar): Session
  {
    if ACCESS_TOKEN in jar then Active
    else if REFRESH_TOKEN in jar then NeedsRefresh
    else LoggedOut
  }

  // ---------------------------------------------------------------- login

  /** Reply to a login: the jar with the new cookies (status 200), or a status with an error body and no cookies. */
  datatype LoginReply = SessionSet(jar: Jar) | LoginError(status: int, error: ErrorBody)
  {
    function Status(): int
    {
      if SessionSet? then OK else status
    }
  }

  /**
   * Trades the authorization code `code` for a token pair. `exchange` is what
   * the token endpoint answers, `now` the current instant in Unix seconds.
   */
  method Login(credentials: Credentials, jar: Jar, code: string, now: int, exchange: AuthOutcome)
    returns (reply: LoginReply, trace: seq<Call>)
    ensures trace == [ExchangeCall(credentials, code)]
    ensures reply.SessionSet? <==> exchange.Granted?
    ensures exchange.Granted? ==>
      && reply.Status() == OK
      && ACCESS_TOKEN in reply.jar && REFRESH_TOKEN in reply.jar
      && reply.jar[ACCESS_TOKEN] == TokenCookie(exchange.tokens.accessToken, MaxAge(exchange.tokens.expiresIn))
      && reply.jar[REFRESH_TOKEN] == TokenCookie(exchange.tokens.refreshToken, Expires(now + REFRESH_TOKEN_DAYS * SECONDS_PER_DAY))
      && reply.jar - {ACCESS_TOKEN, REFRESH_TOKEN} == jar - {ACCESS_TOKEN, REFRESH_TOKEN}
    ensures exchange.RequestError? ==>
      reply == LoginError(INTERNAL_SERVER_ERROR, NewError(INTERNAL_SERVER_ERROR, MSG_EXCHANGE_UNREACHABLE))
    ensures exchange.ApiError? ==> reply == LoginError(BAD_GATEWAY, exchange.error)
  {
    var j := jar;
    trace := [ExchangeCall(credentials, code)];
    match exchange {
      case Granted(tokens) =>
        j := j[ACCESS_TOKEN := TokenCookie(tokens.accessToken, MaxAge(tokens.expiresIn))];
        j := j[REFRESH_TOKEN := TokenCookie(tokens.refreshToken, Expires(now + REFRESH_TOKEN_DAYS * SECONDS_PER_DAY))];
        reply := SessionSet(j);
      case RequestError =>
        reply := LoginError(INTERNAL_SERVER_ERROR, NewError(INTERNAL_SERVER_ERROR, MSG_EXCHANGE_UNREACHABLE));
      case ApiError(err) =>
        reply := LoginError(BAD_GATEWAY, err);
    }
  }

  // ---------------------------------------------------------------- logout

  /** Drops both token cookies; every other cookie stays as it was. */
  function Logout(jar: Jar): (r: Jar)
    ensures ACCESS_TOKEN !in r && REFRESH_TOKEN !in r
    ensures SessionOf(r) == LoggedOut
    ensures forall name :: name in jar && name != ACCESS_TOKEN && name != REFRESH_TOKEN ==> name in r && r[name] == jar[name]
    ensures forall name :: name in r ==> name in jar
  {
    (jar - {ACCESS_TOKEN}) - {REFRESH_TOKEN}
  }

  /** Logging out twice is logging out once. */
  lemma LogoutIdempotent(jar: Jar)
    ensures Logout(Logout(jar)) == Logout(jar)
  {
  }

  /** The outcome of a logout does not depend on which token cookies were there before. */
  lemma LogoutIgnoresTokens(jar1: Jar, jar2: Jar)
    requires jar1 - {ACCESS_TOKEN, REFRESH_TOKEN} == jar2 - {ACCESS_TOKEN, REFRESH_TOKEN}
    ensures Logout(jar1) == Logout(jar2)
  {
    var rest := jar1 - {ACCESS_TOKEN, REFRESH_TOKEN};
    forall name | name != ACCESS_TOKEN && name != REFRESH_TOKEN
      ensures (name in jar1 <==> name in rest) && (name in jar2 <==> name in rest)
      ensures name in rest ==> jar1[name] == rest[name] == jar2[name]
    {
    }
    assert Logout(jar1) == rest == Logout(jar2);
  }

  // ---------------------------------------------------------------- proxy

  /** The token a Bearer authorization value carries (section 2.1 of RFC 6750), if it is one. */
  function BearerToken(authorization: string): Option<string>
  {
    if |authorization| >= |BEARER| && authorization[..|BEARER|] == BEARER
    then Some(authorization[|BEARER|..])
    else None
  }

  /**
   * The request forwarded to the homeworker API for an inbound `verb` on
   * `path` with `body`, authorized by `accessToken` and carrying `userAgent`.
   */
  function ForwardRequest(verb: HttpMethod, path: string, body: string, accessToken: string, userAgent: string): (r: UpstreamRequest)
    ensures r.verb == verb
    ensures |r.url| == |API_BASE| + |path| && r.url[..|API_BASE|] == API_BASE && r.url[|API_BASE|..] == path
    ensures r.body.Some? <==> verb != Get
    ensures r.body.Some? ==> r.body.value == body
    ensures |r.headers| == 2
    ensures r.headers[0].0 == "Authorization" && BearerToken(r.headers[0].1) == Some(accessToken)
    ensures r.headers[1] == ("User-Agent", userAgent)
  {
    var url := API_BASE + path;
    var payload := match verb
      case Get => None
      case Post => Some(body)
      case Delete => Some(body);
    UpstreamRequest(verb, url, [("Authorization", BEARER + accessToken), ("User-Agent", userAgent)], payload)
  }

  /** Whether the User-Agent the proxy reads, if any, can be read as text. */
  predicate UserAgentReadable(headers: seq<Header>)
  {
    var ua := Find(headers, USER_AGENT);
    ua.Some? ==> VisibleAscii(ua.value)
  }

  /** The access token a proxy request ends up holding, if it gets one. */
  function ResolvedToken(jar: Jar, refresh: AuthOutcome): Option<string>
  {
    if ACCESS_TOKEN in jar then Some(jar[ACCESS_TOKEN].value)
    else if REFRESH_TOKEN in jar && refresh.Granted? then Some(refresh.tokens.accessToken)
    else None
  }

  /**
   * Handles an inbound `verb` request for `path` under the API prefix.
   * `refresh` is what the token endpoint answers a refresh, `forward` what the
   * API answers the forwarded request; the trace says which of them were asked.
   */
  method Proxy(credentials: Credentials, jar: Jar, path: string, verb: HttpMethod, headers: seq<Header>,
               body: string, refresh: AuthOutcome, forward: ForwardOutcome)
    returns (status: int, jar': Jar, reply: Result<string, ErrorBody>, trace: seq<Call>)
    requires ResolvedToken(jar, refresh).Some? ==> UserAgentReadable(headers)
    // neither cookie: refused at once, nothing is asked of the network
    ensures ACCESS_TOKEN !in jar && REFRESH_TOKEN !in jar ==>
      status == UNAUTHORIZED && jar' == jar && reply == Err(NewError(UNAUTHORIZED, MSG_NO_TOKEN)) && trace == []
    // an access-token cookie is used as it is, with no refresh
    ensures ACCESS_TOKEN in jar ==> jar' == jar && NoRefresh(trace)
    // a refresh is asked for exactly when only the refresh-token cookie is there, and first
    ensures !NoRefresh(trace) <==> ACCESS_TOKEN !in jar && REFRESH_TOKEN in jar
    ensures ACCESS_TOKEN !in jar && REFRESH_TOKEN in jar ==>
      |trace| >= 1 && trace[0] == RefreshCall(credentials, jar[REFRESH_TOKEN].value)
    // a failed refresh: refused, the jar and so the refresh token are kept
    ensures ACCESS_TOKEN !in jar && REFRESH_TOKEN in jar && !refresh.Granted? ==>
      && status == UNAUTHORIZED && jar' == jar
      && reply == Err(NewError(UNAUTHORIZED, MSG_REFRESH_FAILED))
      && trace == [RefreshCall(credentials, jar[REFRESH_TOKEN].value)]
    // a successful refresh installs the new access token, whatever happens after
    ensures ACCESS_TOKEN !in jar && REFRESH_TOKEN in jar && refresh.Granted? ==>
      jar' == jar[ACCESS_TOKEN := TokenCookie(refresh.tokens.accessToken, MaxAge(refresh.tokens.expiresIn))]
    // the refresh-token cookie, and every cookie but the access token, is never touched
    ensures jar' - {ACCESS_TOKEN} == jar - {ACCESS_TOKEN}
    ensures (REFRESH_TOKEN in jar' <==> REFRESH_TOKEN in jar) && (REFRESH_TOKEN in jar ==> jar'[REFRESH_TOKEN] == jar[REFRESH_TOKEN])
    // the session never goes back
    ensures SessionOf(jar) != LoggedOut ==> SessionOf(jar') == SessionOf(jar) || SessionOf(jar') == Active
    ensures SessionOf(jar) == LoggedOut ==> jar' == jar
    // no User-Agent: refused before anything is forwarded
    ensures ResolvedToken(jar, refresh).Some? && Find(headers, USER_AGENT).None? ==>
      && status == UNAUTHORIZED && reply == Err(NewError(UNAUTHORIZED, MSG_NO_USER_AGENT)) && NoForward(trace)
      && |trace| == (if ACCESS_TOKEN in jar then 0 else 1)
    // otherwise exactly one forwarded request, the last call, built from the token and the User-Agent
    ensures !NoForward(trace) <==> ResolvedToken(jar, refresh).Some? && Find(headers, USER_AGENT).Some?
    ensures ResolvedToken(jar, refresh).Some? && Find(headers, USER_AGENT).Some? ==>
      && |trace| == (if ACCESS_TOKEN in jar then 1 else 2)
      && trace[|trace| - 1] == ForwardCall(ForwardRequest(verb, path, body, ResolvedToken(jar, refresh).value,
                                                          Find(headers, USER_AGENT).value))
      && (forward.TransportError? ==>
            status == INTERNAL_SERVER_ERROR && reply == Err(NewError(INTERNAL_SERVER_ERROR, MSG_UNREACHABLE)))
      && (forward.Response? ==> status == forward.status && reply == Ok(forward.body))
    // every error body is the proxy's own envelope, with the status as its code
    ensures reply.Err? ==> reply.error.name == PROXY_ERROR_NAME && reply.error.code == status
    ensures reply.Err? ==> status == UNAUTHORIZED || status == INTERNAL_SERVER_ERROR
  {
    jar' := jar;
    trace := [];
    var accessToken: string;
    match ValueOf(jar', ACCESS_TOKEN) {
      case Some(value) =>
        accessToken := value;
      case None =>
        var refreshToken: string;
        match ValueOf(jar', REFRESH_TOKEN) {
          case Some(value) =>
            refreshToken := value;
          case None =>
            return UNAUTHORIZED, jar', Err(NewError(UNAUTHORIZED, MSG_NO_TOKEN)), trace;
        }
        trace := trace + [RefreshCall(credentials, refreshToken)];
        assert trace[0].RefreshCall?;
        match refresh {
          case Granted(tokens) =>
            jar' := jar'[ACCESS_TOKEN := TokenCookie(tokens.accessToken, MaxAge(tokens.expiresIn))];
            accessToken := tokens.accessToken;
          case RequestError =>
            return UNAUTHORIZED, jar', Err(NewError(UNAUTHORIZED, MSG_REFRESH_FAILED)), trace;
          case ApiError(_) =>
            return UNAUTHORIZED, jar', Err(NewError(UNAUTHORIZED, MSG_REFRESH_FAILED)), trace;
        }
    }

    var userAgent: string;
    match Find(headers, USER_AGENT) {
      case Some(value) =>
        userAgent := value;
      case None =>
        return UNAUTHORIZED, jar', Err(NewError(UNAUTHORIZED, MSG_NO_USER_AGENT)), trace;
    }

    var request := ForwardRequest(verb, path, body, accessToken, userAgent);
    ghost var resolved := trace;
    trace := trace + [ForwardCall(request)];
    assert trace[|trace| - 1].ForwardCall? && trace[..|resolved|] == resolved;
    match forward {
      case Response(upstreamStatus, text) =>
        status, reply := upstreamStatus, Ok(text);
      case TransportError =>
        status, reply := INTERNAL_SERVER_ERROR, Err(NewError(INTERNAL_SERVER_ERROR, MSG_UNREACHABLE));
    }
  }
}
