/**
 * How the handlers compose across requests from one client: each request
 * sends the jar the previous reply left, and the network answers as given.
 */
module Sessions {
  import opened Wrappers
  import opened CookieJar
  import opened Headers
  import opened Upstream
  import opened Handlers

  /**
   * A refresh followed by an unreachable API still leaves the new access
   * token in the jar, so repeating the request forwards at once with that
   * token, whatever a second refresh would have answered.
   */
  method RetryAfterUnreachable(credentials: Credentials, jar: Jar, path: string, verb: HttpMethod, headers: seq<Header>,
                               body: string, tokens: TokenResponse, refreshAgain: AuthOutcome, forward: ForwardOutcome)
    returns (firstStatus: int, firstJar: Jar, status: int, reply: Result<string, ErrorBody>, trace: seq<Call>)
    requires ACCESS_TOKEN !in jar && REFRESH_TOKEN in jar
    requires UserAgentReadable(headers)
    ensures Find(headers, USER_AGENT).Some? ==> firstStatus == INTERNAL_SERVER_ERROR
    ensures ACCESS_TOKEN in firstJar && firstJar[ACCESS_TOKEN] == TokenCookie(tokens.accessToken, MaxAge(tokens.expiresIn))
    ensures NoRefresh(trace)
    ensures Find(headers, USER_AGENT).Some? ==>
      && trace == [ForwardCall(ForwardRequest(verb, path, body, tokens.accessToken, Find(headers, USER_AGENT).value))]
      && (forward.Response? ==> status == forward.status && reply == Ok(forward.body))
  {
    var firstReply, firstTrace;
    firstStatus, firstJar, firstReply, firstTrace := Proxy(credentials, jar, path, verb, headers, body, Granted(tokens), TransportError);
    var jar2;
    status, jar2, reply, trace := Proxy(credentials, firstJar, path, verb, headers, body, refreshAgain, forward);
  }

  /**
   * A failed refresh keeps the refresh-token cookie, so the next request
   * asks for a refresh again with the very same refresh token.
   */
  method RetryAfterRefreshFailure(credentials: Credentials, jar: Jar, path: string, verb: HttpMethod, headers: seq<Header>,
                                  body: string, failure: AuthOutcome, refreshAgain: AuthOutcome, forward: ForwardOutcome)
    returns (firstStatus: int, status: int, reply: Result<string, ErrorBody>, trace: seq<Call>)
    requires ACCESS_TOKEN !in jar && REFRESH_TOKEN in jar && !failure.Granted?
    requires refreshAgain.Granted? ==> UserAgentReadable(headers)
    ensures firstStatus == UNAUTHORIZED
    ensures |trace| >= 1 && trace[0] == RefreshCall(credentials, jar[REFRESH_TOKEN].value)
    ensures refreshAgain.Granted? && Find(headers, USER_AGENT).Some? ==>
      trace[|trace| - 1] == ForwardCall(ForwardRequest(verb, path, body, refreshAgain.tokens.accessToken,
                                                       Find(headers, USER_AGENT).value))
  {
    var first, jar1, firstReply, firstTrace := Proxy(credentials, jar, path, verb, headers, body, failure, forward);
    firstStatus := first;
    var jar2;
    status, jar2, reply, trace := Proxy(credentials, jar1, path, verb, headers, body, refreshAgain, forward);
  }

  /** After a successful login the proxy forwards with the issued access token and never refreshes. */
  method ProxyAfterLogin(credentials: Credentials, jar: Jar, code: string, now: int, tokens: TokenResponse,
                         path: string, verb: HttpMethod, headers: seq<Header>, body: string,
                         refresh: AuthOutcome, forward: ForwardOutcome)
    returns (status: int, reply: Result<string, ErrorBody>, trace: seq<Call>)
    requires UserAgentReadable(headers)
    ensures NoRefresh(trace)
    ensures Find(headers, USER_AGENT).Some? ==>
      trace == [ForwardCall(ForwardRequest(verb, path, body, tokens.accessToken, Find(headers, USER_AGENT).value))]
    ensures Find(headers, USER_AGENT).None? ==> status == UNAUTHORIZED && trace == []
  {
    var login, loginTrace := Login(credentials, jar, code, now, Granted(tokens));
    var jar1;
    status, jar1, reply, trace := Proxy(credentials, login.jar, path, verb, headers, body, refresh, forward);
  }

  /** After a logout the proxy refuses every request without calling the network. */
  method ProxyAfterLogout(credentials: Credentials, jar: Jar, path: string, verb: HttpMethod, headers: seq<Header>,
                          body: string, refresh: AuthOutcome, forward: ForwardOutcome)
    returns (status: int, reply: Result<string, ErrorBody>, trace: seq<Call>)
    ensures status == UNAUTHORIZED && reply == Err(NewError(UNAUTHORIZED, MSG_NO_TOKEN)) && trace == []
  {
    var jar1;
    status, jar1, reply, trace := Proxy(credentials, Logout(jar), path, verb, headers, body, refresh, forward);
  }

  /**
   * Login with code "abc123" answered by the pair AT1/RT1 with a one-hour
   * access token: the access cookie lives 3600 seconds, the refresh cookie
   * 62985600 seconds (729 days) from now.
   */
  method LoginScenario(credentials: Credentials, now: int) returns (reply: LoginReply)
    ensures reply.SessionSet? && reply.Status() == 200
    ensures "access-token" in reply.jar && "refresh-token" in reply.jar
    ensures reply.jar["access-token"] == Cookie("AT1", MaxAge(3600), true, true, "/homeworker")
    ensures reply.jar["refresh-token"] == Cookie("RT1", Expires(now + 62985600), true, true, "/homeworker")
  {
    var trace;
    reply, trace := Login(credentials, map[], "abc123", now, Granted(TokenResponse("AT1", "RT1", 3600)));
  }

  /**
   * GET /subjects with only the refresh token RT1, refreshed to AT2: the API
   * is asked for GET https://homeworker.li/api/v2/subjects with "Bearer AT2",
   * and the reply carries the new access cookie.
   */
  method RefreshScenario(credentials: Credentials, userAgent: string, forward: ForwardOutcome)
    returns (jar': Jar, trace: seq<Call>)
    requires VisibleAscii(userAgent)
    ensures "access-token" in jar' && "refresh-token" in jar'
    ensures jar'["access-token"].value == "AT2" && jar'["refresh-token"].value == "RT1"
    ensures trace == [RefreshCall(credentials, "RT1"),
                      ForwardCall(UpstreamRequest(Get, "https://homeworker.li/api/v2/subjects",
                                                  [("Authorization", "Bearer AT2"), ("User-Agent", userAgent)], None))]
  {
    var jar := map["refresh-token" := Cookie("RT1", Expires(0), true, true, "/homeworker")];
    var headers := [("User-Agent", userAgent)];
    assert Find(headers, USER_AGENT) == Some(userAgent);
    var status, reply;
    status, jar', reply, trace := Proxy(credentials, jar, "/subjects", Get, headers, "",
                                        Granted(TokenResponse("AT2", "RT2", 3600)), forward);
    assert API_BASE + "/subjects" == "https://homeworker.li/api/v2/subjects";
    assert BEARER + "AT2" == "Bearer AT2";
  }
}
