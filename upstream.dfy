/**
 * What the proxy exchanges with the homeworker API: the token endpoint's answers,
 * the forwarded request and its answer, and the record of outbound calls.
 *
 * The network is not modelled. Every answer the API could give is an input to
 * the handlers, and the trace of calls says which questions were actually asked.
 */
module Upstream {
  import opened Wrappers

  /** The OAuth client identifier and secret the process was started with. */
  datatype Credentials = Credentials(clientId: string, clientSecret: string)

  /** A token pair issued by the token endpoint; `expiresIn` is the access token's lifetime in seconds. */
  datatype TokenResponse = TokenResponse(accessToken: string, refreshToken: string, expiresIn: nat)

  /** The error envelope `{name, message, code}` of the homeworker API, also used for the proxy's own errors. */
  datatype ErrorBody = ErrorBody(name: string, message: string, code: int)

  /** Answer of the token endpoint to an exchange or a refresh: tokens, a transport failure, or an API error. */
  datatype AuthOutcome = Granted(tokens: TokenResponse) | RequestError | ApiError(error: ErrorBody)

  /** The inbound methods the proxy route accepts. */
  datatype HttpMethod = Get | Post | Delete

  datatype UpstreamRequest = UpstreamRequest(verb: HttpMethod, url: string, headers: seq<(string, string)>, body: Option<string>)

  /** Answer to a forwarded request: a status and the text of its body, or no answer at all. */
  datatype ForwardOutcome = Response(status: int, body: string) | TransportError

  /** One outbound call made while handling a request. */
  datatype Call =
    | ExchangeCall(credentials: Credentials, code: string)
    | RefreshCall(credentials: Credentials, refreshToken: string)
    | ForwardCall(request: UpstreamRequest)

  predicate NoRefresh(trace: seq<Call>)
  {
    forall i :: 0 <= i < |trace| ==> !trace[i].RefreshCall?
  }

  predicate NoForward(trace: seq<Call>)
  {
    forall i :: 0 <= i < |trace| ==> !trace[i].ForwardCall?
  }
}
