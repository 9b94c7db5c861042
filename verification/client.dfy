/** `KaitenClient` construction and the middleware chain every request goes
    through: authentication first, then the retry loop, then the transport. */
module Client {
  import opened Wrappers
  import opened Http
  import E = Errors
  import opened Middleware
  import opened Authentication
  import opened Retry
  import opened Responses

  /** What a constructed client holds: the server URL and its two middlewares. */
  datatype KaitenClient = KaitenClient(
    serverURL: Url, auth: AuthenticationMiddleware, retry: RetryMiddleware)

  /** URL parsing (`URL(string:)`), which is not modelled. */
  type UrlParser = string -> Option<Url>

  /** `init(baseURL:token:)`: fails with `invalidURL(baseURL)` exactly when the
      base URL does not parse; otherwise the client carries the parsed URL, the
      token and the default attempt ceiling. */
  function Init(baseURL: string, token: string, parseURL: UrlParser): (r: Result<KaitenClient, E.KaitenError>)
    ensures r.Failure? <==> parseURL(baseURL).None?
    ensures r.Failure? ==> r.error == E.InvalidURL(baseURL)
    ensures r.Success? ==> r.value.serverURL == parseURL(baseURL).value
    ensures r.Success? ==> r.value.auth.token == token && r.value.retry.maxAttempts == DefaultMaxAttempts
  {
    var url :- OrThrow(parseURL(baseURL), E.InvalidURL(baseURL));
    Success(KaitenClient(url, AuthenticationMiddleware(token), RetryMiddleware(DefaultMaxAttempts)))
  }

  /** One request through the chain: the authentication middleware forwards
      once to the retry middleware, which calls the transport. What comes back
      is what the retry loop makes of the authorized request, sent to the
      client's server URL. */
  function Send(
    client: KaitenClient, parseDelay: DelayParser,
    request: HttpRequest, body: Option<HttpBody>, transport: Attempts
  ): (r: Outcome)
    ensures r == Retry.Intercept(client.retry, parseDelay,
                                 Authorize(request, client.auth.token), body, client.serverURL, transport).outcome
  {
    var retried := (rq: HttpRequest, b: Option<HttpBody>, u: Url) =>
      Retry.Intercept(client.retry, parseDelay, rq, b, u, transport).outcome;
    Authentication.Intercept(client.auth, request, body, client.serverURL, retried).outcome
  }

  /** Every transport attempt of a request carries the client's bearer token,
      is otherwise the request the caller built, goes to the client's server
      URL with the caller's body, and the chain hands back what the retry loop
      produced over those attempts. */
  lemma SendAuthorizesEveryAttempt(
    client: KaitenClient, parseDelay: DelayParser,
    request: HttpRequest, body: Option<HttpBody>, transport: Attempts
  )
    ensures var run := Retry.Intercept(client.retry, parseDelay,
                                       Authorize(request, client.auth.token), body, client.serverURL, transport);
      && Send(client, parseDelay, request, body, transport) == run.outcome
      && |run.calls| <= client.retry.maxAttempts
      && forall c | c in run.calls ::
           && AuthorizationField in c.request.headers
           && c.request.headers[AuthorizationField] == BearerCredential(client.auth.token)
           && SameExceptAuthorization(request, c.request)
           && c.body == body && c.baseURL == client.serverURL
  {
  }

  /** A client made by `Init` calls the transport at most three times per request,
      and never hands back a 429 as a response. */
  lemma InitializedClientBoundsAttempts(
    baseURL: string, token: string, parseURL: UrlParser, parseDelay: DelayParser,
    request: HttpRequest, body: Option<HttpBody>, transport: Attempts
  )
    requires Init(baseURL, token, parseURL).Success?
    ensures var client := Init(baseURL, token, parseURL).value;
      var run := Retry.Intercept(client.retry, parseDelay, Authorize(request, token), body, client.serverURL, transport);
      && |run.calls| <= 3
      && (Send(client, parseDelay, request, body, transport).Responded? ==>
            Send(client, parseDelay, request, body, transport).response.status != TooManyRequests)
  {
    var client := Init(baseURL, token, parseURL).value;
    SendAuthorizesEveryAttempt(client, parseDelay, request, body, transport);
  }
}
