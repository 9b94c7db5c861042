/** `AuthenticationMiddleware`: stamps the bearer token on the outgoing request
    and hands it to the next stage exactly once. */
module Authentication {
  import opened Wrappers
  import opened Http
  import opened Middleware

  const AuthorizationField: string := "Authorization"

  /** The middleware holds only the token captured at construction. */
  datatype AuthenticationMiddleware = AuthenticationMiddleware(token: string)

  function BearerCredential(token: string): string {
    "Bearer " + token
  }

  /** Two requests that agree on everything except the `Authorization` field. */
  predicate SameExceptAuthorization(a: HttpRequest, b: HttpRequest) {
    && a.httpMethod == b.httpMethod
    && a.scheme == b.scheme
    && a.authority == b.authority
    && a.path == b.path
    && a.headers - {AuthorizationField} == b.headers - {AuthorizationField}
  }

  /** The request with its `Authorization` field set, replacing any previous value. */
  function Authorize(request: HttpRequest, token: string): (r: HttpRequest)
    ensures AuthorizationField in r.headers
    ensures r.headers[AuthorizationField] == BearerCredential(token)
    ensures SameExceptAuthorization(request, r)
  {
    request.(headers := request.headers[AuthorizationField := BearerCredential(token)])
  }

  /** One run of the middleware: what it forwarded and what it returned. */
  datatype AuthRun = AuthRun(forwarded: Forwarded, outcome: Outcome)

  /** `intercept`: the next stage sees the authorized request with the body and
      base URL untouched, and its outcome, a 401 or a thrown error included,
      is returned as it is. */
  function Intercept(
    mw: AuthenticationMiddleware, request: HttpRequest, body: Option<HttpBody>, baseURL: Url, next: Next
  ): (r: AuthRun)
    ensures r.forwarded.body == body && r.forwarded.baseURL == baseURL
    ensures AuthorizationField in r.forwarded.request.headers
    ensures r.forwarded.request.headers[AuthorizationField] == BearerCredential(mw.token)
    ensures SameExceptAuthorization(request, r.forwarded.request)
    ensures r.outcome == next(r.forwarded.request, body, baseURL)
  {
    var authorized := Authorize(request, mw.token);
    AuthRun(Forwarded(authorized, body, baseURL), next(authorized, body, baseURL))
  }

  /** The stamped request depends only on the rest of the request and the
      token: two requests are stamped alike exactly when they differ at most
      in their `Authorization` field. */
  lemma AuthorizeDependsOnlyOnRest(a: HttpRequest, b: HttpRequest, token: string)
    ensures Authorize(a, token) == Authorize(b, token) <==> SameExceptAuthorization(a, b)
  {
    var ra, rb := Authorize(a, token), Authorize(b, token);
    if ra == rb {
      assert SameExceptAuthorization(a, ra) && SameExceptAuthorization(b, rb);
    }
    if SameExceptAuthorization(a, b) {
      forall k | k in ra.headers
        ensures k in rb.headers && ra.headers[k] == rb.headers[k]
      {
        if k != AuthorizationField {
          assert k in a.headers - {AuthorizationField};
        }
      }
      forall k | k in rb.headers
        ensures k in ra.headers
      {
        if k != AuthorizationField {
          assert k in b.headers - {AuthorizationField};
        }
      }
      assert ra.headers == rb.headers;
    }
  }

  /** Stamping twice with the same token is stamping once. */
  lemma AuthorizeIdempotent(request: HttpRequest, token: string)
    ensures Authorize(Authorize(request, token), token) == Authorize(request, token)
  {
    AuthorizeDependsOnlyOnRest(Authorize(request, token), request, token);
  }

  /** The last token stamped wins: an earlier `Authorization` value leaves no trace. */
  lemma AuthorizeLastTokenWins(request: HttpRequest, first: string, second: string)
    ensures Authorize(Authorize(request, first), second) == Authorize(request, second)
  {
    AuthorizeDependsOnlyOnRest(Authorize(request, first), request, second);
  }

  /** A 401 from the next stage is handed back as a response, not turned into an error. */
  lemma UnauthorizedResponsePassesThrough(
    mw: AuthenticationMiddleware, request: HttpRequest, body: Option<HttpBody>, baseURL: Url, next: Next
  )
    requires next(Authorize(request, mw.token), body, baseURL).Responded?
    requires next(Authorize(request, mw.token), body, baseURL).response.status == 401
    ensures Intercept(mw, request, body, baseURL, next).outcome.Responded?
    ensures Intercept(mw, request, body, baseURL, next).outcome.response.status == 401
  {
  }
}
