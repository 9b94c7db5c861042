/** What a client middleware sees: the request it forwards and the outcome of
    the next stage of the chain. */
module Middleware {
  import opened Wrappers
  import opened Http
  import opened Errors

  /** The next stage either returns a response (with an optional body) or throws. */
  datatype Outcome =
    | Responded(response: HttpResponse, body: Option<HttpBody>)
    | Threw(error: AnyError)

  /** The arguments of one call to the next stage. */
  datatype Forwarded = Forwarded(request: HttpRequest, body: Option<HttpBody>, baseURL: Url)

  /** The next stage of the chain, called once. */
  type Next = (HttpRequest, Option<HttpBody>, Url) -> Outcome
}
