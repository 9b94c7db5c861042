/** The SDK's public error type and the shape of every other error that can be
    thrown at it. */
module Errors {
  import opened Wrappers
  import opened Http

  /** `KaitenError`: exactly one variant per failure. */
  datatype KaitenError =
    | InvalidURL(raw: string)
    | Unauthorized
    | NotFound(resource: string, id: int)
    | UnexpectedResponse(statusCode: int)
    | RateLimited(retryAfter: Option<real>)
    | DecodingError(underlying: AnyError)
    | NetworkError(underlying: AnyError)

  /** Swift's `any Error`, as far as the client distinguishes it: a
      `KaitenError`, the OpenAPI runtime's `ClientError`, or anything else. */
  datatype AnyError =
    | Kaiten(kaiten: KaitenError)
    | Runtime(clientError: ClientError)
    | Other(description: string)

  /** The OpenAPI runtime's wrapper error: the response it had received, if
      any, and the error it wraps. */
  datatype ClientError = ClientError(response: Option<HttpResponse>, underlyingError: AnyError)

  /** A runtime error that carries a 200 response, whatever went wrong after
      the response arrived. A 200 with an empty body is one such case. */
  predicate IsOkWithoutResult(e: AnyError) {
    e.Runtime? && e.clientError.response.Some? && e.clientError.response.value.status == OK
  }
}
