/** The HTTP values that flow through the middleware chain. Header fields are
    a map from field name to value; bodies are opaque byte strings. */
module Http {
  import opened Wrappers

  /** Status 200 OK. */
  const OK: int := 200
  /** Status 429 Too Many Requests, the only status the retry layer reacts to. */
  const TooManyRequests: int := 429

  datatype HttpRequest = HttpRequest(
    httpMethod: string,
    scheme: Option<string>,
    authority: Option<string>,
    path: Option<string>,
    headers: map<string, string>)

  datatype HttpResponse = HttpResponse(status: int, headers: map<string, string>)

  datatype HttpBody = HttpBody(bytes: seq<bv8>)

  /** A URL that `URL(string:)` accepted; its parsing is not modelled. */
  datatype Url = Url(text: string)
}
