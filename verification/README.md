# Kaiten SDK request pipeline, modelled in Dafny

This project models the decision logic behind every call of the Kaiten SDK client (a Swift client for the Kaiten project-management REST API). The logic has three parts:

- **Authentication** (`AuthenticationMiddleware`). It sets the `Authorization` header of the outgoing request to `Bearer <token>` and hands the request to the next stage exactly once. Whatever that stage produces, a 401 or a thrown error included, is returned unchanged.
- **Retry** (`RetryMiddleware`). It calls the next stage up to `maxAttempts` times (3 by default). Any response other than 429 Too Many Requests is returned at once, and so is any thrown error. After each 429 it sleeps for the `Retry-After` delay, or for 1.0 second when that field is absent or does not parse. If every attempt was a 429, it throws `rateLimited(retryAfter:)` with the last delay, or with no delay when no attempt was made.
- **Classification** (`KaitenClient`). The helpers `call`, `callList`, `decode`, `handleResponse`, `decodeResponse` and `Optional.orThrow` turn the outcome of a generated API operation into a value or into exactly one `KaitenError`. On the list endpoints, any runtime error that carries a 200 response gives no result, which becomes an empty list, or an empty page that echoes the caller's offset and limit. A 200 with an empty body is one such case. Construction fails with `invalidURL` when the base URL does not parse.

Files, one module each:

- `wrappers.dfy`: `Option` and `Result`.
- `http.dfy`: requests, responses, bodies and URLs. Header fields are a `map<string, string>`.
- `errors.dfy`: `KaitenError` and `AnyError`. `AnyError` stands for Swift's `any Error`: a `KaitenError`, the OpenAPI runtime's `ClientError`, or anything else.
- `middleware.dfy`: the outcome of a next stage and the record of one forwarded call.
- `authentication.dfy`, `retry.dfy`: the two middlewares.
- `responses.dfy`: the classifiers.
- `endpoints.dfy`: the endpoint methods of `KaitenClient.swift`.
- `client.dfy`: client construction and the Authentication → Retry → transport chain.

Effects become parameters:

- The transport seen by the retry loop is a function from the forwarded request, body, base URL and 0-based attempt index to an outcome: a response with an optional body, or a thrown error.
- The retry loop does not sleep. It records every delay it would sleep for, in order.
- Parsing a `Retry-After` value (`TimeInterval.init`) is a parameter `string -> Option<real>`.
- Parsing a URL (`URL(string:)`) is a parameter `string -> Option<Url>`.
- A generated operation's outcome (its `ResponseCase`, or the error it threw) is an input.
- JSON decoding of an ok body is a parameter returning a value or an error.

Two consequences of the code worth stating:

- On a single-resource endpoint an empty 200 ends as `networkError`. `call` (KaitenClient.swift:56-64) wraps every error that is not a `KaitenError`, the runtime's error after a 200 included. `Endpoints.EmptyBodyFailsSingleResource` states this.
- `Page` has no invariant. KaitenClient.swift:160-163 stores the server's items together with the caller's offset and limit, and nothing checks them.

## Model

| member | source | states |
|---|---|---|
| `Authentication.Authorize` | Sources/KaitenSDK/AuthenticationMiddleware.swift:20-21 | the stamped request's `Authorization` field is `"Bearer " + token`, replacing any earlier value; method, scheme, authority, path and every other header are unchanged |
| `Authentication.Intercept` | Sources/KaitenSDK/AuthenticationMiddleware.swift:13-23 | the next stage is called once, with the stamped request and the caller's body and base URL; its outcome (response or thrown error) is returned as it is |
| `Authentication.AuthorizeDependsOnlyOnRest` | Sources/KaitenSDK/AuthenticationMiddleware.swift:7-10 | two requests are stamped identically if and only if they differ at most in `Authorization`: the result depends only on the rest of the request and the stored token |
| `Authentication.AuthorizeIdempotent` | Sources/KaitenSDK/AuthenticationMiddleware.swift:21 | stamping twice with the same token gives the same request as stamping once |
| `Authentication.AuthorizeLastTokenWins` | Sources/KaitenSDK/AuthenticationMiddleware.swift:21 | a request already stamped with another token ends up exactly as if it had never been stamped |
| `Authentication.UnauthorizedResponsePassesThrough` | Tests/KaitenSDKTests/AuthMiddlewareTests.swift:31-45 | a 401 from the next stage comes back as a 401 response, not as an error |
| `Retry.RetryDelay` | Sources/KaitenSDK/RetryMiddleware.swift:30-33 | the delay after a 429 is the parsed `Retry-After` value when the field is present and parses, otherwise exactly 1.0 |
| `Retry.Loop` | Sources/KaitenSDK/RetryMiddleware.swift:21-38 | from any attempt on, at most the remaining number of attempts are made; every call forwards the same request, body and base URL; a 429 is never returned as a response |
| `Retry.Intercept` | Sources/KaitenSDK/RetryMiddleware.swift:14-39 | at most `maxAttempts` calls, each forwarding the identical request, body and base URL; no more sleeps than calls; a returned response never has status 429 |
| `Retry.StopsAtFirstNonRateLimited` | Sources/KaitenSDK/RetryMiddleware.swift:23-36 | if attempts 0..k-1 were 429s and attempt k was not, the outcome of attempt k is returned unchanged after exactly k+1 calls, and the sleeps are the k delays those 429s asked for, in order |
| `Retry.ExhaustsAfterMaxAttempts` | Sources/KaitenSDK/RetryMiddleware.swift:23-38 | if every attempt is a 429: exactly `maxAttempts` calls, one sleep after each (the last included), then `rateLimited` carrying the last delay, or nil when `maxAttempts` is 0 |
| `Retry.FirstResponseReturnedAsIs` | Sources/KaitenSDK/RetryMiddleware.swift:24-28 | a first response that is not a 429 is returned with its body after exactly one call and no sleep |
| `Retry.ThrownErrorPropagates` | Sources/KaitenSDK/RetryMiddleware.swift:24 | an error thrown by the next stage is rethrown unchanged, with no further attempt |
| `Retry.ZeroAttemptsCallsNothing` | Sources/KaitenSDK/RetryMiddleware.swift:21-38 | with `maxAttempts == 0`, no call and no sleep are made, and `rateLimited(retryAfter: nil)` is thrown |
| `Responses.Call` | Sources/KaitenSDK/KaitenClient.swift:56-64 | a success passes through; a thrown `KaitenError` is rethrown unchanged; any other error becomes `networkError` wrapping it |
| `Responses.CallList` | Sources/KaitenSDK/KaitenClient.swift:69-79 | no result exactly when the operation threw a runtime error carrying a 200 response; any other thrown `KaitenError` is rethrown unchanged and any other error becomes `networkError` wrapping it |
| `Responses.Decode` | Sources/KaitenSDK/KaitenClient.swift:82-88 | every error thrown by the extraction becomes `decodingError` wrapping it; a success passes through |
| `Responses.DecodeOnlyRelabelsErrors` | Sources/KaitenSDK/KaitenClient.swift:82-88 | `decode` keeps whether and what value was extracted, and its error wraps exactly the error the extraction threw; unlike `call` (lines 56-64) it wraps a thrown `KaitenError` too, so the two agree on successes and differ on every failure |
| `Responses.HandleResponse` | Sources/KaitenSDK/KaitenClient.swift:102-123 | ok is the transformed body, whose `KaitenError` passes through; 401 is `unauthorized`; 403 is `unexpectedResponse(403)`; 404 is `notFound(name, id)` with a label, else `unexpectedResponse(404)`; an undocumented code is `unexpectedResponse` with that code |
| `Responses.DecodeResponse` | Sources/KaitenSDK/KaitenClient.swift:126-146 | success if and only if the case is ok and its body decodes; a body that fails to decode is `decodingError`; other cases map as in `handleResponse` |
| `Responses.OrThrow` | Sources/KaitenSDK/KaitenClient.swift:304-308 | returns the wrapped value when present and fails with the supplied error when nil |
| `Responses.OrThrowRoundTrip` | Sources/KaitenSDK/KaitenClient.swift:304-308 | dropping the error from `orThrow`'s result gives back the original optional |
| `Responses.CallListRefinesCall` | Sources/KaitenSDK/KaitenClient.swift:56-79 | on a runtime error after a 200, `callList` gives no result where `call` gives `networkError`; on every other input `callList` is `call` with its value wrapped |
| `Responses.HandleAndDecodeAgreeOffOk` | Sources/KaitenSDK/KaitenClient.swift:108-145 | `handleResponse` and `decodeResponse` return the same error on every case other than ok |
| `Responses.ClassifiedErrorReportsStatus` | Sources/KaitenSDK/KaitenClient.swift:131-145 | any case other than ok fails with `unauthorized`, `notFound` or `unexpectedResponse`, and that error reports the case's own HTTP status |
| `Responses.UnauthorizedIsEndpointIndependent` | Sources/KaitenSDK/KaitenClient.swift:134-135 | a 401 is `unauthorized` whatever the not-found label or body decoder |
| `Endpoints.FetchOne` | Sources/KaitenSDK/KaitenClient.swift:171-174 | single-resource shape: success if and only if the operation returned an ok body that decodes; a thrown error fails as `call` maps it (a `KaitenError` unchanged, anything else `networkError`, an empty 200 included); a returned case is classified by `decodeResponse` |
| `Endpoints.ListItems` | Sources/KaitenSDK/KaitenClient.swift:183-188 | bare-array shape: a runtime error carrying a 200 is `[]`; any other thrown error fails as `callList` maps it; a returned case is classified by `decodeResponse`; any success comes from one of those two |
| `Endpoints.ListPage` | Sources/KaitenSDK/KaitenClient.swift:158-164 | paginated shape: every page echoes the caller's offset and limit; a runtime error carrying a 200 is an empty page; any other thrown error fails as `callList` maps it; a returned case is classified by `decodeResponse` (no label) and its items become the page |
| `Endpoints.AnyOkRuntimeErrorIsEmptyList` | Sources/KaitenSDK/KaitenClient.swift:69-79 | any runtime error carrying a 200 response gives `[]` or an empty page, whatever error it wraps |
| `Endpoints.ListPageWrapsListItems` | Sources/KaitenSDK/KaitenClient.swift:158-188 | a paginated endpoint gives the bare-array result (without a not-found label) wrapped in a page with the caller's offset and limit |
| `Endpoints.EmptyBodyMeansEmptyList` | Tests/KaitenSDKTests/SubcolumnsCRUDTests.swift:26-34 | an empty 200 body and a 200 body decoding to `[]` give the same empty list, or the same empty page with the caller's offset and limit |
| `Endpoints.EmptyBodyFailsSingleResource` | Sources/KaitenSDK/KaitenClient.swift:56-79 | an empty 200 that a list endpoint reads as `[]` is a `networkError` on a single-resource endpoint |
| `Endpoints.DefaultPageArguments` | Sources/KaitenSDK/KaitenClient.swift:158 | with the default arguments `offset: 0, limit: 100`, every page `listCards` or `listCustomProperties` returns reports offset 0 and limit 100, the empty fallback included |
| `Endpoints.ListCards` | Sources/KaitenSDK/KaitenClient.swift:158-164 | the page echoes offset and limit; an empty 200 is an empty page; a 404 is `unexpectedResponse(404)` |
| `Endpoints.GetCard` | Sources/KaitenSDK/KaitenClient.swift:171-174 | a 404 is `notFound("card", id)`; only an ok case succeeds |
| `Endpoints.GetCardMembers` | Sources/KaitenSDK/KaitenClient.swift:183-188 | an empty 200 is `[]`; a 404 is `unexpectedResponse(404)` |
| `Endpoints.GetCardComments` | Sources/KaitenSDK/KaitenClient.swift:195-200 | an empty 200 is `[]`; a 404 is `notFound("card", cardId)` |
| `Endpoints.ListCustomProperties` | Sources/KaitenSDK/KaitenClient.swift:216-222 | the page echoes offset and limit; an empty 200 is an empty page; a 404 is `unexpectedResponse(404)` |
| `Endpoints.GetCustomProperty` | Sources/KaitenSDK/KaitenClient.swift:229-232 | a 404 is `notFound("customProperty", id)`; only an ok case succeeds |
| `Endpoints.GetBoard` | Sources/KaitenSDK/KaitenClient.swift:245-248 | a 404 is `notFound("board", id)`; only an ok case succeeds |
| `Endpoints.GetBoardColumns` | Sources/KaitenSDK/KaitenClient.swift:255-260 | an empty 200 is `[]`; a 404 is `notFound("board", boardId)` |
| `Endpoints.GetBoardLanes` | Sources/KaitenSDK/KaitenClient.swift:267-272 | an empty 200 is `[]`; a 404 is `notFound("board", boardId)` |
| `Endpoints.ListSpaces` | Sources/KaitenSDK/KaitenClient.swift:282-287 | an empty 200 is `[]`; a 404 is `unexpectedResponse(404)` |
| `Endpoints.ListBoards` | Sources/KaitenSDK/KaitenClient.swift:294-299 | an empty 200 is `[]`; a 404 is `notFound("space", spaceId)` |
| `Client.Init` | Sources/KaitenSDK/KaitenClient.swift:39-51 | fails if and only if the base URL does not parse, and then with `invalidURL(baseURL)`; otherwise the client holds the parsed URL, the token and the default ceiling of 3 attempts |
| `Client.SendAuthorizesEveryAttempt` | Sources/KaitenSDK/KaitenClient.swift:23-30 | authentication runs before retry: every transport attempt carries `Bearer <token>`, is otherwise the caller's request, and goes to the client's URL with the caller's body |
| `Client.Send` | Sources/KaitenSDK/KaitenClient.swift:23-30 | with the middlewares in the order authentication then retry, a request's outcome is what the retry loop makes of the token-stamped request sent to the client's server URL |
| `Client.InitializedClientBoundsAttempts` | Sources/KaitenSDK/KaitenClient.swift:20-31 | a constructed client makes at most 3 transport calls per request and never returns a 429 as a response |

## Left out

- Network transport (`URLSessionTransport`), the OpenAPI-generated `Client` and its `toCase()` dispatch are foreign code. The transport is a function parameter and a response case is an input.
- How the OpenAPI runtime wraps errors in `ClientError` is library behaviour. A `ClientError` is modelled only as "an optional response plus an underlying error". This means the model does not decide whether a `rateLimited` thrown by the retry middleware reaches `call` as a `KaitenError` or wrapped in a `ClientError`.
- `Task.sleep` and real time: delays are recorded, not slept. Cancellation during a sleep is not modelled: the sleep never throws.
- Parsing `Retry-After` as a `Double` and the `URL(string:)` check are parameters, not definitions.
- Authentication.Authorize: header values are stored exactly as given. HTTP field values are cleaned up when stored: leading and trailing whitespace is trimmed, and CR, LF and NUL become spaces. So the exact equality with `"Bearer " + token` holds in Swift only for a non-empty token with no leading or trailing whitespace and no control characters. An empty token, for example, is stored as `"Bearer"`.
- A delay is an exact `real`, not a `Double`. So `Retry-After` values that parse to non-finite doubles (`inf`, `nan`, `1e400`) cannot be represented, and neither can what `Task.sleep` does with them.
- JSON decoding of the schema types is a parameter returning a value or an error.
- Header names are case-sensitive map keys here (`"Authorization"`, `"Retry-After"`). HTTP field names are case-insensitive and may repeat, which the map does not capture.
- `Retry.Intercept`: `maxAttempts` is a `nat`. In Swift a negative `maxAttempts` traps when it forms `0..<maxAttempts`, and the model does not represent that trap.
- The two `KaitenClient` initialisers differ only in the transport they install, so `Client.Init` models both.
- The generated operations' request parameters (`boardId`, `offset` and `limit` as query values) are not modelled. They are forwarded into foreign code. The ids remain only where they label a `notFound`.
- `Sendable` and concurrency: every call is independent and holds no shared state.
- The command-line tool (`Sources/kaiten/`) is argument forwarding and printing. `DateParsing.swift` is a wrapper over Foundation's date formatters.
