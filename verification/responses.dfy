/** The client's private helpers that turn a generated operation's outcome into
    a value or exactly one `KaitenError`: `call`, `callList`, `decode`,
    `handleResponse`, `decodeResponse` and `Optional.orThrow`. */
module Responses {
  import opened Wrappers
  import opened Http
  import E = Errors

  /** `ResponseCase`: the documented outcomes shared by most endpoints. */
  datatype ResponseCase<OkBody> =
    | Ok(body: OkBody)
    | Unauthorized
    | Forbidden
    | NotFound
    | Undocumented(statusCode: int)

  /** The `(name, id)` label a 404 is reported under. */
  datatype Resource = Resource(name: string, id: int)

  /** The HTTP status each case stands for. */
  function StatusOf<OkBody>(rc: ResponseCase<OkBody>): int {
    match rc
    case Ok(_) => OK
    case Unauthorized => 401
    case Forbidden => 403
    case NotFound => 404
    case Undocumented(code) => code
  }

  /** The HTTP status an error reports, for the errors that report one. */
  function ReportedStatus(e: E.KaitenError): Option<int> {
    match e
    case Unauthorized => Some(401)
    case NotFound(_, _) => Some(404)
    case UnexpectedResponse(code) => Some(code)
    case _ => None
  }

  /** `call`: a `KaitenError` is rethrown unchanged, any other error becomes
      `networkError`. */
  function Call<T>(operation: Result<T, E.AnyError>): (r: Result<T, E.KaitenError>)
    ensures r.Success? <==> operation.Success?
    ensures r.Success? ==> r.value == operation.value
    ensures operation.Failure? && operation.error.Kaiten? ==> r.error == operation.error.kaiten
    ensures operation.Failure? && !operation.error.Kaiten? ==> r.error == E.NetworkError(operation.error)
  {
    match operation
    case Success(v) => Success(v)
    case Failure(Kaiten(e)) => Failure(e)
    case Failure(e) => Failure(E.NetworkError(e))
  }

  /** `callList`: like `call`, except that a runtime error raised after a 200
      response yields "no result" instead of an error. */
  function CallList<T>(operation: Result<T, E.AnyError>): (r: Result<Option<T>, E.KaitenError>)
    ensures r == Success(None) <==> operation.Failure? && E.IsOkWithoutResult(operation.error)
    ensures operation.Success? ==> r == Success(Some(operation.value))
    ensures r.Failure? ==> operation.Failure? && !E.IsOkWithoutResult(operation.error)
    ensures r.Failure? ==>
      r.error == (if operation.error.Kaiten? then operation.error.kaiten else E.NetworkError(operation.error))
  {
    match operation
    case Success(v) => Success(Some(v))
    case Failure(e) =>
      if E.IsOkWithoutResult(e) then Success(None)
      else if e.Kaiten? then Failure(e.kaiten)
      else Failure(E.NetworkError(e))
  }

  /** `decode`: whatever the extraction throws becomes `decodingError`. */
  function Decode<T>(extracted: Result<T, E.AnyError>): (r: Result<T, E.KaitenError>)
    ensures r.Success? <==> extracted.Success?
    ensures r.Success? ==> r.value == extracted.value
    ensures r.Failure? ==> r.error == E.DecodingError(extracted.error)
  {
    match extracted
    case Success(v) => Success(v)
    case Failure(e) => Failure(E.DecodingError(e))
  }

  /** `decode` keeps every value and only relabels errors, and unlike `call`
      it relabels a thrown `KaitenError` too: on any failed extraction the two
      helpers disagree, `decode` always reporting `decodingError`. */
  lemma DecodeOnlyRelabelsErrors<T>(extracted: Result<T, E.AnyError>)
    ensures Decode(extracted).ToOption() == extracted.ToOption()
    ensures Decode(extracted).Failure? ==> Decode(extracted).error.underlying == extracted.error
    ensures extracted.Failure? ==> Decode(extracted) != Call(extracted) && Decode(extracted).error.DecodingError?
    ensures extracted.Success? ==> Decode(extracted) == Call(extracted)
  {
    if extracted.Failure? && extracted.error.Kaiten? {
      // `call` passes the error on itself, which cannot be the larger value
      // `decodingError` wraps around it.
      var k := extracted.error.kaiten;
      assert k < extracted.error < E.DecodingError(extracted.error);
    }
  }

  /** The errors a status outcome can produce: those that report a status. */
  predicate IsStatusError(e: E.KaitenError) {
    e.Unauthorized? || e.NotFound? || e.UnexpectedResponse?
  }

  /** `handleResponse`: the ok body goes through `extract` then `transform`,
      whose `KaitenError` is passed on unchanged; every other case fails. */
  function HandleResponse<OkBody, JsonBody, T>(
    rc: ResponseCase<OkBody>, notFoundResource: Option<Resource>,
    extract: OkBody -> JsonBody, transform: JsonBody -> Result<T, E.KaitenError>
  ): (r: Result<T, E.KaitenError>)
    ensures rc.Ok? ==> r == transform(extract(rc.body))
    ensures rc.Unauthorized? ==> r == Failure(E.Unauthorized)
    ensures rc.Forbidden? ==> r == Failure(E.UnexpectedResponse(403))
    ensures rc.NotFound? && notFoundResource.Some? ==>
      r == Failure(E.NotFound(notFoundResource.value.name, notFoundResource.value.id))
    ensures rc.NotFound? && notFoundResource.None? ==> r == Failure(E.UnexpectedResponse(404))
    ensures rc.Undocumented? ==> r == Failure(E.UnexpectedResponse(rc.statusCode))
  {
    match rc
    case Ok(body) => transform(extract(body))
    case Unauthorized => Failure(E.Unauthorized)
    case Forbidden => Failure(E.UnexpectedResponse(403))
    case NotFound =>
      if notFoundResource.Some? then
        Failure(E.NotFound(notFoundResource.value.name, notFoundResource.value.id))
      else
        Failure(E.UnexpectedResponse(404))
    case Undocumented(code) => Failure(E.UnexpectedResponse(code))
  }

  /** `decodeResponse`: only an ok case whose body decodes succeeds; a body that
      fails to decode is a `decodingError`, and every other case fails with the
      error for its status. */
  function DecodeResponse<OkBody, T>(
    rc: ResponseCase<OkBody>, notFoundResource: Option<Resource>, json: OkBody -> Result<T, E.AnyError>
  ): (r: Result<T, E.KaitenError>)
    ensures r.Success? <==> rc.Ok? && json(rc.body).Success?
    ensures r.Success? ==> r.value == json(rc.body).value
    ensures rc.Ok? && r.Failure? ==> r.error == E.DecodingError(json(rc.body).error)
    ensures rc.Unauthorized? ==> r == Failure(E.Unauthorized)
    ensures rc.Forbidden? ==> r == Failure(E.UnexpectedResponse(403))
    ensures rc.NotFound? && notFoundResource.Some? ==>
      r == Failure(E.NotFound(notFoundResource.value.name, notFoundResource.value.id))
    ensures rc.NotFound? && notFoundResource.None? ==> r == Failure(E.UnexpectedResponse(404))
    ensures rc.Undocumented? ==> r == Failure(E.UnexpectedResponse(rc.statusCode))
  {
    match rc
    case Ok(body) => Decode(json(body))
    case Unauthorized => Failure(E.Unauthorized)
    case Forbidden => Failure(E.UnexpectedResponse(403))
    case NotFound =>
      if notFoundResource.Some? then
        Failure(E.NotFound(notFoundResource.value.name, notFoundResource.value.id))
      else
        Failure(E.UnexpectedResponse(404))
    case Undocumented(code) => Failure(E.UnexpectedResponse(code))
  }

  /** `Optional.orThrow`: the wrapped value, or the supplied error when nil. */
  function OrThrow<T>(o: Option<T>, error: E.KaitenError): (r: Result<T, E.KaitenError>)
    ensures r.Success? <==> o.Some?
    ensures r.Success? ==> r.value == o.value
    ensures r.Failure? ==> r.error == error
  {
    match o
    case Some(v) => Success(v)
    case None => Failure(error)
  }

  /** `orThrow` loses nothing but the error it was given: forgetting the error
      gives back the optional it started from. */
  lemma OrThrowRoundTrip<T>(o: Option<T>, error: E.KaitenError)
    ensures OrThrow(o, error).ToOption() == o
  {
  }

  /** `callList` agrees with `call` on every operation except a runtime error
      after a 200, which `call` reports as a `networkError` and `callList` as
      no result. */
  lemma CallListRefinesCall<T>(operation: Result<T, E.AnyError>)
    ensures operation.Failure? && E.IsOkWithoutResult(operation.error) ==>
      && CallList(operation) == Success(None)
      && Call(operation) == Failure(E.NetworkError(operation.error))
    ensures !(operation.Failure? && E.IsOkWithoutResult(operation.error)) ==>
      CallList(operation) == (match Call(operation)
                              case Success(v) => Success(Some(v))
                              case Failure(e) => Failure(e))
  {
  }

  /** The two classifiers agree on every case but `ok`. */
  lemma HandleAndDecodeAgreeOffOk<OkBody, JsonBody, T>(
    rc: ResponseCase<OkBody>, notFoundResource: Option<Resource>,
    extract: OkBody -> JsonBody, transform: JsonBody -> Result<T, E.KaitenError>,
    json: OkBody -> Result<T, E.AnyError>
  )
    requires !rc.Ok?
    ensures HandleResponse(rc, notFoundResource, extract, transform) == DecodeResponse(rc, notFoundResource, json)
  {
  }

  /** Off the ok case the error reports exactly the status the server sent, and
      it is never a rate-limit, network, decoding or URL error. */
  lemma ClassifiedErrorReportsStatus<OkBody, T>(
    rc: ResponseCase<OkBody>, notFoundResource: Option<Resource>, json: OkBody -> Result<T, E.AnyError>
  )
    requires !rc.Ok?
    ensures DecodeResponse(rc, notFoundResource, json).Failure?
    ensures IsStatusError(DecodeResponse(rc, notFoundResource, json).error)
    ensures ReportedStatus(DecodeResponse(rc, notFoundResource, json).error) == Some(StatusOf(rc))
  {
  }

  /** A 401 is `unauthorized` whatever the endpoint, its not-found label or its
      body decoder. */
  lemma UnauthorizedIsEndpointIndependent<OkBody, T>(
    a: Option<Resource>, b: Option<Resource>,
    jsonA: OkBody -> Result<T, E.AnyError>, jsonB: OkBody -> Result<T, E.AnyError>
  )
    ensures DecodeResponse(Unauthorized, a, jsonA) == DecodeResponse(Unauthorized, b, jsonB)
    ensures DecodeResponse(Unauthorized, a, jsonA) == Failure(E.Unauthorized)
  {
  }
}
