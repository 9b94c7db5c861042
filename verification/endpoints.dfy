/** The endpoint methods of `KaitenClient`. Each one issues the generated
    operation, whose outcome is given here as `operation`, and classifies it.
    List endpoints fall back to an empty list (or an empty page) when the
    operation yields no result. */
module Endpoints {
  import opened Wrappers
  import opened Http
  import E = Errors
  import opened Responses

  /** Defaults of the paginated endpoints' `offset` and `limit` arguments. */
  const DefaultOffset: int := 0
  const DefaultLimit: int := 100

  /** `Page`: one slice of a list together with the offset and limit asked for. */
  datatype Page<T> = Page(items: seq<T>, offset: int, limit: int)

  /** What calling a generated operation yields: its response case or a thrown error. */
  type Operation<OkBody> = Result<ResponseCase<OkBody>, E.AnyError>

  /** The operation threw a runtime error carrying a 200 response (an empty
      200 body is one such case); `callList` reads it as no result. */
  predicate NoResult<OkBody>(operation: Operation<OkBody>) {
    operation.Failure? && E.IsOkWithoutResult(operation.error)
  }

  /** The shape shared by single-resource endpoints (`getCard`, `getBoard`, ...). */
  function FetchOne<OkBody, T>(
    operation: Operation<OkBody>, notFoundResource: Option<Resource>, json: OkBody -> Result<T, E.AnyError>
  ): (r: Result<T, E.KaitenError>)
    ensures r.Success? <==> operation.Success? && operation.value.Ok? && json(operation.value.body).Success?
    ensures r.Success? ==> r.value == json(operation.value.body).value
    ensures NoResult(operation) ==> r == Failure(E.NetworkError(operation.error))
    ensures operation.Failure? ==> r == Failure(Call(operation).error)
    ensures operation.Success? ==> r == DecodeResponse(operation.value, notFoundResource, json)
  {
    match Call(operation)
    case Failure(e) => Failure(e)
    case Success(rc) => DecodeResponse(rc, notFoundResource, json)
  }

  /** The shape shared by list endpoints that return a bare array. */
  function ListItems<OkBody, T>(
    operation: Operation<OkBody>, notFoundResource: Option<Resource>, json: OkBody -> Result<seq<T>, E.AnyError>
  ): (r: Result<seq<T>, E.KaitenError>)
    ensures NoResult(operation) ==> r == Success([])
    ensures operation.Failure? && !NoResult(operation) ==> r == Failure(CallList(operation).error)
    ensures operation.Success? ==> r == DecodeResponse(operation.value, notFoundResource, json)
    ensures r.Success? ==> NoResult(operation) || (operation.Success? && operation.value.Ok?)
  {
    match CallList(operation)
    case Failure(e) => Failure(e)
    case Success(None) => Success([])
    case Success(Some(rc)) => DecodeResponse(rc, notFoundResource, json)
  }

  /** The shape shared by paginated list endpoints: the page always echoes the
      caller's offset and limit. */
  function ListPage<OkBody, T>(
    operation: Operation<OkBody>, offset: int, limit: int, json: OkBody -> Result<seq<T>, E.AnyError>
  ): (r: Result<Page<T>, E.KaitenError>)
    ensures r.Success? ==> r.value.offset == offset && r.value.limit == limit
    ensures NoResult(operation) ==> r == Success(Page([], offset, limit))
    ensures operation.Failure? && !NoResult(operation) ==> r == Failure(CallList(operation).error)
    ensures operation.Success? ==>
      r == (match DecodeResponse(operation.value, None, json)
            case Success(items) => Success(Page(items, offset, limit))
            case Failure(e) => Failure(e))
    ensures r.Success? ==> NoResult(operation) || (operation.Success? && operation.value.Ok?)
  {
    match CallList(operation)
    case Failure(e) => Failure(e)
    case Success(None) => Success(Page([], offset, limit))
    case Success(Some(rc)) =>
      match DecodeResponse(rc, None, json)
      case Failure(e) => Failure(e)
      case Success(items) => Success(Page(items, offset, limit))
  }

  /** A paginated endpoint is the bare-array shape wrapped in a page. */
  lemma ListPageWrapsListItems<OkBody, T>(
    operation: Operation<OkBody>, offset: int, limit: int, json: OkBody -> Result<seq<T>, E.AnyError>
  )
    ensures ListPage(operation, offset, limit, json) ==
      match ListItems(operation, None, json)
      case Success(items) => Success(Page(items, offset, limit))
      case Failure(e) => Failure(e)
  {
  }

  /** A 200 with an empty body and a 200 whose body decodes to `[]` give the same
      empty list, on paginated and bare-array endpoints alike. */
  lemma EmptyBodyMeansEmptyList<OkBody, T>(
    noBody: Operation<OkBody>, emptyArray: OkBody, offset: int, limit: int,
    notFoundResource: Option<Resource>, json: OkBody -> Result<seq<T>, E.AnyError>
  )
    requires NoResult(noBody)
    requires json(emptyArray) == Success([])
    ensures ListItems(noBody, notFoundResource, json) == ListItems(Success(Ok(emptyArray)), notFoundResource, json)
    ensures ListItems(noBody, notFoundResource, json) == Success([])
    ensures ListPage(noBody, offset, limit, json) == ListPage(Success(Ok(emptyArray)), offset, limit, json)
    ensures ListPage(noBody, offset, limit, json) == Success(Page([], offset, limit))
  {
  }

  /** Any runtime error carrying a 200 response gives an empty list, whatever
      error it wraps: an empty body is only one way to get there. */
  lemma AnyOkRuntimeErrorIsEmptyList<OkBody, T>(
    response: HttpResponse, cause: E.AnyError, offset: int, limit: int,
    notFoundResource: Option<Resource>, json: OkBody -> Result<seq<T>, E.AnyError>
  )
    requires response.status == OK
    ensures ListItems(Failure(E.Runtime(E.ClientError(Some(response), cause))), notFoundResource, json) == Success([])
    ensures ListPage(Failure(E.Runtime(E.ClientError(Some(response), cause))), offset, limit, json)
      == Success(Page([], offset, limit))
  {
  }

  /** A single-resource endpoint does not get the empty-body fallback: the same
      empty 200 that a list endpoint reads as `[]` is a `networkError` there. */
  lemma EmptyBodyFailsSingleResource<OkBody, T>(
    noBody: Operation<OkBody>, notFoundResource: Option<Resource>,
    one: OkBody -> Result<T, E.AnyError>, many: OkBody -> Result<seq<T>, E.AnyError>
  )
    requires NoResult(noBody)
    ensures FetchOne(noBody, notFoundResource, one).Failure?
    ensures FetchOne(noBody, notFoundResource, one).error.NetworkError?
    ensures ListItems(noBody, notFoundResource, many).Success?
  {
  }

  /** A paginated endpoint called with its default arguments reports offset 0
      and limit 100 on every page it returns, the empty fallback included. */
  lemma DefaultPageArguments<OkBody, T>(operation: Operation<OkBody>, json: OkBody -> Result<seq<T>, E.AnyError>)
    ensures ListCards(operation, DefaultOffset, DefaultLimit, json).Success? ==>
      ListCards(operation, DefaultOffset, DefaultLimit, json).value.offset == 0
      && ListCards(operation, DefaultOffset, DefaultLimit, json).value.limit == 100
    ensures ListCustomProperties(operation, DefaultOffset, DefaultLimit, json).Success? ==>
      ListCustomProperties(operation, DefaultOffset, DefaultLimit, json).value.offset == 0
      && ListCustomProperties(operation, DefaultOffset, DefaultLimit, json).value.limit == 100
    ensures NoResult(operation) ==> ListCards(operation, DefaultOffset, DefaultLimit, json) == Success(Page([], 0, 100))
  {
  }

  // Cards

  /** `listCards`: paginated, no not-found label. */
  function ListCards<OkBody, T>(
    operation: Operation<OkBody>, offset: int, limit: int, json: OkBody -> Result<seq<T>, E.AnyError>
  ): (r: Result<Page<T>, E.KaitenError>)
    ensures r.Success? ==> r.value.offset == offset && r.value.limit == limit
    ensures NoResult(operation) ==> r == Success(Page([], offset, limit))
    ensures operation == Success(NotFound) ==> r == Failure(E.UnexpectedResponse(404))
  {
    ListPage(operation, offset, limit, json)
  }

  /** `getCard`: a 404 is reported as the card with that id. */
  function GetCard<OkBody, T>(
    id: int, operation: Operation<OkBody>, json: OkBody -> Result<T, E.AnyError>
  ): (r: Result<T, E.KaitenError>)
    ensures operation == Success(NotFound) ==> r == Failure(E.NotFound("card", id))
    ensures r.Success? ==> operation.Success? && operation.value.Ok?
  {
    FetchOne(operation, Some(Resource("card", id)), json)
  }

  /** `getCardMembers`: bare array, no not-found label. */
  function GetCardMembers<OkBody, T>(
    operation: Operation<OkBody>, json: OkBody -> Result<seq<T>, E.AnyError>
  ): (r: Result<seq<T>, E.KaitenError>)
    ensures NoResult(operation) ==> r == Success([])
    ensures operation == Success(NotFound) ==> r == Failure(E.UnexpectedResponse(404))
  {
    ListItems(operation, None, json)
  }

  /** `getCardComments`: bare array, a 404 is reported as the card. */
  function GetCardComments<OkBody, T>(
    cardId: int, operation: Operation<OkBody>, json: OkBody -> Result<seq<T>, E.AnyError>
  ): (r: Result<seq<T>, E.KaitenError>)
    ensures NoResult(operation) ==> r == Success([])
    ensures operation == Success(NotFound) ==> r == Failure(E.NotFound("card", cardId))
  {
    ListItems(operation, Some(Resource("card", cardId)), json)
  }

  // Custom properties

  /** `listCustomProperties`: paginated, no not-found label. */
  function ListCustomProperties<OkBody, T>(
    operation: Operation<OkBody>, offset: int, limit: int, json: OkBody -> Result<seq<T>, E.AnyError>
  ): (r: Result<Page<T>, E.KaitenError>)
    ensures r.Success? ==> r.value.offset == offset && r.value.limit == limit
    ensures NoResult(operation) ==> r == Success(Page([], offset, limit))
    ensures operation == Success(NotFound) ==> r == Failure(E.UnexpectedResponse(404))
  {
    ListPage(operation, offset, limit, json)
  }

  /** `getCustomProperty`: a 404 is reported as the custom property. */
  function GetCustomProperty<OkBody, T>(
    id: int, operation: Operation<OkBody>, json: OkBody -> Result<T, E.AnyError>
  ): (r: Result<T, E.KaitenError>)
    ensures operation == Success(NotFound) ==> r == Failure(E.NotFound("customProperty", id))
    ensures r.Success? ==> operation.Success? && operation.value.Ok?
  {
    FetchOne(operation, Some(Resource("customProperty", id)), json)
  }

  // Boards

  /** `getBoard`: a 404 is reported as the board. */
  function GetBoard<OkBody, T>(
    id: int, operation: Operation<OkBody>, json: OkBody -> Result<T, E.AnyError>
  ): (r: Result<T, E.KaitenError>)
    ensures operation == Success(NotFound) ==> r == Failure(E.NotFound("board", id))
    ensures r.Success? ==> operation.Success? && operation.value.Ok?
  {
    FetchOne(operation, Some(Resource("board", id)), json)
  }

  /** `getBoardColumns`: bare array, a 404 is reported as the board. */
  function GetBoardColumns<OkBody, T>(
    boardId: int, operation: Operation<OkBody>, json: OkBody -> Result<seq<T>, E.AnyError>
  ): (r: Result<seq<T>, E.KaitenError>)
    ensures NoResult(operation) ==> r == Success([])
    ensures operation == Success(NotFound) ==> r == Failure(E.NotFound("board", boardId))
  {
    ListItems(operation, Some(Resource("board", boardId)), json)
  }

  /** `getBoardLanes`: bare array, a 404 is reported as the board. */
  function GetBoardLanes<OkBody, T>(
    boardId: int, operation: Operation<OkBody>, json: OkBody -> Result<seq<T>, E.AnyError>
  ): (r: Result<seq<T>, E.KaitenError>)
    ensures NoResult(operation) ==> r == Success([])
    ensures operation == Success(NotFound) ==> r == Failure(E.NotFound("board", boardId))
  {
    ListItems(operation, Some(Resource("board", boardId)), json)
  }

  // Spaces

  /** `listSpaces`: bare array, no not-found label. */
  function ListSpaces<OkBody, T>(
    operation: Operation<OkBody>, json: OkBody -> Result<seq<T>, E.AnyError>
  ): (r: Result<seq<T>, E.KaitenError>)
    ensures NoResult(operation) ==> r == Success([])
    ensures operation == Success(NotFound) ==> r == Failure(E.UnexpectedResponse(404))
  {
    ListItems(operation, None, json)
  }

  /** `listBoards`: bare array, a 404 is reported as the space. */
  function ListBoards<OkBody, T>(
    spaceId: int, operation: Operation<OkBody>, json: OkBody -> Result<seq<T>, E.AnyError>
  ): (r: Result<seq<T>, E.KaitenError>)
    ensures NoResult(operation) ==> r == Success([])
    ensures operation == Success(NotFound) ==> r == Failure(E.NotFound("space", spaceId))
  {
    ListItems(operation, Some(Resource("space", spaceId)), json)
  }
}
