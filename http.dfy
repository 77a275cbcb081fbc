/**
 * The HTTP answers the API controllers give, and the status-to-answer decisions
 * they share: every action ends in an if/else over the service's status.
 */
module Http {
  import opened Models
  import opened Text

  /** An ASP.NET Core action result, by the helper that builds it. */
  datatype ActionResult<T> =
    | Ok(value: T)                                // Ok(value)
    | CreatedResult(location: string, value: T)   // Created(location, value)
    | NoContent                                   // NoContent()
    | BadRequest                                  // BadRequest()
    | NotFoundResult(body: Option<seq<string>>)   // NotFound() or NotFound(messages)
    | ServerError(messages: seq<string>)          // StatusCode(500, messages)
    | Unhandled(exception: string)                // an exception the action lets escape: 500

  function StatusCode<T>(r: ActionResult<T>): int {
    match r
    case Ok(_) => 200
    case CreatedResult(_, _) => 201
    case NoContent => 204
    case BadRequest => 400
    case NotFoundResult(_) => 404
    case ServerError(_) => 500
    case Unhandled(_) => 500
  }

  /** A read action's answer: 404 without a body when the service found nothing, 200 with the value otherwise. */
  function Found<T>(result: Option<T>): (r: ActionResult<T>)
    ensures StatusCode(r) == 404 <==> result.None?
    ensures result.None? ==> r == NotFoundResult(None)
    ensures result.Some? ==> r == Ok(result.value)
  {
    match result
    case None => NotFoundResult(None)
    case Some(v) => Ok(v)
  }

  /**
   * How a mutating action answers a service response: NotFound gives 404, with
   * the service's messages when `withMessages`; Error gives 500 with the
   * messages; any other status gives `success`.
   */
  function FromStatus<T>(response: ServiceResponse, withMessages: bool, success: ActionResult<T>): (r: ActionResult<T>)
    ensures response.status == NotFound ==>
      r == NotFoundResult(if withMessages then Some(response.messages) else None) && StatusCode(r) == 404
    ensures response.status == Error ==> r == ServerError(response.messages) && StatusCode(r) == 500
    ensures response.status != NotFound && response.status != Error ==> r == success
  {
    if response.status == NotFound then NotFoundResult(if withMessages then Some(response.messages) else None)
    else if response.status == Error then ServerError(response.messages)
    else success
  }

  /** The answer to a service call that may throw: an escaping exception gives 500, a response goes through `FromStatus`. */
  function FromOutcome<T>(outcome: ServiceOutcome, withMessages: bool, success: ActionResult<T>): (r: ActionResult<T>)
    ensures outcome.Threw? ==> r == Unhandled(outcome.exception) && StatusCode(r) == 500
    ensures outcome.Answered? ==> r == FromStatus(outcome.response, withMessages, success)
  {
    match outcome
    case Threw(exception) => Unhandled(exception)
    case Answered(response) => FromStatus(response, withMessages, success)
  }

  /** `Created($"{route}{response.CreatedId}", value)`: an absent id leaves the route as it is. */
  function CreatedAt<T>(route: string, createdId: Option<int>, value: T): (r: ActionResult<T>)
    ensures StatusCode(r) == 201 && r.value == value
    ensures createdId.None? ==> r.location == route
    ensures createdId.Some? ==> r.location == route + IntToString(createdId.value)
    ensures |r.location| > |route| <==> createdId.Some?
  {
    CreatedResult(route + OptionalIntToString(createdId), value)
  }

  /** The Add actions that test only for Error: every other status, NotFound included, answers 201. */
  function CreatedUnlessError<T>(response: ServiceResponse, route: string, value: T): (r: ActionResult<T>)
    ensures response.status == Error <==> r == ServerError(response.messages)
    ensures response.status != Error ==> r == CreatedAt(route, response.createdId, value) && StatusCode(r) == 201
  {
    if response.status == Error then ServerError(response.messages) else CreatedAt(route, response.createdId, value)
  }
}
