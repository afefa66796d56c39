/** What a store action sees once its HTTP request has settled, and how the
    action itself settles. The request is not part of the model: the
    response is an input. */
module Responses {

  /** The value the action reads after `.then(response => response)
      .catch(err => err.response)`: either a response (the success one, or
      the one attached to an HTTP error) or nothing at all, when the
      request failed without a response (a transport error). `success` is
      the `success` flag of the JSON body and `body` the rest of the body
      the action uses. */
  datatype Response<T> =
    | NoResponse
    | Received(status: int, success: bool, body: T)

  /** How the action's promise settles. Reading `status` of a missing
      response throws a `TypeError`, so the action rejects in that case. */
  datatype ActionResult = Fulfilled | Rejected

  /** The condition both actions test before they commit a mutation:
      `response.status === 200 && response.data.success`. */
  predicate Succeeded<T>(r: Response<T>)
  {
    r.Received? && r.status == 200 && r.success
  }
}
