/**
 * What a request handler answers: a reply with its success status, or the
 * error FastAPI renders: an HTTPException's status and detail, a 422 for a
 * body that fails validation, and the bare 500 for any other exception.
 */
module Http {
  import opened Wrappers
  import opened Uuids
  import Adapter

  const OK: int := 200
  const CREATED: int := 201
  const BAD_REQUEST: int := 400
  const FORBIDDEN: int := 403
  const NOT_FOUND: int := 404
  const UNPROCESSABLE_ENTITY: int := 422
  const INTERNAL_SERVER_ERROR: int := 500

  datatype Reply<T> = Reply(status: int, body: T)

  datatype HttpError =
    | HttpException(status: int, detail: string)
    | Unprocessable(fields: seq<string>)
    | Internal
  {
    function Status(): int {
      match this
      case HttpException(status, _) => status
      case Unprocessable(_) => UNPROCESSABLE_ENTITY
      case Internal => INTERNAL_SERVER_ERROR
    }
  }

  /** The store after a handler ran and what it answered. */
  datatype Outcome<T> = Outcome(store: Adapter.Store, response: Result<Reply<T>, HttpError>)

  /** The 404 every order lookup raises. */
  function OrderNotFound(orderId: Uuid): HttpError {
    HttpException(NOT_FOUND, "Order with ID " + UuidString(orderId) + " not found")
  }
}
