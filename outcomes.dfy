/** Typed outcomes that stand in for the HTTP statuses the handlers answer with. */
module Outcomes {

  datatype Option<T> = None | Some(value: T)

  /** The error taxonomy: each constructor is one HTTP error status, with the JSON `error` text. */
  datatype Failure =
    | BadRequest(message: string)    // 400
    | Unauthorized(message: string)  // 401
    | Forbidden(message: string)     // 403
    | NotFound(message: string)      // 404
    | Conflict(message: string)      // 409
    | Internal(message: string)      // 500

  /** What a handler answers: a value (200 or 201) or one failure. */
  datatype Outcome<T> = Ok(value: T) | Fail(failure: Failure)

  /** What a middleware decides: hand the request on (`c.Next()`) or abort it. */
  datatype Gate = Next | Abort(failure: Failure)
}
