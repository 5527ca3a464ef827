/** Option and Result values, and the error responses the API routes return. */
module Wrappers {

  datatype Option<+T> = None | Some(value: T) {
    function GetOr(default: T): T {
      match this
      case Some(v) => v
      case None => default
    }
  }

  datatype Result<+R, +E> = Success(value: R) | Failure(error: E)

  /** An error response of a route handler: a status code and its `error` message. */
  datatype ApiError = ApiError(status: int, message: string)

  /** The rejection every range query returns when `start` or `end` is missing or empty. */
  const MissingRange: ApiError := ApiError(400, "Missing start or end date")
}
