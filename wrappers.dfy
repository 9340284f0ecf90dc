/** Option and Result, the two failure-carrying shapes the model uses. */
module Wrappers {

  /** Python's `Optional[T]`: `None` or a present value. */
  datatype Option<+T> = None | Some(value: T) {

    /** `d.get(key, default)` on an optional field. */
    function GetOr(default: T): (v: T) {
      match this
      case Some(v) => v
      case None => default
    }
  }

  /** A value or the error a handler raises instead. */
  datatype Result<+T, +E> = Ok(value: T) | Err(error: E)
}

/** The HTTP errors the service raises (`HTTPException`) or lets escape. */
module HttpErrors {

  datatype HttpError = HttpError(status: int, detail: string)

  /** Raised by `verify_api_key` when a configured allow-list rejects the caller. */
  function Unauthorized(): (e: HttpError) {
    HttpError(401, "Invalid or missing API key")
  }

  /** Raised when the search service cannot be reached at all. */
  function Unavailable(message: string): (e: HttpError) {
    HttpError(503, "SearXNG unavailable: " + message)
  }

  /** Raised when the search service answers with a failure status. */
  function BadGateway(message: string): (e: HttpError) {
    HttpError(502, "SearXNG error: " + message)
  }

  /** What FastAPI answers when an exception nobody catches escapes a handler. */
  function InternalError(): (e: HttpError) {
    HttpError(500, "Internal Server Error")
  }
}
