/** Small wrapper types shared by every part of the model.

    The client awaits a network exchange at each suspension point. The model
    passes the exchange's result in instead, as an `Outcome`: either the
    payload the server answered with, or a failure. The client never tells a
    transport error from an error status, so neither does `Outcome`. */
module Results {

  /** A value that may be absent: JavaScript's `null`/`undefined` versus a value. */
  datatype Option<+T> = None | Some(value: T) {

    /** The value, or `default` when absent (a JavaScript default parameter). */
    function GetOr(default: T): T {
      match this
      case Some(v) => v
      case None => default
    }
  }

  /** The settled result of one awaited network exchange. */
  datatype Outcome<+T> = Ok(data: T) | Err

  /** The result of a call that either returns a value or throws an `Error` with a message. */
  datatype Result<+T, +E> = Success(value: T) | Failure(error: E)
}
