/** Option and result shapes shared by every module of the model. */
module Wrappers {
  /** A value that may be absent (`undefined` / `None` in the source). */
  datatype Option<T> = None | Some(value: T)
  {
    function GetOr(default: T): T
    {
      if Some? then value else default
    }
  }

  /** Truthiness of an optional string, in JavaScript and in Python alike:
    * present and not "". */
  predicate Truthy(o: Option<string>)
  {
    o.Some? && o.value != ""
  }

  /** A value, or the error that prevented computing it. */
  datatype Result<T> = Success(value: T) | Failure(error: string)

  /** The outcome of a remote call that the model takes as an input:
    * either the value it produced or the message of the error it raised. */
  datatype Remote<T> = Ok(value: T) | Fail(message: string)

  /** An HTTP error as raised by a FastAPI handler (`HTTPException(status, detail)`). */
  datatype HttpError = HttpError(status: int, detail: string)

  /** The outcome of a handler: a value, or an HTTP error. */
  datatype Reply<T> = Done(value: T) | Raise(error: HttpError)
}
