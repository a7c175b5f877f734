/** Wrappers shared by every module of the model.
    A thrown JavaScript `Error` is an `Err(Failure(message, statusCode))`;
    `statusCode == 0` stands for an error object without a `statusCode` property. */
module Wrappers {

  datatype Option<+T> = None | Some(value: T)

  datatype Failure = Failure(message: string, statusCode: int)

  /** `new Error(message)`: a plain error, no status code attached. */
  function Plain(message: string): Failure
  {
    Failure(message, 0)
  }

  datatype Result<+T> = Ok(value: T) | Err(error: Failure)
}
