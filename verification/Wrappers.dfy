/** Failure-carrying datatypes shared by the whole model.

    Python signals failure by raising; the model returns the exception as a
    value instead, tagged with the kind of exception the source raises. */
module Wrappers {

  datatype Option<+T> = None | Some(value: T)

  /** The Python exceptions the modelled code raises or lets through. */
  datatype Error =
    | ValueError(message: string)     // raised explicitly by the source
    | KeyError(key: string)           // a dict lookup of a missing key
    | TypeError(message: string)      // subscripting something that is not a dict
    | TransportError(message: string) // a network call that raised
    | OSError(message: string)        // opening a file that cannot be read

  datatype Result<+T> = Ok(value: T) | Err(error: Error)

  /** A computation that returns nothing (Python's `None`) or raises. */
  datatype Outcome = Pass | Fail(error: Error)

  /** What an external service answers to one request: a body, or the message
      of the exception the call raised. */
  datatype Response = Delivered(body: string) | Failed(reason: string)
}
