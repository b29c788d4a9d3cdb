/** Failure-carrying datatypes shared by the model: an optional value and a
    result that is either a value or an error message (the model's stand-in
    for a raised Python exception). */
module Wrappers {

  datatype Option<+T> = None | Some(value: T)

  /** `Err(message)` carries the text Python's `str(e)` gives for the exception. */
  datatype Result<+T> = Ok(value: T) | Err(error: string)

  function Min(a: int, b: int): int
  {
    if a <= b then a else b
  }

  function Max(a: int, b: int): int
  {
    if a >= b then a else b
  }
}
