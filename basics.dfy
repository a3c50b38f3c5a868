/** Small value wrappers shared by the whole model: an optional value (JavaScript's
    `null` / `undefined`) and the `{ error }`-or-result shape the rules engine returns. */
module Basics {

  datatype Option<+T> = None | Some(value: T)

  /** A helper either fails with an error or returns its result record. */
  datatype Result<+T, +E> = Success(value: T) | Failure(error: E)

  function Min(a: int, b: int): (m: int)
    ensures m <= a && m <= b
    ensures m == a || m == b
  {
    if a <= b then a else b
  }
}
