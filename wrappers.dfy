/** Option and Result values standing in for Python's `None` returns and raised exceptions,
    and the integer `min` and `max` the other modules share. */
module Wrappers {

  datatype Option<+T> = None | Some(value: T)

  /** `Err` carries the text that `str(e)` gives for the exception the source would raise. */
  datatype Result<+T> = Ok(value: T) | Err(message: string)

  /** Python's `min` and `max` on two integers. */
  function MinInt(a: int, b: int): int {
    if a <= b then a else b
  }

  function MaxInt(a: int, b: int): int {
    if a <= b then b else a
  }
}
