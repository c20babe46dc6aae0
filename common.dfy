/** Optional values and results with an error side, used for Python's `None` and for the
    exceptions the launch path raises, and the integer `min`/`max` the source uses. */
module Common {
  datatype Option<+T> = None | Some(value: T)

  datatype Result<+T, +E> = Ok(value: T) | Err(error: E)

  function Max(a: int, b: int): int { if a >= b then a else b }

  function Min(a: int, b: int): int { if a <= b then a else b }
}
