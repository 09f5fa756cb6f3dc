/** Small helpers shared by the model: an optional value and integer min/max. */
module Common {

  /** A value that may be absent (a `null` field, a failed call). */
  datatype Option<T> = None | Some(value: T)

  /** `Math.min` on integers. */
  function Min(a: int, b: int): int
  {
    if a < b then a else b
  }

  /** `Math.max` on integers. */
  function Max(a: int, b: int): int
  {
    if a < b then b else a
  }
}
