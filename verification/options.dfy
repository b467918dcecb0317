/** Small stock helpers shared by the other modules. */
module Options {

  /** A value that may be missing: the model's stand-in for a Python call that raises. */
  datatype Option<+T> = None | Some(value: T)

  function Min(a: int, b: int): int
  {
    if a <= b then a else b
  }
}
