/** Small shared vocabulary: an optional value and integer minimum. */
module Common {

  datatype Option<+T> = None | Some(value: T)

  function Min(a: int, b: int): int
  {
    if a <= b then a else b
  }
}
