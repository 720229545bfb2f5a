/** Small shared types: an optional value, and a history that grows at its end. */
module Common {

  datatype Option<+T> = None | Some(value: T)

  /** What happened so far, newest entry outermost. */
  datatype Trail<+T> = Start | Then(past: Trail<T>, last: T)

  function Max(a: int, b: int): int {
    if a < b then b else a
  }

  function Min(a: int, b: int): int {
    if a < b then a else b
  }
}
