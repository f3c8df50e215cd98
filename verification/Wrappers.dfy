/** What the other modules share and the code takes from its standard library. */
module Wrappers {

  datatype Option<T> = None | Some(value: T)

  /** A result or the exception in its place. */
  datatype Result<T, E> = Ok(value: T) | Failure(error: E)

  function Min(a: nat, b: nat): nat { if a < b then a else b }
}
