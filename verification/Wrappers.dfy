/** Failure-carrying values shared by every component of the model. */
module Wrappers {

  datatype Option<+T> = None | Some(value: T)

  /** A fallible computation: the Rust `Result`, usable with `:-`. */
  datatype Result<+T, +E> = Ok(value: T) | Err(error: E) {
    predicate IsFailure() {
      Err?
    }

    function PropagateFailure<U>(): (r: Result<U, E>)
      requires Err?
    {
      Err(error)
    }

    function Extract(): T
      requires Ok?
    {
      value
    }
  }

  datatype Unit = Unit

  /** The members of an optional value. */
  function ListOf<T>(o: Option<T>): seq<T> {
    if o.Some? then [o.value] else []
  }

  /** The largest value of SQLite's signed integer columns. */
  const MAX_I64: nat := 0x7FFF_FFFF_FFFF_FFFF
}
