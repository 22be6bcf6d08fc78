/** Stand-ins for Rust's `Option<T>` and `Result<T, E>`: an optional value
    (a kernel version text that could not be read, a builder field never set,
    a parse that stopped) and an outcome that is a value or an error. The
    members named IsFailure, PropagateFailure and Extract are what Dafny's
    `:-` operator looks for, so a step that may fail can be chained the way
    Rust's `?` chains it. */
module Wrappers {

  datatype Option<+T> = None | Some(value: T) {

    predicate IsFailure() {
      None?
    }

    function PropagateFailure<U>(): Option<U>
      requires None?
    {
      None
    }

    function Extract(): T
      requires Some?
    {
      value
    }

    /** Rust's `unwrap_or`: the held value, or `default` when there is none. */
    function GetOr(default: T): T {
      match this
      case Some(v) => v
      case None => default
    }
  }

  datatype Result<+T, +E> = Ok(value: T) | Err(error: E) {

    predicate IsFailure() {
      Err?
    }

    function PropagateFailure<U>(): Result<U, E>
      requires Err?
    {
      Err(error)
    }

    function Extract(): T
      requires Ok?
    {
      value
    }
  }
}
