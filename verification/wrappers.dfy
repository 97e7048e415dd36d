/** Failure-compatible result types shared by every module of the model.
    A Python `raise ValueError(...)` becomes a `Fail`/`Err` carrying an error kind. */
module Wrappers {

  datatype Option<+T> = None | Some(value: T) {
    function GetOr(default: T): T {
      match this
      case Some(v) => v
      case None => default
    }
  }

  datatype Result<+T, +E> = Ok(value: T) | Err(error: E)

  /** The outcome of an operation that returns nothing but may raise. */
  datatype Outcome<+E> = Pass | Fail(error: E)

  /** Python truthiness of an optional number: `None` and zero are falsy. */
  predicate Truthy(x: Option<real>) {
    x.Some? && x.value != 0.0
  }

  function Max(a: real, b: real): real {
    if a >= b then a else b
  }

  /** An instant supplied by the caller in place of the database clock. */
  type Timestamp = int

  /** A database primary key: the auto-increment sequence starts at 1, so a set
      foreign key is always truthy. */
  type Id = x: int | 1 <= x witness 1

  /** How an f-string renders an optional string: `None` prints as "None". */
  function Show(s: Option<string>): string {
    if s.Some? then s.value else "None"
  }
}
