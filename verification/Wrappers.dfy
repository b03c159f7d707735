// Optional values and results, for the source's `undefined` and thrown errors.
module Wrappers {

  datatype Option<+T> = None | Some(value: T) {
    /** The source's `this ?? other`. */
    function Or(other: Option<T>): Option<T> {
      if Some? then this else other
    }

    /** The source's `this ?? default` for a plain default. */
    function GetOr(default: T): T {
      if Some? then value else default
    }
  }

  datatype Result<+T, +E> = Ok(value: T) | Err(error: E)
}
