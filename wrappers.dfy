/** An optional value and a pass/fail outcome, shared by the modules of this project. */
module Wrappers {

  /** A value that may be absent (TypeScript's optional field or `undefined`). */
  datatype Option<+T> = None | Some(value: T) {

    /** The value, or `default` when absent (TypeScript's `x ?? default`). */
    function GetOr(default: T): T {
      match this
      case Some(v) => v
      case None => default
    }
  }

  /** The outcome of a check that either passes or fails with an error value. */
  datatype Outcome<+E> = Pass | Fail(error: E)
}
