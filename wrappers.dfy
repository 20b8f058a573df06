/** Small failure-carrying datatypes shared by the model's modules. */
module Wrappers {

  /** A value that may be absent (an option field left `undefined` in JavaScript). */
  datatype Option<+T> = None | Some(value: T) {

    /** The wrapped value, or `default` when absent. */
    function GetOr(default: T): T {
      match this
      case Some(v) => v
      case None => default
    }
  }

  /** The result of a check that either passes or fails with an error. */
  datatype Outcome<+E> = Pass | Fail(error: E)
}
