/** Small failure-carrying datatypes shared by the whole model. */
module Wrappers {

  /** A value that may be absent: JavaScript's `undefined`, or `NaN` where a number was expected. */
  datatype Option<+T> = None | Some(value: T) {

    /** The value, or `default` when absent. */
    function GetOr(default: T): T {
      match this
      case Some(v) => v
      case None => default
    }
  }

  /**
   * The outcome of evaluating a JavaScript expression: it either returns a
   * value or throws (a `TypeError` from reading a property of `undefined`).
   */
  datatype Eval<+T> = Returns(value: T) | Throws
}
