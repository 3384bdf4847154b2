/** The optional value used throughout the model for JavaScript's `null`,
    `undefined` and `NaN` outcomes. */
module Wrappers {

  datatype Option<+T> = None | Some(value: T) {

    /** The value, or `default` when absent (JavaScript's `x || default`
        for values whose only falsy form is absence). */
    function GetOr(default: T): T
    {
      match this
      case Some(v) => v
      case None => default
    }
  }
}
