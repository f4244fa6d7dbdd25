/** The optional-value datatype shared by the whole model: Python's `None`
    and JavaScript's `undefined` both become `None` here. */
module Wrappers {

  datatype Option<+T> = None | Some(value: T) {

    /** The wrapped value, or `default` when there is none. */
    function GetOr(default: T): T {
      match this
      case Some(v) => v
      case None => default
    }
  }
}
