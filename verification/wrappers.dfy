/** The optional-value wrapper used for every input field the caller may omit. */
module Wrappers {

  /** `None` stands for a JavaScript property that is `undefined`. */
  datatype Option<+T> = None | Some(value: T) {

    /** Returns the encapsulated value, or `default` when there is none. */
    function GetOr(default: T): T {
      match this
      case Some(v) => v
      case None => default
    }
  }
}
