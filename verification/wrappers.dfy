/** An optional value shared by the modules. */
module Wrappers {

  /** An optional value: JavaScript's `undefined` (or a missing key) is `None`. */
  datatype Option<+T> = None | Some(value: T) {

    /** The wrapped value, or `default` when there is none. */
    function GetOr(default: T): T
    {
      match this
      case Some(v) => v
      case None => default
    }
  }
}
