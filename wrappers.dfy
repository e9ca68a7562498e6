/** Option type shared by the modules of the health-assistant model. */
module Wrappers {

  /** `None` stands for Python's absent key or `None` result, `Some` for a value. */
  datatype Option<+T> = None | Some(value: T) {

    /** The wrapped value, or `default` when there is none. */
    function GetOr(default: T): (r: T)
      ensures Some? ==> r == value
      ensures None? ==> r == default
    {
      match this
      case Some(v) => v
      case None => default
    }
  }
}
