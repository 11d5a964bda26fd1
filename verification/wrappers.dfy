/** Failure-carrying values shared by the calculator and weather models. */
module Wrappers {

  /** A value that may be absent: `None` stands for a Python exception such as
      `ValueError`, or for a missing JSON key. */
  datatype Option<+T> = None | Some(value: T) {

    /** The value, or `default` when absent (Python's `dict.get(key, default)`). */
    function GetOr(default: T): T
    {
      match this
      case Some(v) => v
      case None => default
    }
  }
}
