/** The usual optional-value datatype; it stands for Python's `Optional[...]`
    parameters and for keys that a JSON record may or may not carry. */
module Wrappers {

  datatype Option<+T> = None | Some(value: T) {

    /** The value if present, otherwise the default (Python's `dict.get(key, default)`). */
    function GetOr(default: T): T {
      match this
      case Some(v) => v
      case None => default
    }
  }
}
