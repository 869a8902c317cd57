/** The nullable references of the source, as an explicit option type. */
module Wrappers {

  /** `None` stands for a Java `null`, `Some(v)` for a non-null reference to `v`. */
  datatype Option<+T> = None | Some(value: T) {

    /** The wrapped value, or `default` when there is none. */
    function GetOr(default: T): T {
      match this
      case Some(v) => v
      case None => default
    }
  }
}
