/** The optional values the dispatcher works with: a Java reference that may be `null`. */
module Options {

  /** `None` stands for a `null` reference, `Some(v)` for a present one. */
  datatype Option<+T> = None | Some(value: T) {

    /** The wrapped value, or `default` when absent. */
    function GetOr(default: T): T {
      match this
      case Some(v) => v
      case None => default
    }
  }
}
