/** Python's `Optional[X]`: a value that may be `None`. */
module Options {

  datatype Option<+T> = None | Some(value: T) {

    /** The value, or `default` when it is None. */
    function GetOr(default: T): T
    {
      match this
      case Some(v) => v
      case None => default
    }
  }
}
