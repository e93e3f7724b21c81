/** The absent-or-present value the model uses for JavaScript's `null`/`undefined` and for
    object keys a caller leaves out. */
module Optional {

  datatype Option<+T> = None | Some(value: T) {

    /** The carried value, or `fallback` when there is none. */
    function GetOr(fallback: T): T {
      match this
      case Some(v) => v
      case None => fallback
    }
  }
}
