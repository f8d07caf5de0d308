/** The optional value used throughout the model for JavaScript's `undefined`/`null`
    results of lookups and for optional record fields. */
module Optional {

  datatype Option<+T> = None | Some(value: T) {

    /** The value, or `default` when there is none (JavaScript's `x || default`
        when `x` can only be a value or missing). */
    function GetOr(default: T): T {
      match this
      case Some(v) => v
      case None => default
    }
  }
}
