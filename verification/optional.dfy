/** A value that may be missing. It stands for JavaScript's `undefined` and
    `null`, which the home page treats alike through optional chaining. */
module Optional {

  datatype Option<+T> = None | Some(value: T) {

    /** The present value, or `default` when there is none. */
    function GetOr(default: T): T {
      match this
      case Some(v) => v
      case None => default
    }
  }
}
