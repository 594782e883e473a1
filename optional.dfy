/** The absent-or-present value used throughout the model (a JavaScript
    `undefined`/`null` versus a value). */
module Optional {

  datatype Option<+T> = None | Some(value: T) {

    /** The value, or `default` when absent. */
    function GetOr(default: T): T {
      match this
      case Some(v) => v
      case None => default
    }
  }
}
