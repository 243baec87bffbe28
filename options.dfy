/** The absent-or-present value used for nullable fields (`String?` in Kotlin,
    `null`/`undefined` in JavaScript). */
module Options {
  datatype Option<+T> = None | Some(value: T) {
    /** The value, or `default` when absent (Kotlin's `?:`). */
    function GetOr(default: T): T {
      match this
      case Some(v) => v
      case None => default
    }
  }
}
