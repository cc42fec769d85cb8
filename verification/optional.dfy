/** The optional value used wherever the TypeScript source has `T | null`,
    `T | undefined` or an optional property `x?: T`. */
module Optional {

  datatype Option<+T> = None | Some(value: T) {

    /** `x ?? d`: the carried value, or the default when absent. */
    function GetOr(default: T): T {
      match this
      case Some(v) => v
      case None => default
    }
  }
}
