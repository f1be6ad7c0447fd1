/** Nullable references of the C# code, as an explicit Option. */
module Wrappers {

  /** `None` stands for a null reference, `Some(v)` for a non-null value `v`. */
  datatype Option<+T> = None | Some(value: T) {

    /** The value, or `default` when null (the `x == null ? d : x` idiom). */
    function GetOr(default: T): T {
      match this
      case Some(v) => v
      case None => default
    }
  }
}
