/** Small shared definitions: an optional value and the byte type. */
module Basics {

  /** Go's `[]byte` elements. */
  type byte = bv8

  /** A value that may be absent (a nil slice, a failed parse). */
  datatype Option<+T> = None | Some(value: T) {
    function GetOr(default: T): T {
      match this
      case Some(v) => v
      case None => default
    }
  }
}
