/** Optional values and escaping Java exceptions. */
module Wrappers {

  /** A value that may be absent: Java's `null` or an empty `Optional`. */
  datatype Option<+T> = None | Some(value: T) {
    function GetOr(default: T): T {
      match this
      case Some(v) => v
      case None => default
    }
  }

  /**
   * The outcome of a Java call that either returns normally or lets an
   * unchecked exception escape (for example `StringIndexOutOfBoundsException`).
   */
  datatype Checked<+T> = Returns(value: T) | Throws(exception: string)

  const IndexOutOfBounds := "StringIndexOutOfBoundsException"
  const NullPointer := "NullPointerException"
  /** `List.get` past the end. */
  const ListIndexOutOfBounds := "IndexOutOfBoundsException"
  /** `Optional.get` on an empty optional. */
  const NoSuchElement := "NoSuchElementException"
}
