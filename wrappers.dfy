/** Option and Result values used across the model in place of Java's null,
    Optional and thrown exceptions. */
module Wrappers {

  datatype Option<+T> = None | Some(value: T) {
    /** Optional.or: this value when present, otherwise the alternative. */
    function Or(other: Option<T>): Option<T> {
      if Some? then this else other
    }
  }

  datatype Result<+T, +E> = Success(value: T) | Failure(error: E)
}
