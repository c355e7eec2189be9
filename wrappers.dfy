// Small generic wrappers shared by every module of the model.
module Wrappers {

  /** An optional value: Go's nil pointer / "comma ok" lookups. */
  datatype Option<T> = None | Some(value: T)

  /** The outcome of a Go `Validate() error` method: nil, or an error value. */
  datatype Outcome<E> = Pass | Fail(error: E)
}
