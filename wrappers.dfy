/** Value-level stand-ins for the two C++ idioms the library is built on:
    an owning pointer that may be null, and a call that may throw. */
module Wrappers {

  /** Zero or one value: what a `std::unique_ptr` holds once ownership is
      reduced to "a value is present". */
  datatype Option<T> = None | Some(value: T)

  /** The outcome of a C++ call that either returns a `T` or throws an `E`. */
  datatype Outcome<T, E> = Returns(result: T) | Throws(error: E)
}
