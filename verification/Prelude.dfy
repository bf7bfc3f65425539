/** The two result types shared by every module. */
module Prelude {
  datatype Option<+T> = None | Some(value: T)

  /** A value, or the reason there is none: the shape of a Go (value, error) pair. */
  datatype Result<+T, +E> = Ok(value: T) | Err(error: E)
}
