/** Small result types shared by every module. */
module Prelude {

  /** The source's std::optional. */
  datatype Option<+T> = None | Some(value: T)

  /** The outcome of a computation that may throw. */
  datatype Result<+T> = Ok(value: T) | Thrown
}
