// Optional values and results, used where the Go code returns a nil pointer,
// a nil slice or an `error` next to its value.
module Wrappers {

  datatype Option<+T> = None | Some(value: T)

  datatype Result<+T, +E> = Ok(value: T) | Err(error: E)
}
