/** Rust's `Option<T>`, used for the surface slots and the wake-time accumulator. */
module Wrappers {
  datatype Option<+T> = None | Some(value: T)
}
