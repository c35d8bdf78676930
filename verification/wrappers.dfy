/** The optional value the storages return for a lookup (Rust's `Option`). */
module Wrappers {
  datatype Option<+T> = None | Some(value: T)
}
