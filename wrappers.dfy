/** The optional value returned by token resolution (Rust's `Option<String>`). */
module Wrappers {

  datatype Option<+T> = None | Some(value: T)
}
