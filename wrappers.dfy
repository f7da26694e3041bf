/** The optional value the engine's queries return (`Option` in Rust). */
module Wrappers {
  datatype Option<+T> = None | Some(value: T)
}
