/** Rust's Option, used for gate outputs, ADC reads and the held note. */
module Wrappers {
  datatype Option<+T> = None | Some(value: T)
}
