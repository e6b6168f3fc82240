/** An optional value, standing for a pointer that may be null or a `std::optional`. */
module Wrappers {
  datatype Option<+T> = None | Some(value: T)
}
