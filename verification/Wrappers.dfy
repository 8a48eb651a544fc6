// Result types shared by the models: a Python call either returns a value or
// raises, and a lookup either finds something or returns None.
module Wrappers {
  datatype Option<+T> = None | Some(value: T)

  datatype Result<+T, +E> = Ok(value: T) | Err(error: E)
}
