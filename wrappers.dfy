/** Option and Result values shared by the whole model. A Python call that returns
    normally is `Ok(value)`; one that raises is `Err(error)`. */
module Wrappers {

  datatype Option<+T> = None | Some(value: T)

  datatype Result<+T, +E> = Ok(value: T) | Err(error: E)
}
