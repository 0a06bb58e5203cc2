/** Option and Result: a Java `null` becomes `None`, a thrown exception `Err`. */
module Wrappers {

  datatype Option<+T> = None | Some(value: T)

  datatype Result<+R, +E> = Ok(value: R) | Err(error: E)
}
