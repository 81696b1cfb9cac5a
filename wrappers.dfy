/** The optional value used across the model (JavaScript `undefined`/`null`, Python `None`). */
module Wrappers {

  datatype Option<+T> = None | Some(value: T)
}
