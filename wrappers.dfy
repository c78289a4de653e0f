/** The optional value the model uses wherever the source has `T | null` or an optional field. */
module Wrappers {

  datatype Option<+T> = None | Some(value: T)
}
