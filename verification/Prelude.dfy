/** Types shared by every part of the model. */
module Prelude {
  datatype Option<+T> = None | Some(value: T)
}
