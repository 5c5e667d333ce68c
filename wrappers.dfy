/** The optional value used wherever the engine returns `Option`. */
module Wrappers {
  datatype Option<+T> = None | Some(value: T)
}
