/** The optional value used for the hook's nullable refs. */
module Wrappers {
  datatype Option<+T> = None | Some(value: T)
}
