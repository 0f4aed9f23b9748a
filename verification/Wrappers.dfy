/** The result of an operation on which the program may give up (`os.Exit`). */
module Wrappers {
  datatype Option<+T> = None | Some(value: T)
}
