/** The outcome of a computation that may throw: `None` stands for the exception. */
module Wrappers {

  datatype Option<+T> = None | Some(value: T)
}
