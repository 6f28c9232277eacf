/** The Option type used for the server's nullable configuration fields and for
    the exception (if any) a call raises. */
module Wrappers {

  datatype Option<+T> = None | Some(value: T)
}
