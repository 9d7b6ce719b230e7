/** The optional value used for the breaker's nullable timestamps and for
    the status code a failed transport attempt may or may not carry. */
module Wrappers {

  datatype Option<+T> = None | Some(value: T)
}
