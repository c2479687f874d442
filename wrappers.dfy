/** Option and Result, used for the error replies of the bot's handlers. */
module Wrappers {

  datatype Option<+T> = None | Some(value: T)

  /** Ok carries what a handler produced; Err the reason it refused and changed nothing
      (or, where a handler documents it, only opened an account). */
  datatype Result<+T, +E> = Ok(value: T) | Err(error: E)
}
