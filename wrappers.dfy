/** Option and Result, used for Python's `None`-or-value results and for raised errors. */
module Wrappers {

  datatype Option<+T> = None | Some(value: T)
  {
    /** The value held, or `default` when there is none. */
    function GetOr(default: T): T
    {
      if Some? then value else default
    }
  }

  datatype Result<+T, +E> = Ok(value: T) | Err(error: E)
}
