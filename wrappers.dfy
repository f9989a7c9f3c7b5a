// Option and Result values for the places where the service returns null
// or raises an exception.
module Wrappers {
  datatype Option<T> = None | Some(value: T)
  {
    /** The `??` operator: the value when there is one, else the default. */
    function UnwrapOr(default: T): T
    {
      if Some? then value else default
    }
  }

  datatype Result<T, E> = Ok(value: T) | Err(error: E)
}
