/** The failures that the two driver scripts can raise on the paths modelled
    here, and a Result type that carries either a value or one of them. */
module Wrappers {

  /** A Python exception raised by the drivers. */
  datatype Error =
    /** `x % 0` or `x / 0` on a plain Python number (ZeroDivisionError). */
    | ZeroDivision
    /** A dictionary lookup of a key that was never stored (KeyError). */
    | KeyError(key: nat)
    /** `sum(...)` over an empty dict of complexities is the plain int 0, which
        has neither `.clone()` nor a place in `torch.abs` (AttributeError /
        TypeError). */
    | NotATensor

  datatype Result<T> = Ok(value: T) | Err(error: Error)
}
