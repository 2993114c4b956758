/** The two failure kinds of the vector-space library and a value-or-error
    wrapper for the operations that can raise them. */
module Results {

  /** `DimensionMismatch` carries the two dimensions that disagreed, in the
      order the operation compared them; `NotRectangular` is raised by
      operator construction. */
  datatype Error = DimensionMismatch(left: nat, right: nat) | NotRectangular

  datatype Result<+T> = Ok(value: T) | Err(error: Error)
}
