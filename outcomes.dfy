/** Outcomes of the transmitter's operations: a tagged optional value for the
    single-slot trajectory cache, and the errors its operations surface. */
module Outcomes {

  datatype Option<T> = None | Some(value: T)

  /** Why an operation yields no number. */
  datatype Error =
    | UninitializedTrajectory  // the cache is read before any transmit that saved
    | ShapeMismatch            // a batch that fits neither a placeholder nor the cache
    | NotANumber               // numpy's nan: the average of an empty batch, or a division by zero

  datatype Result<T> = Ok(value: T) | Err(error: Error)
}
