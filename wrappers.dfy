/** Failure-carrying results for the planner's operations. */
module Wrappers {

  /** A value that may be absent: Python's `None` for optional tensors and callables. */
  datatype Option<+T> = None | Some(value: T)

  /** The ways a planner call raises instead of returning a value. */
  datatype Error =
    | ShapeMismatch       // a tensor reshape or broadcast that PyTorch rejects
    | ClampWithoutBounds  // `clamp` called with neither a minimum nor a maximum

  /** The outcome of an operation that may raise. */
  datatype Result<+T> = Success(value: T) | Failure(error: Error)
}
