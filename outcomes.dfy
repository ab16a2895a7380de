/** Failure-carrying results used in place of the exceptions the planner throws. */
module Outcomes {

  datatype Option<+T> = None | Some(value: T)

  datatype Result<+R, +E> = Success(value: R) | Failure(error: E)
}
