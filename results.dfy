/** Failure-carrying results shared by the evaluation model. */
module Results {

  datatype Option<+T> = None | Some(value: T)

  /** The outcome of a step that can stop the evaluation run. */
  datatype Result<+R, +E> = Success(value: R) | Failure(error: E)
}
