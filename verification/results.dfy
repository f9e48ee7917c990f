/** Failure-compatible wrappers shared by the symmetry modules: the error
    taxonomy of the projection engine and the Result/Option types that carry it. */
module Results {

  /** The ways a call into the engine can fail. */
  datatype Error =
    | UnknownGroup(name: string)                       // no character table registered under this name
    | DimensionMismatch(expected: nat, actual: nat)    // an input's length disagrees with the group

  datatype Result<+T> = Ok(value: T) | Err(error: Error) {
    predicate IsFailure() { Err? }

    function PropagateFailure<U>(): Result<U>
      requires Err?
    {
      Err(error)
    }

    function Extract(): T
      requires Ok?
    {
      value
    }
  }

  datatype Option<+T> = None | Some(value: T)
}
