/** Error reporting shared by every module: C++ exceptions become values. */
module Results {
  datatype Option<T> = None | Some(value: T)

  /** The two exception families of the program, the plain base class Exception,
      and an exception raised by a collaborator whose own code is not part of this
      model. */
  datatype Error = LogicError | RuntimeError | GenericError | CollaboratorError

  datatype Result<T> = Ok(value: T) | Err(error: Error)

  /** The outcome of a `void` operation that may throw. */
  datatype Outcome = Done | Failed(error: Error)
}
