/** Nullable values and the exceptions the services throw, as values. */
module Wrappers {

  /** A Java reference that may be null: `None` stands for null. */
  datatype Option<+T> = None | Some(value: T)

  /** The exceptions the core raises or lets escape. */
  datatype Failure =
    | IllegalArgument(message: string)
    | IllegalState(message: string)
      /** An exception thrown by a foreign collaborator (vector store, chat
          model, repository) and propagated to the caller unchanged. */
    | CollaboratorFailure

  /** The result of a call that either returns a value or throws. */
  datatype Result<+T> = Ok(value: T) | Err(failure: Failure)

  /** The result of a guard that either passes or throws. */
  datatype Outcome = Pass | Fail(failure: Failure)
}
