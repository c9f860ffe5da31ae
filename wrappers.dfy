/** Plain datatypes for absent values, results and thrown exceptions, shared by the model. */
module Wrappers {

  /** A value that may be absent: JavaScript's `undefined`/`null` next to a present value. */
  datatype Option<+T> = None | Some(value: T)

  /** A computed value, or the exception that was thrown instead. */
  datatype Result<+T, +E> = Success(value: T) | Failure(error: E)

  /** A call that returns nothing, or the exception it threw. */
  datatype Outcome<+E> = Pass | Fail(error: E)
}

/** The exceptions the core raises. */
module Exceptions {

  /**
   * BadRequest and NotFound are NestJS's BadRequestException and NotFoundException;
   * StoreFailure is an error raised by a repository call (a failed `save`).
   */
  datatype Exception = BadRequest | NotFound | StoreFailure
}
