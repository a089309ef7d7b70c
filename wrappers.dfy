/** Optional values, results and pass/fail outcomes used across the model. */
module Wrappers {

  /** A value that may be absent; `None` stands for Java's `null`. */
  datatype Option<+T> = None | Some(value: T)

  /** A computed value or the error that stopped the computation. */
  datatype Result<+R, +E> = Success(value: R) | Failure(error: E)

  /** A `void` Java method either returns normally or throws. */
  datatype Outcome<+E> = Pass | Fail(error: E)
}

/** The exceptions the core can raise, as kinds without their message text. */
module Exceptions {

  datatype Error =
    | NotFound     // NotFoundException: no vehicle or dealer under the key
    | NotAllowed   // NotAllowedException: the ownership rule refuses the assignment
    | NullPointer  // NullPointerException: an unset brand asked about in an immutable list
}
