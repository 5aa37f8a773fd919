/**
 * Small datatypes shared by the whole model: optional values (Java's
 * nullable references), results with an error (Java's exceptions), and the
 * opaque token that stands for a client-supplied `Action<T>`.
 */
module Common {

  /** A Java reference that may be null. */
  datatype Option<+T> = None | Some(value: T)

  /** The outcome of an operation that may throw instead of returning. */
  datatype Result<+T, +E> = Ok(value: T) | Err(error: E)

  /**
   * A client-supplied `Action<T>` (a handler or an invocation callback).
   * Its code is not visible to the library: `id` tells actions apart and
   * `throws` says whether running it raises an exception.
   */
  datatype Action = Action(id: nat, throws: bool)
}
