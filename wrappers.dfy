/** Option and Result, used for the source's nullable references and thrown exceptions. */
module Wrappers {

  /** A nullable value: None stands for the source's null. */
  datatype Option<+T> = None | Some(value: T)

  /** The exceptions the modelled code throws. */
  datatype Exception =
    | ArgumentException(message: string)
    | NullReferenceException

  /** The outcome of a call that either returns a value or throws. */
  datatype Result<+T> = Success(value: T) | Failure(error: Exception)
}
