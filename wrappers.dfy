/** Option, Result and Outcome values used where the Java code has null or throws. */
module Wrappers {

  datatype Option<+T> = None | Some(value: T)

  /** The result of a Java method that either returns a value or throws. */
  datatype Result<+T, +E> = Success(value: T) | Failure(error: E)

  /** The result of a Java method that returns nothing or throws. */
  datatype Outcome<+E> = Pass | Fail(error: E)

  /** The Java exceptions the modelled code can raise. */
  datatype Exception =
    | IllegalStateException(message: string)
      // a cast `(ButtonConnector) connector` on a connector of another class
    | ClassCastException
}
