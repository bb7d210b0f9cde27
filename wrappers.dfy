/** Java-shaped building blocks shared by the Email and Coresender models:
    a nullable reference, the one exception type the library throws, and the
    two ways a call can end (returning normally or throwing). */
module Wrappers {

  /** A Java reference of type T that may be null. */
  datatype Nullable<+T> = Null | NonNull(value: T)

  /** The exceptions raised by the modelled code: all are
      IllegalArgumentException carrying the message the source builds. */
  datatype Exception = IllegalArgument(message: string)

  /** A call that returns a value of type T or throws. */
  datatype Result<+T> = Success(value: T) | Failure(error: Exception)

  /** A call whose only observable result is whether it threw
      (the fluent setters return `this`, which carries no information). */
  datatype Outcome = Returned | Threw(error: Exception)

  /** The message of Java's generated null checks: "<name> is marked non-null but is null". */
  function NullMessage(name: string): (m: string)
  {
    name + " is marked non-null but is null"
  }
}
