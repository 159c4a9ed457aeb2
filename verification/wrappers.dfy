/** Option and Result, the shapes the model uses for Java's null and Java's exceptions. */
module Wrappers {

  /** A possibly-absent value: `None` stands for Java's null. */
  datatype Option<+T> = None | Some(value: T)

  /** The outcome of an operation that may throw. */
  datatype Result<+T, +E> = Ok(value: T) | Err(error: E)

  /** Java's string conversion of a possibly-null String: null prints as "null". */
  function OrNull(s: Option<string>): string
  {
    if s.Some? then s.value else "null"
  }
}

/** The exceptions the modelled code raises, each with the message it carries. */
module Failures {

  datatype Failure =
    | OAuthException(message: string)
    | IllegalState(message: string)
    | IllegalArgument(message: string)
    | NullPointer
    | IndexOutOfBounds
}
