/** The .NET exceptions the modelled code raises, with the messages it gives them. */
module Exceptions {

  datatype Exception =
    | EndOfStreamException(message: string)
    | TermParseException(message: string)
    | ArgumentOutOfRangeException(paramName: string)
    | OverflowException
    | InvalidCastException(message: string)
    | InvalidOperationException(message: string)
    | NotImplementedException

  /** Raised by the cursor primitives when the input is exhausted. */
  const UnexpectedEndOfStream := EndOfStreamException("Unexpected end of stream.")
}
