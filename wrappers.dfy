/**
 * Option and Result wrappers shared by the whole model. Java exceptions thrown
 * by the toolchain surface as `Err` values carrying the exception's class.
 */
module Wrappers {

  datatype Option<T> = None | Some(value: T)

  /** The exception classes the modelled code throws on purpose. */
  datatype Failure =
    | IllegalArgument          // java.lang.IllegalArgumentException
    | IllegalState             // java.lang.IllegalStateException
    | UnsupportedOperation     // java.lang.UnsupportedOperationException
    | IndexOutOfBounds         // java.lang.ArrayIndexOutOfBoundsException
    | QasmParse                // the importer's QasmParseException

  datatype Result<T> = Ok(value: T) | Err(error: Failure)
  {
    predicate IsFailure() { Err? }

    function PropagateFailure<U>(): Result<U>
      requires Err?
    {
      Err(error)
    }

    function Extract(): T
      requires Ok?
    {
      value
    }
  }
}
