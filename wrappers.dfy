/** Failure-carrying results shared by every module: the exceptions the
    translator throws become the `Exn` tag of a `Result` or `Outcome`. */
module Wrappers {

  /** The .NET exception types that the modelled code can raise. */
  datatype Exn =
    | ArgumentException            // Dictionary.Add of a repeated key; an invalid renamed symbol
    | ArgumentOutOfRangeException  // a range or span with a negative bound
    | KeyNotFoundException         // Dictionary indexer on a missing key
    | InvalidOperationException    // Enumerable.First with no match; ThrowIf*IsNull
    | NullReferenceException       // GetLocalVariable on an instruction without a local
    | NotSupportedException
    | NotImplementedException
    | InvalidCastException         // a type reference cast to a type definition
    | FatalException               // the non-recoverable termination signal

  datatype Option<+T> = None | Some(value: T)

  datatype Result<+T> = Ok(value: T) | Err(error: Exn)

  /** The result of an operation that returns nothing or throws. */
  datatype Outcome = Pass | Fail(error: Exn)
}
