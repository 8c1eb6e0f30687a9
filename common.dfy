/** Failure-carrying wrappers and the errors the simulation core raises. */
module Common {

  /** pandas' NaN, or a missing optional argument. */
  datatype Option<+T> = None | Some(value: T)

  datatype Result<+T, +E> = Success(value: T) | Failure(error: E)

  datatype Outcome<+E> = Pass | Fail(error: E)

  /** The exceptions the core can raise. */
  datatype Error =
    | NotImplemented            // Strategy.next() was not overridden
    | UnknownIndicator(name: string)  // get_indicator on an unregistered name (ValueError)
    | IndexOutOfRange           // iloc past the end of a series (IndexError)
    | LengthMismatch            // results table with more values than index entries (ValueError)
    | ZeroUnitCost              // int(cash // 0): a default-sized buy whose unit cost is 0
}
