/** Optional values and Python's exception outcomes, as plain data. */
module Outcome {

  datatype Option<+T> = None | Some(value: T)

  /** The Python exceptions the modelled code can raise or lets escape. */
  datatype PyError =
    | KeyError        // a `d[k]` lookup of a missing key
    | ValueError      // `list.remove(x)` with no element equal to x
    | OverflowError   // a `datetime.date` stepped past 9999-12-31
    | UsageExit       // `usage()` printed the help text and called `sys.exit(2)`

  /** Either the value a Python call returns or the exception it raises. */
  datatype Result<+T> = Ok(value: T) | Raised(error: PyError)
}
