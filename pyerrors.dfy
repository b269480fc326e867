/** Failure-carrying values shared by the whole model: an optional value, and the
    Python exceptions the modelled code can raise, carried by a Result. */
module PyErrors {

  datatype Option<+T> = None | Some(value: T)

  /** The exceptions (and `sys.exit` calls) that the modelled code raises. */
  datatype PyError =
    | AssertionError
    | AddressValueError(text: string)   // ipaddress rejects an address string or an out-of-range value
    | TypeError(reason: string)         // a call with the wrong number of arguments
    | StopIteration                     // `next` on an exhausted iterator
    | RuntimeError(reason: string)
    | UnboundLocalError(name: string)
    | ZeroDivisionError
    | SystemExit(reason: string)

  datatype Result<+T> = Ok(value: T) | Err(error: PyError) {
    predicate IsFailure() { Err? }
    function PropagateFailure<U>(): Result<U>
      requires Err?
    {
      Err(error)
    }
    function Extract(): T
      requires Ok?
    {
      value
    }
  }
}
