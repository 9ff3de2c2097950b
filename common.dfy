/** Values that stand for the exceptions, nulls and error returns of the modelled code. */
module Common {

  /** A Java reference that may be null, or a Python value that may be None. */
  datatype Option<+T> = None | Some(value: T)

  /** The exceptions raised by the modelled Java and Python code. */
  datatype Fault =
    | IllegalState(message: string)
    | IllegalArgument(message: string)
    | NullPointer
    | UnsupportedOperation(message: string)
    | IndexOutOfBounds
    | KeyError(key: string)
    | NameError(name: string)
    | IndexError

  /** A call that returns a value or throws. */
  datatype Result<+T> = Ok(value: T) | Fail(fault: Fault)

  /** A call that returns nothing or throws. */
  datatype Outcome = Done | Threw(fault: Fault)
}
