/** The shapes in which a driver call ends.  A Python driver method either
    returns a value (possibly `None`, when it caught the `RuntimeError` it
    raises on a failed bus read) or lets an exception escape to its caller. */
module Wrappers {

  datatype Option<+T> = None | Some(value: T)

  /** An exception that the driver code does not catch. */
  datatype Fault =
    | TypeError          // arithmetic, indexing or `float()` applied to `None`
    | ZeroDivisionError  // integer division by zero
    | ValueError         // `pow` of a negative float to a fractional power

  /** The result of a call: a returned value, or an exception that escaped. */
  datatype Outcome<+T> = Returned(value: T) | Raised(fault: Fault)
}
