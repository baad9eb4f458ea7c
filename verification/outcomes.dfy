/**
  Shared result types: an optional value, and the faults a calculation or a
  tool call can raise instead of producing a reply.
 */
module Outcomes {

  datatype Option<+T> = None | Some(value: T)

  /** Why a call stopped before producing a reply. */
  datatype Fault =
    | MissingArgument(key: string)     // a required argument is absent from the argument bag
    | MalformedArgument(key: string)   // an argument has a type its calculation cannot use
    | ZeroDivision                     // a ratio with a zero denominator
    | IndexOutOfRange(index: int)      // a list index below the list's negative range

  datatype Result<+T> = Ok(value: T) | Err(fault: Fault)
}
