/** Option and Result values, standing in for Python's `None` and raised exceptions. */
module Wrappers {

  datatype Option<+T> = None | Some(value: T)

  /** The Python exception a call raises, where the model keeps it. */
  datatype Fault =
    | IndexError  // subscript past the end of a list or string
    | ValueError  // `int()` of text that is not a number
    | KeyError    // dictionary lookup of a missing key
    | NameError   // reference to a name that is never defined

  datatype Result<+T> = Ok(value: T) | Err(fault: Fault)
}
