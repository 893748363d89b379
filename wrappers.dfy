/** Option and Result types shared by the bit-field codec and the ADC driver,
    with the error conditions the Python code raises as exceptions. */
module Wrappers {

  datatype Option<+T> = None | Some(value: T)

  /** The exceptions the modelled code can raise. */
  datatype Error =
    | OutOfRange(argument: string, value: int)  // check_value: ValueError naming the argument
    | IndexOutOfRange                           // IndexError from indexing a tuple
    | FieldIsNone                               // AttributeError: a field lookup that gave None was used
    | UnknownFieldName(name: string)            // ValueError raised by get_field_value
    | ValidateUnsupported                       // get_field_value(validate=True) on a checked field: the code
                                                // calls NotImplemented, which is not callable, so a TypeError

  datatype Result<+T> = Ok(value: T) | Err(error: Error)
}
