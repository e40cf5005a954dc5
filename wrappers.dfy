/** Option and Result, and the Python exceptions the integration can raise. */
module Wrappers {

  datatype Option<+T> = None | Some(value: T)

  /** The exceptions that escape from the modelled code paths. */
  datatype Error =
    | KeyError            // a dict lookup of a missing key
    | TypeError           // iterating or testing membership in None, `int in str`, ...
    | IndexError          // `options[-1]` of an empty list, `parts[1]` of a one-part split
    | ValueError          // `int(s)` of a string that is not an integer literal
    | AttributeError      // reading an attribute that was never set
    | ServiceValidationError  // Home Assistant's rejection of an invalid service call

  datatype Result<+T> = Ok(value: T) | Err(error: Error)
}
