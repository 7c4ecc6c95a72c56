/** The failures the integrator and the model functions can raise, and the
    result type that carries either a value or one of them. */
module Outcomes {

  /** The Python exceptions the modelled code raises. */
  datatype Exception =
    | ZeroDivisionError          // a float division by zero
    | IndexError                 // indexing past the end of an array
    | KeyError(key: string)      // a dictionary lookup of a missing key
    | NegativeSampleCount(num: int)  // numpy.linspace asked for fewer than zero samples (a ValueError)

  datatype Result<+T> = Ok(value: T) | Err(error: Exception)

  datatype Option<+T> = None | Some(value: T)
}
