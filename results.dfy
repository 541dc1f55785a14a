/** Values that may be absent and computations that may fail, shared by both tools. */
module Results {

  /** Python's `None` versus a present value. */
  datatype Option<T> = None | Some(value: T)

  /** The Python exceptions the two scripts can end with. None of them is caught,
      except for the `ValueError` of a failed `list.index`, which the concordance
      loop turns into a not-found count. */
  datatype Failure =
    | ValueError          // unpacking a line into the wrong number of fields, int() of a non-number
    | IndexError          // a list index past the end
    | KeyError            // a dictionary lookup of a missing key
    | TypeError           // Python 3 ordering comparison against None
    | NameError           // reading a variable that was never assigned
    | ZeroDivisionError   // the concordance rate of a sample with nothing compared
    | ConfigError         // the explicit `raise Exception` of the threshold check

  /** The outcome of a step that either produces a value or raises. */
  datatype Result<T> = Ok(value: T) | Err(error: Failure)
}
