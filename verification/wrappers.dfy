/** Optional values and results-or-exceptions, shared by every module of the model. */
module Wrappers {

  /** A value that may be absent: Python's `None` versus a present value. */
  datatype Option<+T> = None | Some(value: T)

  /** The outcome of a Python call: a returned value or a raised exception. */
  datatype Result<+R, +E> = Success(value: R) | Failure(error: E)

  /** The Python exceptions the modelled code can raise. */
  datatype Exception =
    | KeyError(key: string)      // a dictionary lookup of a missing key
    | NoneKeyError               // a dictionary lookup of `None`, which no table holds
    | IndexError                 // `parts[1]` on a one-element list
    | ValueError(text: string)   // `float(text)` on text that is not a number
}
