/** Optional values, results, and the Python exceptions the modelled code can raise. */
module Wrappers {

  /** Python's `None` or a present value. */
  datatype Option<+T> = None | Some(value: T)

  /** The exceptions raised by the modelled statements of generate_art.py. */
  datatype Exception =
    | AssertionError  // a failed `assert` in Evaluator.loss or Evaluator.grads
    | ValueError      // numpy cannot reshape an array of the wrong size

  /** A computation that either returns a value or raises an exception. */
  datatype Result<+T> = Ok(value: T) | Err(error: Exception)
}
