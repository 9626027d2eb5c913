/** Absent values and the Python exceptions the modelled code can raise. */
module Outcomes {

  /** Python's `None` next to a present value. */
  datatype Option<+T> = None | Some(value: T)

  /** The exceptions raised by the modelled code, by their Python class. */
  datatype PyError =
    | TypeError       // a validator rejected an argument, or `None` was iterated or measured
    | AttributeError  // `get_tracks_info` found no track ids at all
    | IndexError      // `[0]` or `[1]` on a response that is too short

  /** Either the value a Python function returns or the exception it raises. */
  datatype Result<+T> = Ok(value: T) | Err(error: PyError)
}
