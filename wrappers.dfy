/** Failure-carrying wrappers shared by every module of the model. */
module Wrappers {

  /** Python's `None` / "some value" distinction for optional fields. */
  datatype Option<+T> = None | Some(value: T)

  /** The Python exceptions the modelled code can raise and does not catch. */
  datatype PyError =
    | AttributeError  // a method such as `.strip()`, `.get()` or `.items()` on a value of the wrong type
    | IndexError      // a row or run index past the end of a list
    | ValueError      // unpacking `split("=")` into two names, or mismatched header lists
    | TypeError       // iterating over or indexing a value that does not support it
    | KeyError        // `d[k]` for a key the dict does not hold

  /** The outcome of a modelled Python call: a value, or the exception it raised. */
  datatype Result<+T> = Ok(value: T) | Raised(error: PyError)
}
