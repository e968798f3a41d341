/** Small failure-carrying datatypes shared by the whole model. */
module Results {

  /** A value that may be absent, as Python's `None`. */
  datatype Option<+T> = None | Some(value: T)

  /** The outcome of a Python call that either returns a value or raises
      an exception, represented by the exception's `str(e)` text. */
  datatype Result<+T> = Returns(value: T) | Raises(error: string)
}
