/** Small failure-carrying datatypes shared by the whole model. */
module Values {

  /** A JavaScript value that may be `undefined`. */
  datatype Option<+T> = None | Some(value: T)

  /** The outcome of a handler: it either finishes, or a TypeError escapes it
      (reading a property of `undefined`). */
  datatype Result<+T> = Ok(value: T) | Thrown(error: string)

  const TypeError := "TypeError"
}
