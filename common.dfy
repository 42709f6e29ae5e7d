/** Option and Result values used for the source's optional arguments and for
    the exceptions it raises. */
module Common {

  /** An optional argument: Python's `None` or a present value. */
  datatype Option<T> = None | Some(value: T)

  /** The outcome of an operation that either returns or raises. */
  datatype Result<T, E> = Ok(value: T) | Err(error: E)

  function Min(a: nat, b: nat): nat
  {
    if a <= b then a else b
  }
}
