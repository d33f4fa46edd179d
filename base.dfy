/** Option and Result, the two failure-carrying shapes the editor's code returns. */
module Base {

  datatype Option<+T> = None | Some(value: T)

  /** `io::Result<T>`: a value, or the I/O error that stopped the operation. */
  datatype Result<+T, +E> = Ok(value: T) | Err(error: E)

  function Max(a: nat, b: nat): nat {
    if a < b then b else a
  }

  function Min(a: nat, b: nat): nat {
    if a < b then a else b
  }
}
