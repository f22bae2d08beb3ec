/** Small failure-carrying datatypes and integer helpers shared by the
    server and display models. */
module Common {

  /** A value that may be absent: JavaScript's `null` for `chamadaAtual`,
      or a failed fetch on the display side. */
  datatype Option<+T> = None | Some(value: T)

  /** The outcome of a route handler: a JSON reply or an HTTP error. */
  datatype Result<+R, +E> = Success(value: R) | Failure(error: E)

  function Min(a: int, b: int): (m: int)
    ensures m <= a && m <= b
    ensures m == a || m == b
  {
    if a <= b then a else b
  }

  function Max(a: int, b: int): (m: int)
    ensures m >= a && m >= b
    ensures m == a || m == b
  {
    if a >= b then a else b
  }
}
