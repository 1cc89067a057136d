/** Shared vocabulary of the grid model: optional values, results of
    validating constructors, and the two real-valued clamps the engine uses. */
module Common {

  /** An optional value, as `Optional[...]` is used for the cross-border
      terminal and for history lookups. */
  datatype Option<+T> = None | Some(value: T)

  /** Why a constructor refused its arguments. The Python code raises a bare
      `AssertionError` for every out-of-domain physical parameter and a
      `ValueError` with one of two messages for malformed capacity-factor
      series. */
  datatype Error =
    | AssertionError
    | WrongDimensions
    | InvalidCapacityFactor

  /** The outcome of a validating constructor. */
  datatype Result<+T> = Ok(value: T) | Err(error: Error)

  function Min(a: real, b: real): (m: real)
    ensures m <= a && m <= b
    ensures m == a || m == b
  {
    if a <= b then a else b
  }

  function Max(a: real, b: real): (m: real)
    ensures a <= m && b <= m
    ensures m == a || m == b
  {
    if a >= b then a else b
  }
}
