/** Shared vocabulary: optional values, outcomes and the clamped subtraction of the money rules. */
module Comun {

  datatype Option<+T> = None | Some(value: T) {
    function GetOr(otro: T): T { if Some? then value else otro }
  }

  datatype Result<+T, +E> = Success(value: T) | Failure(error: E)

  /** `Decimal.max(0, x)`: a balance never goes below zero. */
  function Max0(x: int): nat
  {
    if x < 0 then 0 else x
  }

  function Menor(a: int, b: int): int
  {
    if a <= b then a else b
  }
}
