/** Results, time units and number conversion shared by the components of the model. */
module Common {

  datatype Option<+T> = None | Some(value: T)

  datatype Result<+T, +E> = Success(value: T) | Failure(error: E) {
    predicate IsFailure() {
      Failure?
    }

    function PropagateFailure<U>(): Result<U, E>
      requires Failure?
    {
      Failure(error)
    }

    function Extract(): T
      requires Success?
    {
      value
    }
  }

  /** Points in time are microseconds. */
  const DAY := 86_400_000_000
  const MINUTE := 60_000_000
  const HOUR := 60 * MINUTE

  /** Conversion of a number to an integer drops its fraction, towards zero. */
  function Truncate(x: real): int {
    if x >= 0.0 then x.Floor else -((-x).Floor)
  }

  function Max(x: real, y: real): real {
    if y > x then y else x
  }
}
