/** What several parts of the gateway share: result types, instants, and how a tool is classified. */
module Common {

  /** An instant. */
  type Time = int

  /** What a tool does to the upstream. */
  datatype SideEffect = ReadOnly | IdempotentWrite | NonIdempotentWrite | UnknownEffect

  /** Who may see a tool. */
  datatype Visibility = Public | Authenticated | Restricted

  datatype Option<+T> = None | Some(value: T)

  /** A use case either returns a value or raises one of the application's errors. */
  datatype Result<+T, +E> = Ok(value: T) | Err(error: E)
  {
    predicate IsFailure() {
      Err?
    }

    function PropagateFailure<U>(): Result<U, E>
      requires Err?
    {
      Err(error)
    }

    function Extract(): T
      requires Ok?
    {
      value
    }
  }

  function Pow2(n: nat): (p: nat)
    ensures p >= 1
  {
    if n == 0 then 1 else 2 * Pow2(n - 1)
  }

  function Sum(terms: seq<real>): real {
    if terms == [] then 0.0 else Sum(terms[..|terms| - 1]) + terms[|terms| - 1]
  }

  // ------------------------------------------------------ clock and generator

  /** A reading of the clock; nothing is known about it. */
  method ReadClock() returns (now: Time) {
    now := *;
  }

  /** An id from the generator; nothing is known about it. */
  method NewId() returns (id: string) {
    id := *;
  }
}
