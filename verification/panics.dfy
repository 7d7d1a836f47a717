/** What a call can come to. */
module Panics {
  datatype Option<+T> = None | Some(value: T)

  /** A call either returns or stops the machine: panic, error, a failed assert. */
  datatype Res<+T> = Ok(value: T) | Panic {
    predicate IsFailure() { Panic? }

    function PropagateFailure<U>(): Res<U>
      requires Panic?
    {
      Panic
    }

    function Extract(): T
      requires Ok?
    {
      value
    }
  }
}
