/** Failure-compatible result types shared by every component. */
module Wrappers {

  datatype Option<+T> = None | Some(value: T)

  datatype Result<+T, +E> = Ok(value: T) | Err(error: E) {
    predicate IsFailure() {
      Err?
    }

    function PropagateFailure<U>(): Result<U, E>
      requires Err?
    {
      Err(error)
    }

    function Extract(): T
      requires Ok?
    {
      value
    }
  }

  type U64 = n: nat | n < 0x1_0000_0000_0000_0000

  /** Rust's `checked_add` on `u64`. */
  function CheckedAdd(a: U64, b: U64): Option<U64> {
    if a + b < 0x1_0000_0000_0000_0000 then Some(a + b) else None
  }
}
