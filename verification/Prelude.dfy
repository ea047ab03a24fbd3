/** Result types and machine-integer bounds shared by every module. */
module Prelude {

  datatype Option<+T> = None | Some(value: T)

  datatype Result<+T, +E> = Ok(value: T) | Err(error: E) {
    predicate IsFailure() { Err? }

    function PropagateFailure<U>(): Result<U, E>
      requires Err?
    {
      Err(error)
    }

    function Extract(): T
      requires Ok?
    {
      value
    }
  }

  datatype Check<+E> = Pass | Fail(error: E) {
    predicate IsFailure() { Fail? }

    function PropagateFailure<U>(): Result<U, E>
      requires Fail?
    {
      Err(error)
    }
  }

  /** Rust's `require!`. */
  function Need<E>(condition: bool, error: E): Check<E> {
    if condition then Pass else Fail(error)
  }

  const U16_MAX: nat := 0xFFFF
  const U64_MAX: nat := 0xFFFF_FFFF_FFFF_FFFF
  const U128_MAX: nat := 0xFFFF_FFFF_FFFF_FFFF_FFFF_FFFF_FFFF_FFFF

  type u16 = x: int | 0 <= x <= U16_MAX
  type u64 = x: int | 0 <= x <= U64_MAX

  function Min(a: int, b: int): int { if a <= b then a else b }

  function Max(a: int, b: int): int { if a <= b then b else a }

  function Pow(base: nat, exponent: nat): nat {
    if exponent == 0 then 1 else base * Pow(base, exponent - 1)
  }

  lemma {:induction false} PowPositive(base: nat, exponent: nat)
    requires base > 0
    ensures Pow(base, exponent) > 0
  {
    if exponent > 0 {
      PowPositive(base, exponent - 1);
    }
  }
}
