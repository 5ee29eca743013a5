/** Shared vocabulary: optional values, results, bytes and 32-bit saturating arithmetic. */
module Prelude {

  datatype Option<+T> = None | Some(value: T)

  /** The outcome of a fallible operation; usable with `:-` like the `?` operator. */
  datatype Result<+T, +E> = Ok(value: T) | Err(error: E) {
    predicate IsFailure() {
      Err?
    }
    function PropagateFailure<U>(): Result<U, E>
      requires Err?
    {
      Err(error)
    }
    function Extract(): T
      requires Ok?
    {
      value
    }
    function MapOk<U>(f: T -> U): Result<U, E> {
      match this
      case Ok(value) => Ok(f(value))
      case Err(error) => Err(error)
    }
  }

  type byte = b: int | 0 <= b < 256

  const U32_MAX: nat := 0xFFFF_FFFF

  type u32 = n: int | 0 <= n <= 0xFFFF_FFFF

  function SaturatingAdd(a: u32, b: u32): u32 {
    if a + b > U32_MAX then U32_MAX else a + b
  }

  function SaturatingSub(a: u32, b: u32): u32 {
    if a < b then 0 else a - b
  }

  function Min(a: int, b: int): int {
    if a <= b then a else b
  }
}
