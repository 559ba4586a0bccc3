/**
 * Small value types shared by every module of the model: optional values,
 * results carrying an error message (the source's exceptions and error
 * returns), bytes, and fixed-width unsigned arithmetic.
 */
module Wrappers {

  datatype Option<T> = None | Some(value: T)

  /** A computation that either yields a value or fails with a message. */
  datatype Result<T> = Ok(value: T) | Err(message: string)

  /**
   * The result of a call that may dereference a null pointer (the head of
   * an empty chain, a null pointer taken from a queue): past that point
   * the source's behaviour is undefined, so the model gives no value.
   */
  datatype Answer<T> = Answered(value: T) | NullDereference

  /** An octet of a frame, an audio sample or a ring-buffer slot. */
  newtype Byte = x: int | 0 <= x < 256

  const UINT32_MAX: int := 0xFFFF_FFFF
  const UINT32_MODULUS: int := 0x1_0000_0000

  predicate IsU32(x: int) { 0 <= x <= UINT32_MAX }

  /** A `uint32_t` value. */
  type U32 = x: int | 0 <= x <= UINT32_MAX

  /** A bit mask of a 32-bit flags type: all positions are below 32. */
  predicate IsMask32(m: Mask) { forall b :: b in m ==> b < 32 }

  /** Multiplication of two `uint32_t` values, as C++ performs it: modulo 2^32. */
  function MulU32(a: nat, b: nat): (r: nat)
    requires IsU32(a) && IsU32(b)
    ensures IsU32(r)
    ensures a * b < UINT32_MODULUS ==> r == a * b
    ensures r != 0 ==> a > 0 && b > 0
  {
    (a * b) % UINT32_MODULUS
  }

  /** A bit mask, given by the set of positions of its one bits. */
  type Mask = set<nat>

  function Min(a: int, b: int): int { if a <= b then a else b }
  function Max(a: int, b: int): int { if a >= b then a else b }
}
