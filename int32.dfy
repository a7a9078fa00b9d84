/** The C# `int` type: 32-bit two's complement, with unchecked (wrapping) arithmetic. */
module Int32 {

  const Min: int := -0x8000_0000
  const Max: int := 0x7fff_ffff
  const Modulus: int := 0x1_0000_0000

  newtype int32 = x: int | -0x8000_0000 <= x <= 0x7fff_ffff

  /** `x++` in an unchecked context: one more, except that `int.MaxValue` wraps to `int.MinValue`.
      Its contract says what the hardware does: the result is congruent to `x + 1` modulo 2^32. */
  function Increment(x: int32): (r: int32)
    ensures (r as int - x as int - 1) % Modulus == 0
    ensures x as int < Max ==> r as int == x as int + 1
  {
    if x as int == Max then Min as int32 else (x as int + 1) as int32
  }

  /** The congruence alone pins the result down: no other 32-bit value is `x + 1` modulo 2^32. */
  lemma IncrementUnique(x: int32, y: int32)
    requires (y as int - x as int - 1) % Modulus == 0
    ensures y == Increment(x)
  {
  }
}
