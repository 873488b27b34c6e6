/**
 The Q6.11 fixed-point format of the hardware trace: a sample's real value is
 its integer encoding divided by 2^11 = 2048. The same divisor applies to the
 input column and to both hardware output columns.
 */
module FixedPoint {

  /** The Q6.11 divisor, 2^11. */
  const Scale: real := 2048.0

  /** Real value of a raw fixed-point sample. */
  function Dequantize(n: int): (r: real)
    ensures r * Scale == n as real
  {
    n as real / Scale
  }

  /** A multiple of the scale dequantizes to exactly its quotient. */
  lemma DequantizeMultiple(n: int)
    ensures Dequantize(n * 2048) == n as real
  {
  }
}
