/**
 * Values the model only carries around. Coordinates and accuracy are never
 * computed with, so they are kept as IEEE 754 bit patterns; the one question
 * ever asked of them is whether they are finite (org.json refuses NaN and the
 * infinities). Kotlin's `Int` is a 32-bit two's complement integer.
 */
module Platform {

  /** A Kotlin `Double`, as its binary64 bit pattern. */
  datatype Double = Double(bits: bv64) {
    /** False exactly for NaN and the two infinities (exponent field all ones). */
    predicate IsFinite() {
      (bits >> 52) & 0x7FF != 0x7FF
    }
  }

  /** A Kotlin `Float`, as its binary32 bit pattern. */
  datatype Float = Float(bits: bv32) {
    /** Widening to `Double` keeps NaN and the infinities, and only them, non-finite. */
    predicate IsFinite() {
      (bits >> 23) & 0xFF != 0xFF
    }
  }

  const MIN_INT32: int := -0x8000_0000
  const MAX_INT32: int := 0x7FFF_FFFF
  const INT32_MODULUS: int := 0x1_0000_0000

  predicate IsInt32(x: int) {
    MIN_INT32 <= x <= MAX_INT32
  }

  /** The 32-bit value that a JVM `Int` computation yielding `x` actually holds. */
  function WrapInt32(x: int): (r: int)
    ensures IsInt32(r)
    ensures (r - x) % INT32_MODULUS == 0
    ensures IsInt32(x) ==> r == x
  {
    (x - MIN_INT32) % INT32_MODULUS + MIN_INT32
  }

  /** Wrapping a successor is the successor of the wrapped value, wrapped. */
  lemma WrapInt32Succ(x: int)
    ensures WrapInt32(WrapInt32(x) + 1) == WrapInt32(x + 1)
  {
    var k := (x - MIN_INT32) / INT32_MODULUS;
    assert WrapInt32(x) == x - k * INT32_MODULUS;
    ModShift(x + 1 - MIN_INT32, k);
  }

  lemma ModShift(y: int, k: int)
    ensures (y - k * INT32_MODULUS) % INT32_MODULUS == y % INT32_MODULUS
  {
    var q := y / INT32_MODULUS;
    var r := y % INT32_MODULUS;
    assert y - k * INT32_MODULUS == (q - k) * INT32_MODULUS + r;
  }
}
