/** Fixed-width signed integers. Go's `int32` and `int64` are ordinary
    integers in a bounded range; converting an integer to a narrower signed
    type keeps its low bits and reads them back as two's complement. */
module Ints {

  /** The integer widths the package converts to: Go's `int` is 32 or 64 bits
      wide depending on the platform, and C's `int` is 32 bits wide. */
  predicate IsWidth(bits: nat) { bits == 32 || bits == 64 }

  /** Half the number of values of a `bits`-wide integer, 2 to the power bits - 1 */
  function Half(bits: nat): (h: int)
    requires IsWidth(bits)
    ensures h > 0
  {
    if bits == 32 then 0x8000_0000 else 0x8000_0000_0000_0000
  }

  /** v is representable as a signed integer `bits` wide */
  predicate InSigned(v: int, bits: nat)
    requires IsWidth(bits)
  {
    -Half(bits) <= v < Half(bits)
  }

  type Int32 = v: int | -0x8000_0000 <= v < 0x8000_0000
  type Int64 = v: int | -0x8000_0000_0000_0000 <= v < 0x8000_0000_0000_0000

  /** The Go conversion of v to a signed integer type `bits` wide:
      the low `bits` bits of v, read as two's complement. */
  function Wrap(v: int, bits: nat): (r: int)
    requires IsWidth(bits)
    ensures InSigned(r, bits)
    ensures (v - r) % (2 * Half(bits)) == 0
  {
    var m := v % (2 * Half(bits));
    if m < Half(bits) then m else m - 2 * Half(bits)
  }

  /** A conversion changes nothing exactly when the value fits the target width:
      this is the test `int64(int(v)) != v` that guards Go's narrowing. */
  lemma WrapIdentity(v: int, bits: nat)
    requires IsWidth(bits)
    ensures Wrap(v, bits) == v <==> InSigned(v, bits)
  {
  }

}
