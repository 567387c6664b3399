/**
 * Java integer semantics that differ from Dafny's: truncating division and
 * remainder, Math.floorDiv, the (int) cast of a floating value, and the
 * (byte) cast with Byte.toUnsignedInt.
 */
module JavaInt {

  const INT_MIN: int := -0x8000_0000
  const INT_MAX: int := 0x7fff_ffff

  /** The values a Java `int` can hold. */
  predicate IsInt(x: int)
  {
    INT_MIN <= x <= INT_MAX
  }

  function Abs(x: int): (r: nat)
    ensures r == x || r == -x
  {
    if x < 0 then -x else x
  }

  /** Math.min and Math.max on ints. */
  function Min(a: int, b: int): int { if a <= b then a else b }
  function Max(a: int, b: int): int { if a >= b then a else b }

  /** Java's `a / b` for a positive divisor: the quotient is rounded toward zero. */
  function JavaDiv(a: int, b: int): (q: int)
    requires b > 0
  {
    if a >= 0 then a / b else -((-a) / b)
  }

  /** Java's `a % b` for a positive divisor: the remainder takes the sign of the dividend. */
  function JavaRem(a: int, b: int): (r: int)
    requires b > 0
    ensures a == JavaDiv(a, b) * b + r
    ensures a >= 0 ==> 0 <= r < b
    ensures a < 0 ==> -b < r <= 0
  {
    if a >= 0 then a % b else -((-a) % b)
  }

  /** Java's `Math.floorDiv(a, b)` for a positive divisor: rounds toward negative infinity. */
  function FloorDiv(a: int, b: int): (q: int)
    requires b > 0
    ensures q * b <= a < q * b + b
  {
    a / b
  }

  /** Java's `(int) r` for a finite floating value, without the saturation at the int range: rounds toward zero. */
  function Truncate(r: real): (n: int)
    ensures r >= 0.0 ==> n as real <= r < n as real + 1.0
    ensures r < 0.0 ==> n as real - 1.0 < r <= n as real
  {
    if r >= 0.0 then r.Floor else -((-r).Floor)
  }

  /** Java's `(byte) v`: keeps the low eight bits as a signed value. */
  function ToByte(v: int): (b: int)
    ensures -128 <= b < 128
    ensures (v - b) % 256 == 0
  {
    var m := v % 256;
    if m >= 128 then m - 256 else m
  }

  /** Java's `Byte.toUnsignedInt(b)`. */
  function ToUnsignedInt(b: int): (u: int)
    requires -128 <= b < 128
    ensures 0 <= u < 256
    ensures (u - b) % 256 == 0
  {
    if b < 0 then b + 256 else b
  }

  /** Storing a value into a byte and reading it back unsigned yields the value modulo 256. */
  lemma ByteRoundTrip(v: int)
    ensures ToUnsignedInt(ToByte(v)) == v % 256
  {
  }
}
