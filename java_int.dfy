/** Java's 32-bit `int` and its truncating division, written out over
    Dafny's unbounded, Euclidean integers. */
module JavaInt {

  const INT_MIN: int := -0x8000_0000
  const INT_MAX: int := 0x7FFF_FFFF

  /** The values of a Java `int`. */
  type Int32 = x: int | INT_MIN <= x <= INT_MAX

  /** Narrowing to `int` (`Number.intValue`, a `(int)` cast of a `long`):
      keeps the low 32 bits as a two's-complement value. */
  function Wrap32(n: int): (r: Int32)
    ensures (r - n) % 0x1_0000_0000 == 0
    ensures INT_MIN <= n <= INT_MAX ==> r == n
  {
    (n - INT_MIN) % 0x1_0000_0000 + INT_MIN
  }

  /** Java's `a / b` for `b > 0`: the quotient rounded toward zero. */
  function Quot(a: int, b: int): (q: int)
    requires b > 0
    ensures a >= 0 ==> q >= 0
    ensures a <= 0 ==> q <= 0
  {
    if a >= 0 then a / b else -((-a) / b)
  }

  /** Java's `a % b` for `b > 0`: takes the sign of `a`. */
  function Rem(a: int, b: int): (r: int)
    requires b > 0
    ensures Quot(a, b) * b + r == a
    ensures a >= 0 ==> 0 <= r < b
    ensures a < 0 ==> -b < r <= 0
  {
    a - Quot(a, b) * b
  }
}
