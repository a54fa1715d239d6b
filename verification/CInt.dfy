/** C++ integer division: the quotient is truncated toward zero and the remainder
    takes the sign of the dividend, unlike Dafny's Euclidean `/` and `%`. */
module CInt {

  const INT32_MIN: int := -0x8000_0000
  const INT32_MAX: int := 0x7fff_ffff

  /** `a / b` as C++ computes it. */
  function Quot(a: int, b: int): (q: int)
    requires b > 0
    ensures 0 <= a ==> q == a / b
    ensures a < 0 ==> q == -((-a) / b)
  {
    if a >= 0 then a / b else -((-a) / b)
  }

  /** `a % b` as C++ computes it. */
  function Rem(a: int, b: int): (r: int)
    requires b > 0
    ensures 0 <= a ==> 0 <= r < b
    ensures a <= 0 ==> -b < r <= 0
  {
    if a >= 0 then a % b else -((-a) % b)
  }

  predicate FitsInt32(x: int) {
    INT32_MIN <= x <= INT32_MAX
  }
}
