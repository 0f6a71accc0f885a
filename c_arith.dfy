// C integer helpers used by the people counter: the `uint8_t` range, `abs`,
// the `min` macro and C's truncating division (Dafny's `/` is Euclidean).

module CArith {

  /** The values of a C `uint8_t`. */
  type UInt8 = x: int | 0 <= x < 256

  function Abs(x: int): (r: int)
    ensures r >= 0
    ensures r == x || r == -x
  {
    if x < 0 then -x else x
  }

  /** The `min(a, b)` macro: `(a < b) ? a : b`. */
  function Min(a: int, b: int): (r: int)
    ensures r <= a && r <= b
    ensures r == a || r == b
  {
    if a < b then a else b
  }

  /** C's `a / b` for `int` operands: the quotient rounded toward zero. */
  function TruncDiv(a: int, b: int): (q: int)
    requires b != 0
    ensures Abs(q * b) <= Abs(a)
    ensures Abs(a - q * b) < Abs(b)
    ensures a >= 0 ==> a - q * b >= 0
    ensures a <= 0 ==> a - q * b <= 0
  {
    if a >= 0 then
      EuclidBounds(a, b);
      a / b
    else
      EuclidBounds(-a, b);
      -((-a) / b)
  }

  lemma EuclidBounds(n: nat, b: int)
    requires b != 0
    ensures 0 <= n - (n / b) * b < Abs(b)
    ensures Abs((n / b) * b) <= n
  {
    assert n == (n / b) * b + n % b;
  }

  /** `uint8_t` addition: the sum wraps around modulo 256. */
  function U8Add(x: UInt8, k: nat): (r: UInt8)
    ensures r % 2 == (x + k) % 2
    ensures x + k < 256 ==> r == x + k
  {
    (x + k) % 256
  }
}
