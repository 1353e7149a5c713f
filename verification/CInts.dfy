/** The integer types of the C sources, with the conversions and the division of C. */
module CInts {
  type int16 = x: int | -0x8000 <= x < 0x8000
  type int32 = x: int | -0x8000_0000 <= x < 0x8000_0000
  type uint32 = x: nat | x < 0x1_0000_0000

  const INT16_MAX: int16 := 0x7FFF
  const INT16_MIN: int16 := -0x8000
  const UINT32_MAX: uint32 := 0xFFFF_FFFF

  function ToUint32(x: int): uint32 {
    x % 0x1_0000_0000
  }

  function ToInt32(x: int): int32 {
    var u := ToUint32(x);
    if u < 0x8000_0000 then u else u - 0x1_0000_0000
  }

  /** Division in C truncates toward zero. */
  function Quotient(a: int, b: int): int
    requires b > 0
  {
    if a >= 0 then a / b else -(-a / b)
  }

  lemma QuotientBetween(a: int, b: int, low: int, high: int)
    requires b > 0 && b * low <= a <= b * high
    ensures low <= Quotient(a, b) <= high
  {
    if a >= 0 {
      MulBetween(a / b, low, high, b);
    } else {
      MulBetween(-a / b, -high, -low, b);
    }
  }

  lemma MulBetween(q: int, low: int, high: int, b: int)
    requires b > 0
    ensures q < low ==> q * b + b <= low * b
    ensures q > high ==> high * b + b <= q * b
  {
    if q < low { MulMonotone(q + 1, low, b); }
    if q > high { MulMonotone(high + 1, q, b); }
  }

  lemma {:induction false} MulMonotone(x: int, y: int, b: int)
    requires x <= y && b > 0
    ensures x * b <= y * b
    decreases y - x
  {
    if x < y {
      MulMonotone(x + 1, y, b);
    }
  }

  lemma ModUnique(x: int, m: int, q: int, r: int)
    requires 0 <= r < m && x == q * m + r
    ensures x % m == r && x / m == q
  {
    MulBetween(x / m, q, q, m);
  }
}
