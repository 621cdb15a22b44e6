/** The 64-bit integer arithmetic of Go: two's-complement wrap-around and division that
    truncates toward zero. Durations are 64-bit counts of nanoseconds. */
module GoInt {
  const MIN64: int := -0x8000_0000_0000_0000
  const MAX64: int := 0x7FFF_FFFF_FFFF_FFFF
  const TWO64: int := 0x1_0000_0000_0000_0000

  type int64 = x: int | MIN64 <= x <= MAX64

  const MILLISECOND: int := 1_000_000
  const SECOND: int := 1_000_000_000

  /** The value a 64-bit register holds after an operation whose exact result is x. */
  function Wrap(x: int): (r: int64)
    ensures (x - r) % TWO64 == 0
    ensures MIN64 <= x <= MAX64 ==> r == x
  {
    var m := x % TWO64;
    if m <= MAX64 then m else m - TWO64
  }

  /** Division truncating toward zero, for a positive divisor. */
  function Quo(a: int, b: int): (r: int)
    requires b > 0
    ensures 0 <= a ==> r * b <= a < r * b + b
    ensures a <= 0 ==> r * b - b < a <= r * b
  {
    if a >= 0 then a / b else -((-a) / b)
  }

  /** Subtraction of two instants, saturating at the ends of the duration range. */
  function Saturate(x: int): (r: int64)
    ensures MIN64 <= x <= MAX64 ==> r == x
    ensures 0 < x ==> 0 < r <= x
    ensures x <= 0 ==> x <= r <= 0
  {
    if x > MAX64 then MAX64 else if x < MIN64 then MIN64 else x
  }
}
