/** Go's fixed-width integer behaviour that the façade relies on: conversions between
    `uint` and `int` (64-bit, two's complement) and Go's `/`, which truncates toward zero. */
module GoInt {

  const TwoTo63: int := 0x8000_0000_0000_0000
  const TwoTo64: int := 0x1_0000_0000_0000_0000
  const MaxUint64: int := TwoTo64 - 1
  const MaxInt64: int := TwoTo63 - 1

  /** The value a Go `uint` (64 bits) holds after an arithmetic result `x`, wrapping around. */
  function Wrap64(x: int): (u: nat)
    ensures u < TwoTo64
    ensures 0 <= x < TwoTo64 ==> u == x
    ensures x < 0 && -TwoTo64 <= x ==> u == x + TwoTo64
  {
    x % TwoTo64
  }

  /** Go's `int(u)` for a 64-bit `uint`: the bit pattern read as two's complement. */
  function ToInt64(u: nat): (i: int)
    requires u < TwoTo64
    ensures -TwoTo63 <= i < TwoTo63
    ensures i % TwoTo64 == u
  {
    if u < TwoTo63 then u else u - TwoTo64
  }

  /** `int(a - b)` with `a` and `b` of Go type `uint`: the subtraction wraps, the
      conversion reinterprets, and the exact difference comes back whenever it fits. */
  function SignedDifference(a: nat, b: nat): (d: int)
    ensures -TwoTo63 <= d < TwoTo63
  {
    ToInt64(Wrap64(a - b))
  }

  lemma SignedDifferenceExact(a: nat, b: nat)
    requires a < TwoTo63 && b < TwoTo63
    ensures SignedDifference(a, b) == a - b
  {
    if a >= b {
      assert Wrap64(a - b) == a - b;
    } else {
      assert Wrap64(a - b) == a - b + TwoTo64;
    }
  }

  /** Go's `a / b` on signed integers: the quotient truncated toward zero. */
  function Quo(a: int, b: int): (q: int)
    requires b != 0
    ensures 0 <= a && 0 < b ==> q == a / b
    ensures a < 0 && 0 < b ==> q == -((-a) / b)
  {
    if (a < 0) == (b < 0) then
      (if a < 0 then -a else a) / (if b < 0 then -b else b)
    else
      -((if a < 0 then -a else a) / (if b < 0 then -b else b))
  }

  /** Halving with Go's `/`: twice the quotient is within one of `a`, on the side of zero. */
  lemma QuoHalf(a: int)
    ensures a >= 0 ==> a - 1 <= 2 * Quo(a, 2) <= a
    ensures a < 0 ==> a <= 2 * Quo(a, 2) <= a + 1
  {
  }

  /** Go's `Quo(-3, 2)` is -1, where Dafny's Euclidean `-3 / 2` is -2. */
  lemma QuoTruncatesTowardZero()
    ensures Quo(-3, 2) == -1 && -3 / 2 == -2
  {
  }

  function Min(a: int, b: int): (m: int)
    ensures m <= a && m <= b && (m == a || m == b)
  {
    if a <= b then a else b
  }

  function Max(a: int, b: int): (m: int)
    ensures m >= a && m >= b && (m == a || m == b)
  {
    if a >= b then a else b
  }
}
