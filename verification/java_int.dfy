/** Java's fixed-width integer arithmetic, written out over Dafny's unbounded integers. */
module JavaInt {

  const MIN_INT: int := -0x8000_0000
  const MAX_INT: int := 0x7fff_ffff
  const MIN_LONG: int := -0x8000_0000_0000_0000
  const MAX_LONG: int := 0x7fff_ffff_ffff_ffff

  /** Java `int` */
  type Int32 = x: int | MIN_INT <= x <= MAX_INT

  /** Java `long` */
  type Int64 = x: int | MIN_LONG <= x <= MAX_LONG

  /** `Math.abs(int)`: the negation overflows for MIN_INT, which is returned unchanged. */
  function Abs(x: Int32): (r: Int32)
    ensures r >= 0 <==> x != MIN_INT
    ensures x != MIN_INT ==> r == x || r == -x
    ensures x == MIN_INT ==> r == x
  {
    if x == MIN_INT then MIN_INT else if x < 0 then -x else x
  }

  /** Java's `/`: the quotient truncates toward zero. */
  function Quot(a: int, b: int): (q: int)
    requires b != 0
    ensures (a >= 0) == (b > 0) || a == 0 ==> q >= 0
    ensures (a >= 0) != (b > 0) ==> q <= 0
  {
    var m := if b < 0 then -b else b;
    var n := if a < 0 then -a else a;
    if (a >= 0) == (b > 0) then n / m else -(n / m)
  }

  /** Java's `%`: the remainder of the truncating division, so it takes the sign of `a`. */
  function Rem(a: int, b: int): (r: int)
    requires b != 0
    ensures -(if b < 0 then -b else b) < r < (if b < 0 then -b else b)
    ensures a >= 0 ==> r >= 0
    ensures a <= 0 ==> r <= 0
  {
    var m := if b < 0 then -b else b;
    if a >= 0 then a % m else -((-a) % m)
  }

  /** The identity `(a / b) * b + a % b == a` that ties Java's `%` to its `/`. */
  lemma QuotRem(a: int, b: int)
    requires b != 0
    ensures Quot(a, b) * b + Rem(a, b) == a
  {
    var m := if b < 0 then -b else b;
    var n := if a < 0 then -a else a;
    assert n == (n / m) * m + n % m;
    if b < 0 {
      assert (n / m) * b == -((n / m) * m);
    }
  }

  /** Two's-complement reduction of an integer into the `long` range. */
  function WrapLong(x: int): (r: Int64)
    ensures MIN_LONG <= x <= MAX_LONG ==> r == x
    ensures (r - x) % 0x1_0000_0000_0000_0000 == 0
  {
    (x - MIN_LONG) % 0x1_0000_0000_0000_0000 + MIN_LONG
  }

  /** Java's `long + long`, which wraps on overflow. */
  function AddLong(a: Int64, b: Int64): (r: Int64)
    ensures r == a + b <==> a + b <= MAX_LONG && a + b >= MIN_LONG
    ensures b >= 0 && a + b > MAX_LONG ==> r < a
  {
    WrapLong(a + b)
  }
}
