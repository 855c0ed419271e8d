/** Java's fixed-width integers, written out over Dafny's unbounded `int`.
    A Java `long` (or `int`) operation that overflows wraps around modulo 2^64 (2^32);
    `WrapLong` and `WrapInt` make that narrowing explicit. */
module JavaNumbers {

  const TWO_64: int := 0x1_0000_0000_0000_0000
  const LONG_MIN: int := -0x8000_0000_0000_0000
  const LONG_MAX: int := 0x7FFF_FFFF_FFFF_FFFF

  const TWO_32: int := 0x1_0000_0000
  const INT_MIN: int := -0x8000_0000
  const INT_MAX: int := 0x7FFF_FFFF

  type Long = x: int | LONG_MIN <= x <= LONG_MAX
  type Int = x: int | INT_MIN <= x <= INT_MAX

  /** The two's-complement value of the low 64 bits of `x`. */
  function WrapLong(x: int): (r: Long)
    ensures (x - r) % TWO_64 == 0
    ensures LONG_MIN <= x <= LONG_MAX ==> r == x
  {
    (x - LONG_MIN) % TWO_64 + LONG_MIN
  }

  /** The two's-complement value of the low 32 bits of `x`. */
  function WrapInt(x: int): (r: Int)
    ensures (x - r) % TWO_32 == 0
    ensures INT_MIN <= x <= INT_MAX ==> r == x
  {
    (x - INT_MIN) % TWO_32 + INT_MIN
  }

  /** Java `a + b` on longs. */
  function AddLong(a: Long, b: Long): (r: Long)
    ensures LONG_MIN <= a + b <= LONG_MAX ==> r == a + b
    ensures (a + b - r) % TWO_64 == 0
  {
    WrapLong(a + b)
  }

  /** Java `a - b` on longs. */
  function SubLong(a: Long, b: Long): (r: Long)
    ensures LONG_MIN <= a - b <= LONG_MAX ==> r == a - b
    ensures (a - b - r) % TWO_64 == 0
  {
    WrapLong(a - b)
  }

  /** Two integers that differ by a multiple of `m` and lie in one window of width `m` are equal. */
  lemma {:induction false} SameResidueInWindow(a: int, b: int, lo: int, m: int)
    requires m > 0
    requires lo <= a < lo + m && lo <= b < lo + m
    requires (a - b) % m == 0
    ensures a == b
  {
    var q := (a - b) / m;
    assert a - b == m * q;
  }

  /** Narrowing an intermediate result first does not change the final narrowed value:
      this is what makes a running long sum equal the wrapped exact sum. */
  lemma {:induction false} WrapLongAdd(x: int, y: int)
    ensures WrapLong(WrapLong(x) + y) == WrapLong(x + y)
  {
    var w := WrapLong(x);
    var q := (x - w) / TWO_64;
    assert x - w == TWO_64 * q;
    var lhs := WrapLong(w + y);
    var rhs := WrapLong(x + y);
    assert (w + y - lhs) % TWO_64 == 0;
    assert (x + y - rhs) % TWO_64 == 0;
    var q1 := (w + y - lhs) / TWO_64;
    var q2 := (x + y - rhs) / TWO_64;
    assert w + y - lhs == TWO_64 * q1;
    assert x + y - rhs == TWO_64 * q2;
    assert lhs - rhs == TWO_64 * (q2 - q - q1);
    assert (lhs - rhs) % TWO_64 == 0;
    SameResidueInWindow(lhs, rhs, LONG_MIN, TWO_64);
  }

  /** The `int` analogue for the step of Java's string hash, `31 * h + c`. */
  lemma {:induction false} WrapIntStep(x: int, c: int)
    ensures WrapInt(31 * WrapInt(x) + c) == WrapInt(31 * x + c)
  {
    var w := WrapInt(x);
    var q := (x - w) / TWO_32;
    assert x - w == TWO_32 * q;
    var lhs := WrapInt(31 * w + c);
    var rhs := WrapInt(31 * x + c);
    var q1 := (31 * w + c - lhs) / TWO_32;
    var q2 := (31 * x + c - rhs) / TWO_32;
    assert 31 * w + c - lhs == TWO_32 * q1;
    assert 31 * x + c - rhs == TWO_32 * q2;
    assert 31 * x - 31 * w == TWO_32 * (31 * q);
    assert lhs - rhs == TWO_32 * (q2 - 31 * q - q1);
    assert (lhs - rhs) % TWO_32 == 0;
    SameResidueInWindow(lhs, rhs, INT_MIN, TWO_32);
  }
}
