module Angles {

  /** The value of scipy.constants.pi, as a real. */
  const PI: real := 3.141592653589793

  /** The modulus every angle setter reduces by (`2 * pi` in the source). */
  const TWO_PI: real := 2.0 * PI

  /** Floored remainder of `x` by `m`: `x - m * floor(x / m)`. */
  function Mod(x: real, m: real): (r: real)
    requires m > 0.0
    ensures 0.0 <= r < m
  {
    FloorBounds(x, m);
    x - m * (x / m).Floor as real
  }

  /** `x` is its remainder plus a whole number of `m`. */
  lemma ModDecompose(x: real, m: real)
    requires m > 0.0
    ensures x == Mod(x, m) + m * (x / m).Floor as real
  {
  }

  /** The remainder lies in [0, m) because x / m lies within one of its floor. */
  lemma FloorBounds(x: real, m: real)
    requires m > 0.0
    ensures 0.0 <= x - m * (x / m).Floor as real < m
  {
    var q := x / m;
    var d := q - q.Floor as real;
    assert 0.0 <= d < 1.0;
    assert x == m * q;
    assert m * d < m * 1.0 == m;
    assert x - m * q.Floor as real == m * d;
    assert x - m * (x / m).Floor as real == m * d;
  }

  /** The floor of `q` is the integer `k` with `k <= q < k + 1`. */
  lemma FloorOf(q: real, k: int)
    requires k as real <= q < k as real + 1.0
    ensures q.Floor == k
  {
  }

  /** `Mod(x, m)` is the one value in [0, m) that differs from `x` by a whole number of `m`. */
  lemma ModUnique(x: real, m: real, k: int, r: real)
    requires m > 0.0 && 0.0 <= r < m
    requires x == r + m * k as real
    ensures Mod(x, m) == r
  {
    var q := x / m;
    QuotientInUnit(r, m);
    assert q == r / m + k as real;
    FloorOf(q, k);
  }

  /** A product with a positive first factor is positive only if the second is. */
  lemma PositiveFactor(m: real, q: real)
    requires m > 0.0 && m * q > 0.0
    ensures q > 0.0
  {
  }

  /** For a positive `a`, `(1 + e) a` is at least `a` exactly when `e` is not
      negative, and positive exactly when `1 + e` is. */
  lemma ApsisOffset(a: real, e: real)
    ensures a > 0.0 ==> ((1.0 + e) * a >= a <==> e >= 0.0)
    ensures a > 0.0 ==> ((1.0 + e) * a > 0.0 <==> 1.0 + e > 0.0)
  {
  }

  /** A value in [0, m) divided by m lies in [0, 1). */
  lemma QuotientInUnit(r: real, m: real)
    requires m > 0.0 && 0.0 <= r < m
    ensures 0.0 <= r / m < 1.0
  {
    var p := r / m;
    assert m * (1.0 - p) == m - r;
    PositiveFactor(m, 1.0 - p);
  }

  /** An angle already in [0, m) is left as it is. */
  lemma ModOfReduced(x: real, m: real)
    requires 0.0 <= x < m
    ensures Mod(x, m) == x
  {
    ModUnique(x, m, 0, x);
  }

  /** Adding a whole number of turns does not change the remainder. */
  lemma ModShift(x: real, k: int, m: real)
    requires m > 0.0
    ensures Mod(x + m * k as real, m) == Mod(x, m)
  {
    var f := (x / m).Floor;
    var r := Mod(x, m);
    ModDecompose(x, m);
    assert m * f as real + m * k as real == m * (f + k) as real;
    ModUnique(x + m * k as real, m, f + k, r);
  }

  /** Reducing before adding gives the same remainder as reducing after. */
  lemma ModOfSum(x: real, y: real, m: real)
    requires m > 0.0
    ensures Mod(Mod(x, m) + y, m) == Mod(x + y, m)
  {
    var r1 := Mod(x, m);
    var k1 := (x / m).Floor;
    var r2 := Mod(r1 + y, m);
    var k2 := ((r1 + y) / m).Floor;
    ModDecompose(x, m);
    ModDecompose(r1 + y, m);
    assert x + y == r2 + m * k2 as real + m * k1 as real;
    assert m * k2 as real + m * k1 as real == m * (k1 + k2) as real;
    ModUnique(x + y, m, k1 + k2, r2);
  }
}
