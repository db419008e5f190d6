/**
 * Real-number helpers shared by the discretisation and angle code.
 *
 * The source computes in IEEE-754 doubles; here every quantity is an exact
 * `real`. The three rounding operations the source relies on are spelled out:
 * floor (Python `//`, Ruby `%`), truncation toward zero (a C `(int)` cast,
 * Rust `as usize`, Ruby `to_i`) and the two flavours of floating remainder
 * (`fmod`/Go `math.Mod`/Rust `%`, which truncate, against Python and Ruby `%`,
 * which floor).
 */
module RealMath {

  /** `fabs`, `abs`, `math.Abs`, `f64::abs`. */
  function Abs(v: real): (r: real)
    ensures r >= 0.0 && (r == v || r == -v)
  {
    if v < 0.0 then -v else v
  }

  /** Truncation toward zero, as a C `(int)` cast or Rust `as` performs it. */
  function Trunc(q: real): (t: int)
    ensures q >= 0.0 ==> 0 <= t && t as real <= q < t as real + 1.0
    ensures q < 0.0 ==> t <= 0 && t as real - 1.0 < q <= t as real
  {
    if q >= 0.0 then q.Floor else -((-q).Floor)
  }

  /** On a non-negative quotient truncation and floor agree. */
  lemma TruncIsFloorWhenNonNegative(q: real)
    requires q >= 0.0
    ensures Trunc(q) == q.Floor
  {
  }

  /** Multiplication by a positive real keeps a non-strict order. */
  lemma MulMonoLe(a: real, b: real, m: real)
    requires a <= b && m > 0.0
    ensures a * m <= b * m
  {
  }

  /** Multiplication by a positive real keeps a strict order. */
  lemma MulMonoLt(a: real, b: real, m: real)
    requires a < b && m > 0.0
    ensures a * m < b * m
  {
  }

  /** Division by a positive real keeps a non-strict order. */
  lemma DivMonoLe(a: real, b: real, m: real)
    requires a <= b && m > 0.0
    ensures a / m <= b / m
  {
    assert a / m == a * (1.0 / m);
    assert b / m == b * (1.0 / m);
    MulMonoLe(a, b, 1.0 / m);
  }

  /** Division by a positive real keeps a strict order. */
  lemma DivMonoLt(a: real, b: real, m: real)
    requires a < b && m > 0.0
    ensures a / m < b / m
  {
    assert a / m == a * (1.0 / m);
    assert b / m == b * (1.0 / m);
    MulMonoLt(a, b, 1.0 / m);
  }

  /** The quotient's floor brackets the dividend between two multiples of m. */
  lemma FloorBracket(x: real, m: real)
    requires m > 0.0
    ensures (x / m).Floor as real * m <= x < (x / m).Floor as real * m + m
  {
    var q := x / m;
    var f := q.Floor as real;
    assert q * m == x;
    MulMonoLe(f, q, m);
    MulMonoLt(q, f + 1.0, m);
    assert q * m < (f + 1.0) * m;
    assert (f + 1.0) * m == f * m + m;
    assert x < f * m + m;
  }

  /** Truncation of the quotient brackets the dividend from the side of zero. */
  lemma TruncBracket(x: real, m: real)
    requires m > 0.0
    ensures x >= 0.0 ==> Trunc(x / m) as real * m <= x < Trunc(x / m) as real * m + m
    ensures x < 0.0 ==> Trunc(x / m) as real * m - m < x <= Trunc(x / m) as real * m
  {
    if x >= 0.0 {
      DivMonoLe(0.0, x, m);
      FloorBracket(x, m);
    } else {
      DivMonoLe(x, 0.0, m);
      var f := ((-x) / m).Floor;
      assert -(x / m) == (-x) / m;
      assert Trunc(x / m) == -f;
      FloorBracket(-x, m);
      assert (-f) as real * m == -(f as real * m);
    }
  }

  /**
   * Floored remainder (Python and Ruby `%` on floats): the result lies in
   * [0, m) and differs from x by a whole multiple of m.
   */
  function FlooredMod(x: real, m: real): (r: real)
    requires m > 0.0
    ensures 0.0 <= r < m
    ensures x - r == (x / m).Floor as real * m
  {
    FloorBracket(x, m);
    x - (x / m).Floor as real * m
  }

  /**
   * Truncated remainder (C `fmod`, Go `math.Mod`, Rust `%` on f64): the result
   * has the sign of x, lies strictly inside (-m, m) and differs from x by a
   * whole multiple of m.
   */
  function TruncMod(x: real, m: real): (r: real)
    requires m > 0.0
    ensures x >= 0.0 ==> 0.0 <= r < m
    ensures x < 0.0 ==> -m < r <= 0.0
    ensures x - r == Trunc(x / m) as real * m
  {
    TruncBracket(x, m);
    x - Trunc(x / m) as real * m
  }

  /** On a non-negative dividend the two remainders coincide. */
  lemma {:induction false} TruncModIsFlooredModWhenNonNegative(x: real, m: real)
    requires m > 0.0 && x >= 0.0
    ensures TruncMod(x, m) == FlooredMod(x, m)
  {
    DivMonoLe(0.0, x, m);
    TruncIsFloorWhenNonNegative(x / m);
  }

  /** The floored remainder is periodic in its dividend. */
  lemma {:induction false} FlooredModPeriodic(x: real, m: real)
    requires m > 0.0
    ensures FlooredMod(x + m, m) == FlooredMod(x, m)
  {
    var f := (x / m).Floor;
    assert m / m == 1.0;
    assert (x + m) / m == x / m + m / m;
    assert ((x + m) / m).Floor == f + 1;
    assert (f + 1) as real * m == f as real * m + m;
  }

  /** The floored remainder leaves a value already in [0, m) unchanged. */
  lemma {:induction false} FlooredModOfReduced(x: real, m: real)
    requires m > 0.0 && 0.0 <= x < m
    ensures FlooredMod(x, m) == x
  {
    DivMonoLe(0.0, x, m);
    DivMonoLt(x, m, m);
    assert m / m == 1.0;
    assert (x / m).Floor == 0;
  }
}
