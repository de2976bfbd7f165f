/** Small real-number helpers shared by the simulation modules. */
module Numbers {

  function Min(a: real, b: real): real { if a <= b then a else b }

  function Max(a: real, b: real): real { if a >= b then a else b }

  function Abs(a: real): real { if a >= 0.0 then a else -a }

  /** `k` whole times `m`. */
  function Multiple(m: real, k: int): real { m * (k as real) }

  /** JavaScript's `%` on numbers: the quotient is truncated toward zero, so
      the remainder takes the sign of `x`. */
  function JsRem(x: real, m: real): (r: real)
    requires m > 0.0
    ensures x >= 0.0 ==> 0.0 <= r < m
    ensures x < 0.0 ==> -m < r <= 0.0
    ensures 0.0 <= x < m ==> r == x
    ensures exists k: int :: x - r == Multiple(m, k)
  {
    if x >= 0.0 then NonNegRem(x, m)
    else
      var n := NonNegRem(-x, m);
      var k: int :| -x - n == Multiple(m, k);
      assert x - -n == Multiple(m, -k);
      -n
  }

  function NonNegRem(x: real, m: real): (r: real)
    requires x >= 0.0 && m > 0.0
    ensures 0.0 <= r < m
    ensures x < m ==> r == x
    ensures exists k: int :: x - r == Multiple(m, k)
  {
    var k := (x / m).Floor;
    QuotientBounds(x, m);
    if x < m then
      assert x - x == Multiple(m, 0);
      x
    else
      assert x - (x - m * k as real) == Multiple(m, k);
      x - m * k as real
  }

  /** The truncated quotient `k` of `x / m` brackets `x` between `m * k`
      and `m * (k + 1)`. */
  lemma QuotientBounds(x: real, m: real)
    requires x >= 0.0 && m > 0.0
    ensures var k := (x / m).Floor;
      k >= 0 && m * (k as real) <= x < m * (k as real) + m
  {
    var q := x / m;
    var k := q.Floor;
    assert m * q == x;
    assert q >= 0.0 by {
      if q < 0.0 {
        MulStrict(m, q, 0.0);
      }
    }
    assert (k as real) <= q < (k as real) + 1.0;
    MulMonotone(m, k as real, q);
    MulStrict(m, q, k as real + 1.0);
    assert m * (k as real + 1.0) == m * (k as real) + m;
    assert k >= 0;
    assert m * (k as real) <= x;
    assert x < m * (k as real) + m by {
      calc {
        x;
      == m * q;
      < m * (k as real + 1.0);
      == m * (k as real) + m;
      }
    }
  }

  lemma MulMonotone(m: real, a: real, b: real)
    requires m > 0.0 && a <= b
    ensures m * a <= m * b
  {
    assert m * (b - a) >= 0.0;
  }

  lemma MulStrict(m: real, a: real, b: real)
    requires m > 0.0 && a < b
    ensures m * a < m * b
  {
    assert m * (b - a) > 0.0;
  }

  /** Scaling by a factor of magnitude at most one cannot grow a magnitude. */
  lemma ScaleBounded(a: real, f: real)
    requires -1.0 <= f <= 1.0
    ensures Abs(a * f) <= Abs(a)
  {
    var m := Abs(a);
    MulNonNeg(m, 1.0 - f);
    MulNonNeg(m, 1.0 + f);
    assert m * (1.0 - f) == m - m * f;
    assert m * (1.0 + f) == m + m * f;
    assert Abs(a * f) == Abs(m * f);
  }

  lemma MulNonNeg(x: real, y: real)
    requires x >= 0.0 && y >= 0.0
    ensures x * y >= 0.0
  {
  }
}
