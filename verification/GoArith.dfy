/**
  Integer arithmetic as Go has it: division truncates toward zero and the
  remainder takes the sign of the dividend. The helpers that the score
  rewriter builds on top are proved to round the way music needs.
*/
module GoArith {

  /** Go's `a / m`, which truncates toward zero. */
  function Quo(a: int, m: int): int
    requires m > 0
  {
    if a >= 0 then a / m else -((-a) / m)
  }

  /** Go's `a % m`, which takes the sign of the dividend. */
  function Rem(a: int, m: int): int
    requires m > 0
  {
    if a >= 0 then a % m else -((-a) % m)
  }

  lemma QuoRem(a: int, m: int)
    requires m > 0
    ensures a == m * Quo(a, m) + Rem(a, m)
    ensures if a >= 0 then 0 <= Rem(a, m) < m else -m < Rem(a, m) <= 0
  {
    if a < 0 {
      assert -a == m * ((-a) / m) + (-a) % m;
      MulNegate(m, (-a) / m);
    }
  }

  lemma MulNegate(m: int, q: int)
    ensures m * -q == -(m * q)
  {
  }

  lemma MulDiffer(m: int, q: int, p: int)
    requires m > 0 && q < p
    ensures m * q + m <= m * p
  {
    assert m * (p - q) == m * p - m * q;
    assert m * (p - q) >= m * 1 by { MulMonotone(m, 1, p - q); }
  }

  lemma MulMonotone(m: int, x: int, y: int)
    requires m > 0 && x <= y
    ensures m * x <= m * y
  {
  }

  /**
    Division rounding toward negative infinity, so octaves below the reference
    come out right. It counts the steps from zero, which is all a proof needs to
    know of it; FloorDivAsWritten ties it to Go's operators.
  */
  function FloorDiv(a: int, m: int): (q: int)
    requires m > 0
    ensures m * q <= a < m * q + m
    decreases if a < 0 then m - a else a
  {
    if a < 0 then FloorDiv(a + m, m) - 1
    else if a < m then 0
    else FloorDiv(a - m, m) + 1
  }

  /** The non-negative remainder; see ModAsWritten. */
  function Mod(a: int, m: int): (r: int)
    requires m > 0
    ensures 0 <= r < m && a == m * FloorDiv(a, m) + r
  {
    a - m * FloorDiv(a, m)
  }

  lemma EuclideanUnique(a: int, m: int, q: int, r: int)
    requires m > 0 && 0 <= r < m && a == m * q + r
    ensures q == FloorDiv(a, m) && r == Mod(a, m)
  {
    var p := FloorDiv(a, m);
    if q < p {
      MulDiffer(m, q, p);
    } else if p < q {
      MulDiffer(m, p, q);
    }
  }

  lemma ModAsWritten(a: int, m: int)
    requires m > 0
    ensures Rem(Rem(a, m) + m, m) == Mod(a, m)
  {
    var t := Rem(a, m);
    QuoRem(a, m);
    if t >= 0 {
      EuclideanUnique(a, m, Quo(a, m), t);
      RemOfSum(t, m);
    } else {
      assert m * (Quo(a, m) - 1) == m * Quo(a, m) - m;
      EuclideanUnique(a, m, Quo(a, m) - 1, t + m);
      RemOfSmall(t + m, m);
    }
  }

  lemma RemOfSmall(t: int, m: int)
    requires 0 <= t < m
    ensures Rem(t, m) == t
  {
  }

  lemma RemOfSum(t: int, m: int)
    requires 0 <= t < m
    ensures Rem(t + m, m) == t
  {
    QuoRem(t + m, m);
    var q := Quo(t + m, m);
    if q < 1 {
      MulMonotone(m, q, 0);
    } else if q > 1 {
      MulMonotone(m, 2, q);
    }
  }

  lemma FloorDivAsWritten(a: int, m: int)
    requires m > 0
    ensures (if a < 0 && Rem(a, m) != 0 then Quo(a, m) - 1 else Quo(a, m)) == FloorDiv(a, m)
  {
    QuoRem(a, m);
    if a < 0 && Rem(a, m) != 0 {
      assert m * (Quo(a, m) - 1) == m * Quo(a, m) - m;
      EuclideanUnique(a, m, Quo(a, m) - 1, Rem(a, m) + m);
    } else {
      EuclideanUnique(a, m, Quo(a, m), Rem(a, m));
    }
  }

  function Abs(n: int): (r: int)
    ensures r >= 0 && (r == n || r == -n)
  {
    if n < 0 then -n else n
  }

  /** The same pitch class, written as a distance of at most half an octave from none. */
  function WrapAlt(a: int): (r: int)
    ensures -6 <= r <= 5 && a == r + 12 * FloorDiv(a + 6, 12)
  {
    var m := Mod(a, 12);
    if m > 5 then m - 12 else m
  }

  function Min(a: int, b: int): int {
    if a < b then a else b
  }

  function Max(a: int, b: int): int {
    if a < b then b else a
  }
}
