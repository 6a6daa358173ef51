/**
  Integer division as the arith dialect's division ops compute it on
  mathematical integers, against the exact rational quotient rounded in each of
  TCP's three rounding modes. Dafny's own `/` and `%` are Euclidean; the three
  roundings are written out from them.
*/
module IntegerDivision {
  import opened TcpOps

  /** The exact quotient rounded as `mode` says: toward negative infinity, toward positive infinity, toward zero. */
  function Rounded(mode: RoundingMode, q: real): int {
    match mode
    case Floor => q.Floor
    case Ceil => -((-q).Floor)
    case Trunc => if q >= 0.0 then q.Floor else -((-q).Floor)
  }

  /** `arith.floordivsi`. */
  function FloorDiv(x: int, y: int): int
    requires y != 0
  {
    if y > 0 || x % y == 0 then x / y else x / y - 1
  }

  /** `arith.ceildivsi` (and `arith.ceildivui` on naturals). */
  function CeilDiv(x: int, y: int): int
    requires y != 0
  {
    if y < 0 || x % y == 0 then x / y else x / y + 1
  }

  /** `arith.divsi`: the quotient truncated toward zero (and `arith.divui` on naturals). */
  function TruncDiv(x: int, y: int): int
    requires y != 0
  {
    if (x >= 0) == (y > 0) || x % y == 0 then FloorDiv(x, y) else CeilDiv(x, y)
  }

  /** An integer within one below a real is that real's floor. */
  lemma FloorUnique(k: int, r: real)
    requires k as real <= r < k as real + 1.0
    ensures r.Floor == k
  {
    var f := r.Floor;
    assert f as real <= r < f as real + 1.0;
    assert (f - k) as real < 1.0 && (k - f) as real < 1.0;
  }

  /** The bounds the Euclidean quotient and remainder put on `x / y`. */
  lemma FloorDivBounds(x: int, y: int)
    requires y != 0
    ensures y > 0 ==> y * FloorDiv(x, y) <= x < y * FloorDiv(x, y) + y
    ensures y < 0 ==> y * FloorDiv(x, y) >= x > y * FloorDiv(x, y) + y
  {
    var q, m := x / y, x % y;
    assert x == y * q + m && 0 <= m < if y > 0 then y else -y;
    if y < 0 && m != 0 {
      assert y * (q - 1) == y * q - y;
    }
  }

  lemma CastMul(a: int, b: int)
    ensures (a * b) as real == a as real * b as real
  {
  }

  lemma SignOfFactor(a: real, b: real)
    requires b > 0.0
    ensures a * b >= 0.0 ==> a >= 0.0
    ensures a * b < 0.0 ==> a < 0.0
  {
  }

  /** Where `x / y` lies relative to `k`, read off the integer products. */
  lemma QuotientBetween(x: int, y: int, k: int)
    requires y > 0 && y * k <= x < y * k + y
    ensures k as real <= x as real / y as real < k as real + 1.0
  {
    var X, Y, K := x as real, y as real, k as real;
    CastMul(y, k);
    var d := X / Y;
    assert X == d * Y;
    assert (d - K) * Y == X - Y * K;
    assert (d - K - 1.0) * Y == X - Y * K - Y;
    SignOfFactor(d - K, Y);
    SignOfFactor(d - K - 1.0, Y);
  }

  lemma FloorDivIsFloor(x: int, y: int)
    requires y != 0
    ensures FloorDiv(x, y) == Rounded(Floor, x as real / y as real)
  {
    var k := FloorDiv(x, y);
    FloorDivBounds(x, y);
    if y > 0 {
      QuotientBetween(x, y, k);
    } else {
      assert (-y) * k <= -x < (-y) * k + (-y);
      QuotientBetween(-x, -y, k);
      assert (-x) as real / (-y) as real == x as real / y as real;
    }
    FloorUnique(k, x as real / y as real);
  }

  /** A positive multiple of a positive `y` is at least `y`. */
  lemma {:induction false} PositiveMultiple(y: int, d: int)
    requires y > 0 && d > 0
    ensures y * d >= y
    decreases d
  {
    if d > 1 {
      PositiveMultiple(y, d - 1);
      assert y * d == y * (d - 1) + y;
    }
  }

  /** Euclidean division is determined by its defining equation. */
  lemma EuclideanUnique(a: int, y: int, q: int, m: int)
    requires y != 0 && a == y * q + m && 0 <= m < if y > 0 then y else -y
    ensures a / y == q && a % y == m
  {
    var q', m' := a / y, a % y;
    var d := q - q';
    assert y * d == m' - m;
    if d != 0 {
      var yy, dd := if y > 0 then y else -y, if d > 0 then d else -d;
      assert yy * dd == y * d || yy * dd == -(y * d);
      PositiveMultiple(yy, dd);
    }
  }

  lemma CeilDivIsNegatedFloorDiv(x: int, y: int)
    requires y != 0
    ensures CeilDiv(x, y) == -FloorDiv(-x, y)
  {
    var q, m := x / y, x % y;
    assert x == y * q + m;
    if m == 0 {
      EuclideanUnique(-x, y, -q, 0);
    } else if y > 0 {
      EuclideanUnique(-x, y, -q - 1, y - m);
    } else {
      EuclideanUnique(-x, y, -q + 1, -y - m);
    }
  }

  lemma CeilDivIsCeil(x: int, y: int)
    requires y != 0
    ensures CeilDiv(x, y) == Rounded(Ceil, x as real / y as real)
  {
    CeilDivIsNegatedFloorDiv(x, y);
    FloorDivIsFloor(-x, y);
    assert (-x) as real / y as real == -(x as real / y as real);
  }

  /** On an exact quotient the two directed roundings agree. */
  lemma ExactQuotient(x: int, y: int)
    requires y != 0 && x % y == 0
    ensures FloorDiv(x, y) == CeilDiv(x, y)
  {
  }

  lemma QuotientSign(x: int, y: int)
    requires y != 0
    ensures (x >= 0) == (y > 0) ==> x as real / y as real >= 0.0
    ensures (x >= 0) != (y > 0) && x != 0 ==> x as real / y as real < 0.0
  {
    var X, Y := x as real, y as real;
    var d := X / Y;
    assert X == d * Y;
    if y > 0 {
      SignOfFactor(d, Y);
    } else {
      assert -X == d * (-Y);
      SignOfFactor(d, -Y);
    }
  }

  lemma TruncDivIsTrunc(x: int, y: int)
    requires y != 0
    ensures TruncDiv(x, y) == Rounded(Trunc, x as real / y as real)
  {
    FloorDivIsFloor(x, y);
    CeilDivIsCeil(x, y);
    QuotientSign(x, y);
    if x % y == 0 {
      ExactQuotient(x, y);
    }
  }

  /** Floor and truncation agree on naturals, which is why `arith.divui` serves both modes. */
  lemma FloorIsTruncOnNaturals(x: int, y: int)
    requires x >= 0 && y > 0
    ensures TruncDiv(x, y) == FloorDiv(x, y)
    ensures Rounded(Trunc, x as real / y as real) == Rounded(Floor, x as real / y as real)
  {
    QuotientSign(x, y);
  }
}
