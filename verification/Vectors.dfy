/** Vectors of reals, with an exact square root given as a function. */
module Vectors {
  type Vector = seq<real>

  /** The product, under a name of its own so that proofs need not look inside it. */
  function Times(x: real, y: real): real { x * y }

  function Square(x: real): real { Times(x, x) }

  function Over(x: real, y: real): (q: real)
    requires y != 0.0
    ensures Times(q, y) == x
  {
    x / y
  }

  /** Products summed from the front, as an accumulating loop adds them. */
  function Dot(a: Vector, b: Vector): real
    requires |a| == |b|
  {
    if a == [] then 0.0
    else
      var n := |a| - 1;
      Dot(a[..n], b[..n]) + Times(a[n], b[n])
  }

  function SumSquares(v: Vector): real { Dot(v, v) }

  function Scale(k: real, v: Vector): (r: Vector)
    ensures |r| == |v| && forall i :: 0 <= i < |v| ==> r[i] == Times(k, v[i])
  {
    seq(|v|, i requires 0 <= i < |v| => Times(k, v[i]))
  }

  predicate IsZero(v: Vector) {
    forall i :: 0 <= i < |v| ==> v[i] == 0.0
  }

  ghost predicate IsSqrt(sqrt: real -> real) {
    forall x :: x >= 0.0 ==> sqrt(x) >= 0.0 && Square(sqrt(x)) == x
  }

  // ---------- arithmetic ----------

  lemma TimesCommutes(x: real, y: real)
    ensures Times(x, y) == Times(y, x)
  {
  }

  lemma TimesAssociates(x: real, y: real, z: real)
    ensures Times(Times(x, y), z) == Times(x, Times(y, z))
  {
  }

  lemma TimesDistributes(k: real, x: real, y: real)
    ensures Times(k, x + y) == Times(k, x) + Times(k, y)
    ensures Times(x + y, k) == Times(x, k) + Times(y, k)
  {
  }

  lemma TimesPositive(x: real, y: real)
    requires x > 0.0 && y > 0.0
    ensures Times(x, y) > 0.0
  {
  }

  lemma TimesNonNegative(x: real, y: real)
    requires x >= 0.0 && y >= 0.0
    ensures Times(x, y) >= 0.0
  {
  }

  lemma TimesZero(x: real)
    ensures Times(x, 0.0) == 0.0 && Times(0.0, x) == 0.0
  {
  }

  lemma TimesOrder(k: real, x: real, y: real)
    requires k >= 0.0 && x <= y
    ensures Times(k, x) <= Times(k, y)
  {
    TimesNonNegative(k, y - x);
    TimesDistributes(k, x, y - x);
  }

  lemma SquareSign(x: real)
    ensures Square(-x) == Square(x) >= 0.0
    ensures x != 0.0 ==> Square(x) > 0.0
    ensures x == 0.0 ==> Square(x) == 0.0
  {
    if x > 0.0 {
      TimesPositive(x, x);
    } else if x < 0.0 {
      TimesPositive(-x, -x);
    } else {
      TimesZero(x);
    }
  }

  lemma SquareOfSum(x: real, y: real)
    ensures Square(x + y) == Square(x) + Times(x, y) + Times(x, y) + Square(y)
    ensures Square(x - y) == Square(x) - Times(x, y) - Times(x, y) + Square(y)
  {
  }

  lemma SquareOfTimes(x: real, y: real)
    ensures Square(Times(x, y)) == Times(Square(x), Square(y))
  {
    TimesAssociates(x, y, Times(x, y));
    TimesAssociates(y, x, y);
    TimesCommutes(x, y);
    TimesAssociates(x, y, y);
    TimesAssociates(x, x, Square(y));
  }

  /** Squares keep the order of non-negative numbers, strictly. */
  lemma SquareOrder(x: real, y: real)
    requires 0.0 <= x < y
    ensures Square(x) < Square(y)
  {
    TimesPositive(y - x, y - x);
    TimesNonNegative(x, y - x);
    SquareOfSum(x, y - x);
    assert x + (y - x) == y;
  }

  /** A number whose square is at most the square of `m` lies between `-m` and `m`. */
  lemma BoundedBySquare(x: real, m: real)
    requires m >= 0.0 && Square(x) <= Square(m)
    ensures -m <= x <= m
  {
    SquareSign(x);
    if x > m {
      SquareOrder(m, x);
    } else if x < -m {
      SquareOrder(m, -x);
    }
  }

  lemma RootsAreEqual(x: real, y: real)
    requires x >= 0.0 && y >= 0.0 && Square(x) == Square(y)
    ensures x == y
  {
    BoundedBySquare(x, y);
    BoundedBySquare(y, x);
  }

  /** The geometric mean is at most the arithmetic mean. */
  lemma MeansInequality(r: real, p: real, q: real)
    requires p >= 0.0 && q >= 0.0 && Square(r) <= Times(p, q)
    ensures r + r <= p + q
  {
    SquareSign(p - q);
    SquareOfSum(p, q);
    SquareOfSum(r, r);
    BoundedBySquare(r + r, p + q);
  }

  lemma QuotientIsUnique(q: real, x: real, y: real)
    requires y != 0.0 && Times(q, y) == x
    ensures q == Over(x, y)
  {
    TimesDistributes(y, q, -Over(x, y));
    var d := q - Over(x, y);
    assert Times(d, y) == 0.0 by {
      TimesDistributes(y, q, -Over(x, y));
      TimesNegates(Over(x, y), y);
    }
    if d != 0.0 {
      NoZeroDivisors(d, y);
    }
  }

  lemma TimesNegates(x: real, y: real)
    ensures Times(-x, y) == -Times(x, y) == Times(x, -y)
  {
  }

  lemma NoZeroDivisors(x: real, y: real)
    requires x != 0.0 && y != 0.0
    ensures Times(x, y) != 0.0
  {
    TimesNegates(x, y);
    TimesNegates(-x, y);
    TimesPositive(if x > 0.0 then x else -x, if y > 0.0 then y else -y);
  }

  lemma OverSign(x: real, y: real)
    requires y > 0.0
    ensures x >= 0.0 ==> Over(x, y) >= 0.0
    ensures x > 0.0 ==> Over(x, y) > 0.0
    ensures x == 0.0 ==> Over(x, y) == 0.0
  {
    var q := Over(x, y);
    TimesNegates(q, y);
    TimesZero(y);
    if q < 0.0 { TimesPositive(-q, y); }
    if q > 0.0 { TimesPositive(q, y); }
  }

  // ---------- products ----------

  lemma {:induction false} DotIsSymmetric(a: Vector, b: Vector)
    requires |a| == |b|
    ensures Dot(a, b) == Dot(b, a)
    decreases |a|
  {
    if a != [] {
      var n := |a| - 1;
      DotIsSymmetric(a[..n], b[..n]);
      TimesCommutes(a[n], b[n]);
    }
  }

  lemma {:induction false} DotScales(k: real, a: Vector, b: Vector)
    requires |a| == |b|
    ensures Dot(Scale(k, a), b) == Times(k, Dot(a, b))
    decreases |a|
  {
    if a == [] {
      TimesZero(k);
    } else {
      var n := |a| - 1;
      assert Scale(k, a)[..n] == Scale(k, a[..n]);
      DotScales(k, a[..n], b[..n]);
      TimesAssociates(k, a[n], b[n]);
      TimesDistributes(k, Dot(a[..n], b[..n]), Times(a[n], b[n]));
    }
  }

  lemma SumSquaresScales(k: real, a: Vector)
    ensures SumSquares(Scale(k, a)) == Times(Square(k), SumSquares(a))
  {
    DotScales(k, a, Scale(k, a));
    DotIsSymmetric(a, Scale(k, a));
    DotScales(k, a, a);
    TimesAssociates(k, k, SumSquares(a));
  }

  lemma {:induction false} SumSquaresSign(a: Vector)
    ensures SumSquares(a) >= 0.0
    ensures SumSquares(a) == 0.0 <==> IsZero(a)
    decreases |a|
  {
    if a != [] {
      var n := |a| - 1;
      SumSquaresSign(a[..n]);
      SquareSign(a[n]);
      assert IsZero(a) <==> IsZero(a[..n]) && a[n] == 0.0;
    }
  }

  /** The Cauchy-Schwarz inequality, one coordinate at a time. */
  lemma {:induction false} CauchySchwarz(a: Vector, b: Vector)
    requires |a| == |b|
    ensures Square(Dot(a, b)) <= Times(SumSquares(a), SumSquares(b))
    decreases |a|
  {
    if a != [] {
      var n := |a| - 1;
      CauchySchwarz(a[..n], b[..n]);
      SumSquaresSign(a[..n]);
      SumSquaresSign(b[..n]);
      OneMoreTerm(Dot(a[..n], b[..n]), SumSquares(a[..n]), SumSquares(b[..n]), a[n], b[n]);
    }
  }

  lemma OneMoreTerm(d: real, p: real, q: real, x: real, y: real)
    requires p >= 0.0 && q >= 0.0 && Square(d) <= Times(p, q)
    ensures Square(d + Times(x, y)) <= Times(p + Square(x), q + Square(y))
  {
    var xx, yy, xy := Square(x), Square(y), Times(x, y);
    SquareSign(x);
    SquareSign(y);
    CrossTerm(d, p, q, x, y);
    SquareOfSum(d, xy);
    SquareOfTimes(x, y);
    TimesDistributes(p + xx, q, yy);
    TimesDistributes(q, p, xx);
    TimesDistributes(yy, p, xx);
    TimesCommutes(xx, q);
  }

  lemma CrossTerm(d: real, p: real, q: real, x: real, y: real)
    requires p >= 0.0 && q >= 0.0 && Square(d) <= Times(p, q)
    ensures 2.0 * Times(d, Times(x, y)) <= Times(p, Square(y)) + Times(q, Square(x))
  {
    var xx, yy, r := Square(x), Square(y), Times(d, Times(x, y));
    SquareSign(x);
    SquareSign(y);
    TimesNonNegative(p, yy);
    TimesNonNegative(q, xx);
    TimesNonNegative(xx, yy);
    SquareOfTimes(d, Times(x, y));
    SquareOfTimes(x, y);
    TimesOrder(Times(xx, yy), Square(d), Times(p, q));
    TimesCommutes(Times(xx, yy), Square(d));
    assert Times(Times(xx, yy), Times(p, q)) == Times(Times(p, yy), Times(q, xx)) by { Regroup(p, q, xx, yy); }
    MeansInequality(r, Times(p, yy), Times(q, xx));
  }

  lemma Regroup(p: real, q: real, u: real, v: real)
    ensures Times(Times(u, v), Times(p, q)) == Times(Times(p, v), Times(q, u))
  {
    TimesAssociates(u, v, Times(p, q));
    TimesAssociates(v, p, q);
    TimesCommutes(v, p);
    TimesAssociates(u, Times(p, v), q);
    TimesCommutes(u, Times(p, v));
    TimesAssociates(Times(p, v), u, q);
    TimesCommutes(u, q);
    TimesAssociates(Times(p, v), q, u);
  }

  // ---------- roots ----------

  lemma SqrtSign(sqrt: real -> real, x: real)
    requires IsSqrt(sqrt) && x >= 0.0
    ensures sqrt(x) >= 0.0 && Square(sqrt(x)) == x
    ensures sqrt(x) == 0.0 <==> x == 0.0
  {
    SquareSign(sqrt(x));
  }

  lemma SqrtScales(sqrt: real -> real, k: real, x: real)
    requires IsSqrt(sqrt) && k >= 0.0 && x >= 0.0
    ensures sqrt(Times(Square(k), x)) == Times(k, sqrt(x))
  {
    SquareSign(k);
    TimesNonNegative(Square(k), x);
    SqrtSign(sqrt, x);
    SquareOfTimes(k, sqrt(x));
    TimesNonNegative(k, sqrt(x));
    RootsAreEqual(sqrt(Times(Square(k), x)), Times(k, sqrt(x)));
  }
}
