/** Cosine similarity: the accumulating loop, and what its result can be. */
module Similarity {
  import opened Vectors

  /** Zero for vectors of different lengths and for a zero vector. */
  function Cosine(sqrt: real -> real, a: Vector, b: Vector): real
    requires IsSqrt(sqrt)
  {
    if |a| != |b| || SumSquares(a) == 0.0 || SumSquares(b) == 0.0 then 0.0
    else
      NormsArePositive(sqrt, a, b);
      Over(Dot(a, b), Times(sqrt(SumSquares(a)), sqrt(SumSquares(b))))
  }

  lemma NormsArePositive(sqrt: real -> real, a: Vector, b: Vector)
    requires IsSqrt(sqrt) && SumSquares(a) != 0.0 && SumSquares(b) != 0.0
    ensures SumSquares(a) > 0.0 && SumSquares(b) > 0.0
    ensures Times(sqrt(SumSquares(a)), sqrt(SumSquares(b))) > 0.0
  {
    SumSquaresSign(a);
    SumSquaresSign(b);
    SqrtSign(sqrt, SumSquares(a));
    SqrtSign(sqrt, SumSquares(b));
    TimesPositive(sqrt(SumSquares(a)), sqrt(SumSquares(b)));
  }

  method CosineSimilarity(sqrt: real -> real, a: Vector, b: Vector) returns (r: real)
    requires IsSqrt(sqrt)
    ensures r == Cosine(sqrt, a, b)
    ensures -1.0 <= r <= 1.0
  {
    CosineIsBounded(sqrt, a, b);
    if |a| != |b| {
      return 0.0;
    }
    var dotProduct, normA, normB := 0.0, 0.0, 0.0;
    var i := 0;
    while i < |a|
      invariant 0 <= i <= |a|
      invariant dotProduct == Dot(a[..i], b[..i])
      invariant normA == SumSquares(a[..i])
      invariant normB == SumSquares(b[..i])
    {
      assert a[..i + 1][..i] == a[..i] && b[..i + 1][..i] == b[..i];
      dotProduct := dotProduct + Times(a[i], b[i]);
      normA := normA + Times(a[i], a[i]);
      normB := normB + Times(b[i], b[i]);
      i := i + 1;
    }
    assert a[..i] == a && b[..i] == b;
    if normA == 0.0 || normB == 0.0 {
      return 0.0;
    }
    NormsArePositive(sqrt, a, b);
    r := Over(dotProduct, Times(sqrt(normA), sqrt(normB)));
  }

  lemma CosineIsBounded(sqrt: real -> real, a: Vector, b: Vector)
    requires IsSqrt(sqrt)
    ensures -1.0 <= Cosine(sqrt, a, b) <= 1.0
  {
    if |a| == |b| && SumSquares(a) != 0.0 && SumSquares(b) != 0.0 {
      NormsArePositive(sqrt, a, b);
      var x, y := sqrt(SumSquares(a)), sqrt(SumSquares(b));
      CauchySchwarz(a, b);
      SqrtSign(sqrt, SumSquares(a));
      SqrtSign(sqrt, SumSquares(b));
      SquareOfTimes(x, y);
      BoundedBySquare(Dot(a, b), Times(x, y));
      QuotientIsBounded(Dot(a, b), Times(x, y));
    }
  }

  lemma QuotientIsBounded(x: real, y: real)
    requires y > 0.0 && -y <= x <= y
    ensures -1.0 <= Over(x, y) <= 1.0
  {
    var q := Over(x, y);
    if q > 1.0 {
      TimesPositive(q - 1.0, y);
      TimesDistributes(y, q - 1.0, 1.0);
    } else if q < -1.0 {
      TimesPositive(-1.0 - q, y);
      TimesDistributes(y, -1.0 - q, q);
      TimesNegates(1.0, y);
    }
  }

  lemma CosineIsSymmetric(sqrt: real -> real, a: Vector, b: Vector)
    requires IsSqrt(sqrt)
    ensures Cosine(sqrt, a, b) == Cosine(sqrt, b, a)
  {
    if |a| == |b| {
      DotIsSymmetric(a, b);
      TimesCommutes(sqrt(SumSquares(a)), sqrt(SumSquares(b)));
    }
  }

  /** The cosine is the product divided by both lengths, and zero where there is none. */
  lemma CosineMeans(sqrt: real -> real, a: Vector, b: Vector)
    requires IsSqrt(sqrt)
    ensures |a| != |b| || IsZero(a) || IsZero(b) ==> Cosine(sqrt, a, b) == 0.0
    ensures |a| == |b| ==> Times(Cosine(sqrt, a, b), Times(sqrt(SumSquares(a)), sqrt(SumSquares(b)))) == Dot(a, b)
  {
    SumSquaresSign(a);
    SumSquaresSign(b);
    if |a| == |b| && (SumSquares(a) == 0.0 || SumSquares(b) == 0.0) {
      CauchySchwarz(a, b);
      TimesZero(SumSquares(a));
      TimesZero(SumSquares(b));
      SquareSign(Dot(a, b));
      TimesZero(Times(sqrt(SumSquares(a)), sqrt(SumSquares(b))));
    } else if |a| == |b| {
      NormsArePositive(sqrt, a, b);
    }
  }

  lemma CosineOfItself(sqrt: real -> real, a: Vector)
    requires IsSqrt(sqrt) && !IsZero(a)
    ensures Cosine(sqrt, a, a) == 1.0
  {
    SumSquaresSign(a);
    SqrtSign(sqrt, SumSquares(a));
    QuotientIsUnique(1.0, SumSquares(a), SumSquares(a));
  }

  /** The length of a vector does not matter, only its direction. */
  lemma CosineIgnoresLength(sqrt: real -> real, k: real, a: Vector, b: Vector)
    requires IsSqrt(sqrt) && k > 0.0
    ensures Cosine(sqrt, Scale(k, a), b) == Cosine(sqrt, a, b)
  {
    SumSquaresScales(k, a);
    SumSquaresSign(a);
    SquareSign(k);
    TimesZero(Square(k));
    if |a| == |b| && SumSquares(a) != 0.0 && SumSquares(b) != 0.0 {
      NoZeroDivisors(Square(k), SumSquares(a));
      NormsArePositive(sqrt, a, b);
      NormsArePositive(sqrt, Scale(k, a), b);
      var x, y := sqrt(SumSquares(a)), sqrt(SumSquares(b));
      SqrtScales(sqrt, k, SumSquares(a));
      DotScales(k, a, b);
      TimesAssociates(k, x, y);
      QuotientScales(k, Dot(a, b), Times(x, y));
    }
  }

  lemma QuotientScales(k: real, x: real, y: real)
    requires y != 0.0 && Times(k, y) != 0.0
    ensures Over(Times(k, x), Times(k, y)) == Over(x, y)
  {
    var q := Over(x, y);
    TimesAssociates(q, k, y);
    TimesCommutes(q, k);
    TimesAssociates(k, q, y);
    QuotientIsUnique(q, Times(k, x), Times(k, y));
  }
}
