/** Mean pooling of chunk vectors followed by L2 normalisation. */
module Pooling {
  import opened Vectors
  import opened Similarity

  /** The entry of `v` at `k`; vectors shorter than the first add nothing beyond their end. */
  function Entry(v: Vector, k: nat): real {
    if k < |v| then v[k] else 0.0
  }

  /** Entry `k` of the first `n` vectors, added up. */
  function ColumnSum(rows: seq<Vector>, n: nat, k: nat): real
    requires n <= |rows|
  {
    if n == 0 then 0.0 else ColumnSum(rows, n - 1, k) + Entry(rows[n - 1], k)
  }

  function Sum(rows: seq<Vector>): Vector
    requires rows != []
  {
    seq(|rows[0]|, k requires 0 <= k < |rows[0]| => ColumnSum(rows, |rows|, k))
  }

  function Divide(v: Vector, d: real): (r: Vector)
    requires d != 0.0
    ensures |r| == |v| && forall k :: 0 <= k < |v| ==> r[k] == Over(v[k], d)
  {
    seq(|v|, k requires 0 <= k < |v| => Over(v[k], d))
  }

  function Normalized(sqrt: real -> real, v: Vector): Vector {
    var norm := sqrt(SumSquares(v));
    if norm > 0.0 then Divide(v, norm) else v
  }

  function MeanPool(sqrt: real -> real, rows: seq<Vector>): (r: Vector)
    requires rows != []
    ensures |r| == |rows[0]|
  {
    Normalized(sqrt, Divide(Sum(rows), |rows| as real))
  }

  /** The rows added up, at some positive scale: that of length one, if the sum is not zero. */
  method MeanPoolL2(sqrt: real -> real, rows: seq<Vector>) returns (r: Vector)
    requires rows != []
    ensures r == MeanPool(sqrt, rows)
    ensures IsSqrt(sqrt) ==> exists c :: c > 0.0 && r == Scale(c, Sum(rows))
    ensures IsSqrt(sqrt) ==> if IsZero(Sum(rows)) then IsZero(r) else SumSquares(r) == 1.0
  {
    if IsSqrt(sqrt) {
      PooledIsUnitOrZero(sqrt, rows);
      ghost var c := PoolingScales(sqrt, rows);
    }
    var dim := |rows[0]|;
    var pooled := new real[dim](_ => 0.0);
    for i := 0 to |rows|
      invariant forall k :: 0 <= k < dim ==> pooled[k] == ColumnSum(rows, i, k)
    {
      var v := rows[i];
      for j := 0 to if |v| < dim then |v| else dim
        invariant forall k :: 0 <= k < j ==> pooled[k] == ColumnSum(rows, i + 1, k)
        invariant forall k :: j <= k < dim ==> pooled[k] == ColumnSum(rows, i, k)
      {
        pooled[j] := pooled[j] + v[j];
      }
    }
    assert pooled[..] == Sum(rows);
    DivideInPlace(pooled, |rows| as real);
    var norm := sqrt(SumSquares(pooled[..]));
    if norm > 0.0 {
      DivideInPlace(pooled, norm);
    }
    r := pooled[..];
  }

  method DivideInPlace(a: array<real>, d: real)
    requires d != 0.0
    modifies a
    ensures a[..] == Divide(old(a[..]), d)
  {
    for k := 0 to a.Length
      invariant forall j :: 0 <= j < k ==> a[j] == Over(old(a[j]), d)
      invariant forall j :: k <= j < a.Length ==> a[j] == old(a[j])
    {
      a[k] := Over(a[k], d);
    }
  }

  // ---------- what pooling yields ----------

  lemma DivideIsScale(v: Vector, d: real)
    requires d > 0.0
    ensures Over(1.0, d) > 0.0
    ensures Divide(v, d) == Scale(Over(1.0, d), v)
  {
    var k := Over(1.0, d);
    if k <= 0.0 {
      TimesNonNegative(-k, d);
      TimesNegates(k, d);
    }
    forall i | 0 <= i < |v| ensures Over(v[i], d) == Times(k, v[i]) {
      TimesAssociates(v[i], k, d);
      TimesCommutes(v[i], k);
      QuotientIsUnique(Times(k, v[i]), v[i], d);
    }
  }

  /** The pooled vector has length one, unless the chunk vectors cancel out; then it is zero. */
  lemma PooledIsUnitOrZero(sqrt: real -> real, rows: seq<Vector>)
    requires IsSqrt(sqrt) && rows != []
    ensures !IsZero(Sum(rows)) ==> SumSquares(MeanPool(sqrt, rows)) == 1.0
    ensures IsZero(Sum(rows)) ==> IsZero(MeanPool(sqrt, rows))
  {
    var n := |rows| as real;
    var mean := Divide(Sum(rows), n);
    DivideIsScale(Sum(rows), n);
    ScaleKeepsZero(Over(1.0, n), Sum(rows));
    SumSquaresSign(mean);
    SqrtSign(sqrt, SumSquares(mean));
    if !IsZero(Sum(rows)) {
      NormalizedIsUnit(sqrt, mean);
    }
  }

  lemma ScaleKeepsZero(k: real, v: Vector)
    requires k > 0.0
    ensures IsZero(Scale(k, v)) <==> IsZero(v)
  {
    TimesZero(k);
    forall i | 0 <= i < |v| && v[i] != 0.0 ensures Scale(k, v)[i] != 0.0 { NoZeroDivisors(k, v[i]); }
  }

  lemma NormalizedIsUnit(sqrt: real -> real, v: Vector)
    requires IsSqrt(sqrt) && SumSquares(v) > 0.0
    ensures SumSquares(Normalized(sqrt, v)) == 1.0
  {
    var s := SumSquares(v);
    SqrtSign(sqrt, s);
    var norm := sqrt(s);
    var k := Over(1.0, norm);
    DivideIsScale(v, norm);
    SumSquaresScales(k, v);
    SquareOfTimes(k, norm);
    SquareSign(1.0);
  }

  /** Neither the averaging nor the normalisation turns the vector: it compares like the plain sum. */
  lemma PoolingKeepsDirection(sqrt: real -> real, rows: seq<Vector>, query: Vector)
    requires IsSqrt(sqrt) && rows != []
    ensures Cosine(sqrt, MeanPool(sqrt, rows), query) == Cosine(sqrt, Sum(rows), query)
  {
    var n := |rows| as real;
    var mean := Divide(Sum(rows), n);
    DivideIsScale(Sum(rows), n);
    CosineIgnoresLength(sqrt, Over(1.0, n), Sum(rows), query);
    var norm := sqrt(SumSquares(mean));
    if norm > 0.0 {
      DivideIsScale(mean, norm);
      CosineIgnoresLength(sqrt, Over(1.0, norm), mean, query);
    }
  }

  // ---------- what is added up ----------

  /** One vector adds up to itself, and each further one is added entry by entry. */
  lemma SumGrows(rows: seq<Vector>, v: Vector)
    ensures Sum([v]) == v
    ensures rows != [] ==>
      && |Sum(rows + [v])| == |Sum(rows)| == |rows[0]|
      && forall k :: 0 <= k < |rows[0]| ==> Sum(rows + [v])[k] == Sum(rows)[k] + if k < |v| then v[k] else 0.0
  {
    assert forall k :: 0 <= k < |v| ==> ColumnSum([v], 0, k) == 0.0;
    assert forall k :: 0 <= k < |v| ==> ColumnSum([v], 1, k) == v[k];
    if rows != [] {
      var n := |rows|;
      forall k | 0 <= k < |rows[0]| ensures Sum(rows + [v])[k] == Sum(rows)[k] + if k < |v| then v[k] else 0.0 {
        ColumnOfFirst(rows, v, n, k);
      }
    }
  }

  lemma {:induction false} ColumnOfFirst(rows: seq<Vector>, v: Vector, n: nat, k: nat)
    requires n <= |rows|
    ensures ColumnSum(rows + [v], n, k) == ColumnSum(rows, n, k)
  {
    if n > 0 { ColumnOfFirst(rows, v, n - 1, k); }
  }

  predicate AllOfLength(rows: seq<Vector>, d: nat) {
    forall i :: 0 <= i < |rows| ==> |rows[i]| == d
  }

  /** The products of the single vectors with `query`, added up. */
  function TotalDot(rows: seq<Vector>, query: Vector): real
    requires AllOfLength(rows, |query|)
  {
    if rows == [] then 0.0 else TotalDot(rows[..|rows| - 1], query) + Dot(rows[|rows| - 1], query)
  }

  lemma {:induction false} DotAdds(a: Vector, b: Vector, sum: Vector, query: Vector)
    requires |a| == |b| == |sum| == |query| && forall k :: 0 <= k < |a| ==> sum[k] == a[k] + b[k]
    ensures Dot(sum, query) == Dot(a, query) + Dot(b, query)
    decreases |a|
  {
    if a != [] {
      var n := |a| - 1;
      DotAdds(a[..n], b[..n], sum[..n], query[..n]);
      TimesDistributes(query[n], a[n], b[n]);
    }
  }

  lemma {:induction false} SumIsLinear(rows: seq<Vector>, query: Vector)
    requires rows != [] && AllOfLength(rows, |query|)
    ensures |Sum(rows)| == |query| && Dot(Sum(rows), query) == TotalDot(rows, query)
    decreases |rows|
  {
    var n := |rows| - 1;
    var v := rows[n];
    assert rows == rows[..n] + [v];
    SumGrows(rows[..n], v);
    if n == 0 {
      assert rows == [v];
      assert TotalDot(rows[..0], query) == 0.0;
    } else {
      SumIsLinear(rows[..n], query);
      DotAdds(Sum(rows[..n]), v, Sum(rows), query);
    }
  }

  /** Pooling is one positive multiple of the plain sum. */
  lemma PoolingScales(sqrt: real -> real, rows: seq<Vector>) returns (c: real)
    requires IsSqrt(sqrt) && rows != []
    ensures c > 0.0 && MeanPool(sqrt, rows) == Scale(c, Sum(rows))
  {
    var n := |rows| as real;
    DivideIsScale(Sum(rows), n);
    c := Over(1.0, n);
    var mean := Divide(Sum(rows), n);
    var norm := sqrt(SumSquares(mean));
    if norm > 0.0 {
      DivideIsScale(mean, norm);
      var e := Over(1.0, norm);
      TimesPositive(e, c);
      forall k | 0 <= k < |mean| ensures Times(e, Times(c, Sum(rows)[k])) == Times(Times(e, c), Sum(rows)[k]) {
        TimesAssociates(e, c, Sum(rows)[k]);
      }
      assert Scale(e, mean) == Scale(Times(e, c), Sum(rows));
      c := Times(e, c);
    }
  }

  /** The pooled vector lies on the side of a query on which the chunk vectors lie together. */
  lemma PoolingTakesSides(sqrt: real -> real, rows: seq<Vector>, query: Vector)
    requires IsSqrt(sqrt) && rows != [] && AllOfLength(rows, |query|)
    ensures Dot(MeanPool(sqrt, rows), query) > 0.0 <==> TotalDot(rows, query) > 0.0
    ensures Dot(MeanPool(sqrt, rows), query) < 0.0 <==> TotalDot(rows, query) < 0.0
  {
    var c := PoolingScales(sqrt, rows);
    SumIsLinear(rows, query);
    DotScales(c, Sum(rows), query);
    var x := TotalDot(rows, query);
    TimesZero(c);
    TimesNegates(c, x);
    if x > 0.0 { TimesPositive(c, x); }
    if x < 0.0 { TimesPositive(c, -x); }
  }

  function Copies(v: Vector, n: nat): (r: seq<Vector>)
    ensures |r| == n && forall i :: 0 <= i < n ==> r[i] == v
  {
    seq(n, _ => v)
  }

  lemma {:induction false} CopiesAddUp(v: Vector, n: nat)
    requires n > 0
    ensures Sum(Copies(v, n)) == Scale(n as real, v)
  {
    var rows := Copies(v, n);
    if n == 1 {
      SumGrows([], v);
      assert rows == [v];
      assert forall k :: 0 <= k < |v| ==> Times(1.0, v[k]) == v[k];
    } else {
      CopiesAddUp(v, n - 1);
      assert rows == Copies(v, n - 1) + [v];
      SumGrows(Copies(v, n - 1), v);
      forall k | 0 <= k < |v| ensures Times((n - 1) as real, v[k]) + v[k] == Times(n as real, v[k]) {
        TimesDistributes(v[k], (n - 1) as real, 1.0);
      }
    }
  }

  /** A text whose chunks all got the same vector points where that vector points. */
  lemma PoolingCopies(sqrt: real -> real, v: Vector, n: nat)
    requires IsSqrt(sqrt) && n > 0 && !IsZero(v)
    ensures Cosine(sqrt, MeanPool(sqrt, Copies(v, n)), v) == 1.0
  {
    PoolingKeepsDirection(sqrt, Copies(v, n), v);
    CopiesAddUp(v, n);
    CosineIgnoresLength(sqrt, n as real, v, v);
    CosineOfItself(sqrt, v);
  }
}
