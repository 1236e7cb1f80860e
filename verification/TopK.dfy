/**
 Taking the best few: a partial selection, a truncation and a sort. It yields the same scores as
 sorting everything first, and drops nothing better than what it keeps.
 */
module TopK {
  import opened Sequences

  predicate Descends(s: seq<real>) {
    forall i, j :: 0 <= i < j < |s| ==> s[i] >= s[j]
  }

  /** All scores in descending order. */
  function SortedDown(s: seq<real>): seq<real> {
    if s == [] then [] else Insert(s[0], SortedDown(s[1..]))
  }

  function Insert(x: real, s: seq<real>): seq<real> {
    if s == [] || x >= s[0] then [x] + s else [s[0]] + Insert(x, s[1..])
  }

  function Take<T>(s: seq<T>, n: nat): seq<T> {
    if |s| <= n then s else s[..n]
  }

  lemma MapTake<T, U>(f: T -> U, s: seq<T>, n: nat)
    ensures Map(f, Take(s, n)) == Take(Map(f, s), n)
  {
  }

  // ---------- the library's unstable algorithms ----------

  /** Any selection and any sort with the guarantees the library documents. */
  datatype Sorting<!T> = Sorting(select: (seq<T>, nat) -> seq<T>, sort: seq<T> -> seq<T>)

  /** The element at `n` is in its final place; what comes before is no worse, what follows no better. */
  predicate Selects<T(==)>(score: T -> real, before: seq<T>, after: seq<T>, n: nat) {
    && n < |before| == |after| && multiset(after) == multiset(before)
    && (forall i :: 0 <= i < n ==> score(after[i]) >= score(after[n]))
    && (forall i :: n < i < |after| ==> score(after[n]) >= score(after[i]))
  }

  predicate Sorts<T(==)>(score: T -> real, before: seq<T>, after: seq<T>) {
    multiset(after) == multiset(before) && Descends(Map(score, after))
  }

  ghost predicate IsSorting<T(!new)>(s: Sorting<T>, score: T -> real) {
    && (forall a, n: nat :: n < |a| ==> Selects(score, a, s.select(a, n), n))
    && (forall a :: Sorts(score, a, s.sort(a)))
  }

  // ---------- the best few ----------

  /** What is kept is in order, and together with what was dropped it is all there was. */
  ghost predicate KeepsBest<T>(score: T -> real, all: seq<T>, kept: seq<T>, dropped: seq<T>, limit: nat) {
    && |kept| == (if |all| <= limit then |all| else limit)
    && multiset(kept + dropped) == multiset(all)
    && Descends(Map(score, kept))
    && forall i, j :: 0 <= i < |kept| && 0 <= j < |dropped| ==> score(kept[i]) >= score(dropped[j])
  }

  method SelectTop<T(!new)>(s: Sorting<T>, score: T -> real, all: seq<T>, limit: nat)
    returns (kept: seq<T>, ghost dropped: seq<T>)
    requires IsSorting(s, score)
    ensures KeepsBest(score, all, kept, dropped, limit)
    ensures Map(score, kept) == Take(SortedDown(Map(score, all)), limit)
  {
    kept, dropped := all, [];
    if |all| > limit {
      kept := s.select(all, limit);
      assert Selects(score, all, kept, limit);
      assert kept == kept[..limit] + kept[limit..];
      dropped := kept[limit..];
      kept := kept[..limit];
    }
    ghost var chosen := kept;
    kept := s.sort(kept);
    assert Sorts(score, chosen, kept);
    SortedChoiceIsBest(score, all, chosen, kept, dropped, limit);
    BestScoresAreUnique(score, all, kept, dropped, limit);
  }

  lemma SortedChoiceIsBest<T>(score: T -> real, all: seq<T>, chosen: seq<T>, kept: seq<T>, dropped: seq<T>, limit: nat)
    requires multiset(chosen + dropped) == multiset(all)
    requires |chosen| == if |all| <= limit then |all| else limit
    requires forall i, j :: 0 <= i < |chosen| && 0 <= j < |dropped| ==> score(chosen[i]) >= score(dropped[j])
    requires Sorts(score, chosen, kept)
    ensures KeepsBest(score, all, kept, dropped, limit)
  {
    SameLength(chosen, kept);
    assert multiset(kept + dropped) == multiset(kept) + multiset(dropped);
    assert multiset(chosen + dropped) == multiset(chosen) + multiset(dropped);
    forall i, j | 0 <= i < |kept| && 0 <= j < |dropped| ensures score(kept[i]) >= score(dropped[j]) {
      assert kept[i] in multiset(chosen);
      var k :| 0 <= k < |chosen| && chosen[k] == kept[i];
    }
  }

  // ---------- uniqueness of the scores ----------

  lemma DescendsConcat(a: seq<real>, b: seq<real>)
    requires Descends(a) && Descends(b)
    requires a != [] && b != [] ==> a[|a| - 1] >= b[0]
    ensures Descends(a + b)
  {
    forall i, j | 0 <= i < |a| && 0 <= j < |b| ensures a[i] >= b[j] {
      assert i < |a| - 1 ==> a[i] >= a[|a| - 1];
      assert 0 < j ==> b[0] >= b[j];
    }
  }

  lemma {:induction false} InsertSorts(x: real, s: seq<real>)
    requires Descends(s)
    ensures Descends(Insert(x, s)) && multiset(Insert(x, s)) == multiset(s) + multiset{x}
    ensures Insert(x, s)[0] == if s == [] || x >= s[0] then x else s[0]
    decreases |s|
  {
    if s == [] || x >= s[0] {
      DescendsConcat([x], s);
    } else {
      InsertSorts(x, s[1..]);
      assert s == [s[0]] + s[1..];
      DescendsConcat([s[0]], Insert(x, s[1..]));
    }
  }

  lemma {:induction false} SortedDownSorts(s: seq<real>)
    ensures Descends(SortedDown(s)) && multiset(SortedDown(s)) == multiset(s)
    decreases |s|
  {
    if s != [] {
      SortedDownSorts(s[1..]);
      InsertSorts(s[0], SortedDown(s[1..]));
      assert s == [s[0]] + s[1..];
    }
  }

  lemma {:induction false} SortedIsUnique(a: seq<real>, b: seq<real>)
    requires Descends(a) && Descends(b) && multiset(a) == multiset(b)
    ensures a == b
    decreases |a|
  {
    SameLength(a, b);
    if a != [] {
      assert a == [a[0]] + a[1..] && b == [b[0]] + b[1..];
      assert a[0] in multiset(b) && b[0] in multiset(a);
      assert a[0] == b[0];
      WithoutFirst(a);
      WithoutFirst(b);
      SortedIsUnique(a[1..], b[1..]);
    }
  }

  lemma WithoutFirst(s: seq<real>)
    requires s != [] && Descends(s)
    ensures multiset(s[1..]) == multiset(s) - multiset{s[0]} && Descends(s[1..])
  {
    assert s == [s[0]] + s[1..];
  }

  lemma FirstOf(s: seq<real>) returns (j: nat)
    requires s != []
    ensures SortedDown(s) != [] && j < |s| && s[j] == SortedDown(s)[0]
  {
    SortedDownSorts(s);
    SameLength(SortedDown(s), s);
    assert SortedDown(s)[0] in multiset(s);
    j :| 0 <= j < |s| && s[j] == SortedDown(s)[0];
  }

  /** Whatever is kept among equals, the scores are the first ones of the full ranking. */
  lemma BestScoresAreUnique<T>(score: T -> real, all: seq<T>, kept: seq<T>, dropped: seq<T>, limit: nat)
    requires KeepsBest(score, all, kept, dropped, limit)
    ensures Map(score, kept) == Take(SortedDown(Map(score, all)), limit)
  {
    MapPermutes(score, kept + dropped, all);
    assert Map(score, kept + dropped) == Map(score, kept) + Map(score, dropped);
    SameLength(kept + dropped, all);
    TopComesFirst(Map(score, kept), Map(score, dropped), Map(score, all));
  }

  lemma TopComesFirst(top: seq<real>, rest: seq<real>, all: seq<real>)
    requires multiset(top + rest) == multiset(all) && Descends(top)
    requires forall i, j :: 0 <= i < |top| && 0 <= j < |rest| ==> top[i] >= rest[j]
    ensures SortedDown(all) == top + SortedDown(rest)
  {
    SortedDownSorts(rest);
    SortedDownSorts(all);
    if rest != [] {
      var j := FirstOf(rest);
    }
    DescendsConcat(top, SortedDown(rest));
    assert multiset(top + SortedDown(rest)) == multiset(top) + multiset(rest) == multiset(top + rest);
    SortedIsUnique(top + SortedDown(rest), SortedDown(all));
  }

  /** The order in which the candidates come makes no difference to the scores. */
  lemma RankingIgnoresOrder(a: seq<real>, b: seq<real>)
    requires multiset(a) == multiset(b)
    ensures SortedDown(a) == SortedDown(b)
  {
    SortedDownSorts(a);
    SortedDownSorts(b);
    SortedIsUnique(SortedDown(a), SortedDown(b));
  }
}
