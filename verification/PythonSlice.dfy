/**
 What the Python twin loses because it takes the first few identifiers before it drops those without
 content: exactly when, for dense results as they come; and that a query text never makes it worse.
 */
module PythonSlice {
  import opened Wrappers
  import opened Vectors
  import opened Sequences
  import opened TopK
  import opened Tokens
  import opened Bm25
  import opened Lexical
  import opened Search
  import opened Retrieval
  import opened PythonSearch

  // ---------- counting what has content ----------

  function WithContent(ids: seq<FactId>, content: map<FactId, string>): nat {
    if ids == [] then 0
    else WithContent(ids[..|ids| - 1], content) + if ids[|ids| - 1] in content then 1 else 0
  }

  lemma {:induction false} WithContentConcat(a: seq<FactId>, b: seq<FactId>, content: map<FactId, string>)
    ensures WithContent(a + b, content) == WithContent(a, content) + WithContent(b, content)
    decreases |b|
  {
    if b == [] {
      assert a + b == a;
    } else {
      assert (a + b)[..|a + b| - 1] == a + b[..|b| - 1];
      WithContentConcat(a, b[..|b| - 1], content);
    }
  }

  lemma {:induction false} WithContentBounds(ids: seq<FactId>, content: map<FactId, string>)
    ensures WithContent(ids, content) <= |ids|
    ensures WithContent(ids, content) == |ids| <==> AllHaveContent(ids, content)
    ensures WithContent(ids, content) > 0 <==> exists id :: id in ids && id in content
    decreases |ids|
  {
    if ids != [] {
      var last := |ids| - 1;
      assert ids == ids[..last] + [ids[last]];
      WithContentBounds(ids[..last], content);
    }
  }

  lemma {:induction false} BuiltLength(ids: seq<FactId>, rows: map<FactId, DriverRow>, content: map<FactId, string>,
                                       sims: map<FactId, real>, rank: map<FactId, real>)
    ensures |Built(ids, rows, content, sims, rank)| == WithContent(ids, content)
    decreases |ids|
  {
    if ids != [] { BuiltLength(ids[..|ids| - 1], rows, content, sims, rank); }
  }

  /**
   The slice is taken before candidates without content are dropped. The answer is therefore shorter
   than it could be exactly if the slice has such a candidate and something with content comes after it.
   */
  lemma SliceComesFirst(order: seq<FactId>, limit: nat, rows: map<FactId, DriverRow>, content: map<FactId, string>,
                        sims: map<FactId, real>, rank: map<FactId, real>)
    ensures var available := WithContent(order, content);
      |Built(Take(order, limit), rows, content, sims, rank)| < (if available <= limit then available else limit)
      <==> |order| > limit && !AllHaveContent(order[..limit], content) && exists id :: id in order[limit..] && id in content
  {
    BuiltLength(Take(order, limit), rows, content, sims, rank);
    if |order| > limit {
      assert order == order[..limit] + order[limit..];
      WithContentConcat(order[..limit], order[limit..], content);
      WithContentBounds(order[..limit], content);
      WithContentBounds(order[limit..], content);
    }
  }

  /** The answer is as long as the limit and the candidates with content allow. */
  predicate IsFull(order: seq<FactId>, limit: nat, content: map<FactId, string>) {
    var available := WithContent(order, content);
    WithContent(Take(order, limit), content) == if available <= limit then available else limit
  }

  /** Without a query text the dense order is kept, so that the dense results alone decide. */
  lemma ShortWithoutText(cfg: Config, similar: seq<Dense>, limit: nat, rows: map<FactId, DriverRow>,
                         r: seq<Ranked>, order: seq<FactId>)
    requires IsSearch(cfg, similar, limit, "", rows, r, order)
    ensures var ids, content := DenseIds(similar), ContentMap(rows); var available := WithContent(ids, content);
      |r| < (if available <= limit then available else limit)
      <==> |ids| > limit && !AllHaveContent(ids[..limit], content) && exists id :: id in ids[limit..] && id in content
  {
    var ids, sims, content := DenseIds(similar), SimilarityMap(similar), ContentMap(rows);
    SliceComesFirst(ids, limit, rows, content, sims, PythonRank(cfg, ids, sims, "", content));
  }

  // ---------- with a query text ----------

  /** Dense results as the first stage hands them on. */
  predicate AreDense(similar: seq<Dense>) {
    Distinct(DenseIds(similar)) && forall i, j :: 0 <= i < j < |similar| ==> similar[i].score >= similar[j].score
  }

  /** Some `x` stands before some `y`. */
  predicate Precedes(s: seq<FactId>, x: FactId, y: FactId) {
    exists i, j :: 0 <= i < j < |s| && s[i] == x && s[j] == y
  }

  lemma PrecedesOnce(s: seq<FactId>, x: FactId, y: FactId)
    requires Distinct(s) && Precedes(s, x, y)
    ensures !Precedes(s, y, x)
  {
  }

  lemma PrecedesInLonger(s: seq<FactId>, more: FactId, x: FactId, y: FactId)
    ensures Precedes(s, x, y) ==> Precedes(s + [more], x, y)
    ensures x in s ==> Precedes(s + [more], x, more)
  {
    var t := s + [more];
    if i, j :| 0 <= i < j < |s| && s[i] == x && s[j] == y {
      assert t[i] == x && t[j] == y;
    }
    if x in s {
      var i :| 0 <= i < |s| && s[i] == x;
      assert t[i] == x && t[|s|] == more;
    }
  }

  lemma {:induction false} TiedSelects(rank: map<FactId, real>, sims: map<FactId, real>, ids: seq<FactId>, r: real, s: real)
    ensures forall id :: id in Tied(rank, sims, ids, r, s) <==> id in ids && At(rank, id) == r && At(sims, id) == s
    decreases |ids|
  {
    if ids != [] {
      var last := |ids| - 1;
      assert ids == ids[..last] + [ids[last]];
      TiedSelects(rank, sims, ids[..last], r, s);
    }
  }

  lemma {:induction false} TiedIsDistinct(rank: map<FactId, real>, sims: map<FactId, real>, ids: seq<FactId>, r: real, s: real)
    requires Distinct(ids)
    ensures Distinct(Tied(rank, sims, ids, r, s))
    decreases |ids|
  {
    if ids != [] {
      DistinctFront(ids);
      TiedIsDistinct(rank, sims, ids[..|ids| - 1], r, s);
      TiedSelects(rank, sims, ids[..|ids| - 1], r, s);
    }
  }

  /** Selecting the tied ones keeps them in order. */
  lemma {:induction false} TiedKeepsOrder(rank: map<FactId, real>, sims: map<FactId, real>, ids: seq<FactId>, i: nat, j: nat)
    requires i < j < |ids| && At(rank, ids[i]) == At(rank, ids[j]) && At(sims, ids[i]) == At(sims, ids[j])
    ensures Precedes(Tied(rank, sims, ids, At(rank, ids[j]), At(sims, ids[j])), ids[i], ids[j])
    decreases |ids|
  {
    var last, r, s := |ids| - 1, At(rank, ids[j]), At(sims, ids[j]);
    var front := Tied(rank, sims, ids[..last], r, s);
    if j == last {
      TiedSelects(rank, sims, ids[..last], r, s);
      assert ids[..last][i] == ids[i];
      PrecedesInLonger(front, ids[last], ids[i], ids[j]);
    } else {
      TiedKeepsOrder(rank, sims, ids[..last], i, j);
      assert ids[..last][i] == ids[i] && ids[..last][j] == ids[j] && front + [] == front;
      PrecedesInLonger(front, ids[last], ids[i], ids[j]);
    }
  }

  /** Of two identifiers the one that comes first and is no worse stays first. */
  lemma NoWorseStaysFirst(rank: map<FactId, real>, sims: map<FactId, real>, ids: seq<FactId>, order: seq<FactId>,
                          i: nat, j: nat, a: nat, b: nat)
    requires SortsByKey(rank, sims, ids, order) && Distinct(ids)
    requires i < j < |ids| && a < |order| && b < |order| && order[a] == ids[i] && order[b] == ids[j]
    requires At(rank, ids[i]) >= At(rank, ids[j]) && At(sims, ids[i]) >= At(sims, ids[j])
    ensures a < b
  {
    assert ids[i] != ids[j];
    if b < a {
      var r, s := At(rank, ids[j]), At(sims, ids[j]);
      TiedKeepsOrder(rank, sims, ids, i, j);
      TiedKeepsOrder(rank, sims, order, b, a);
      TiedIsDistinct(rank, sims, ids, r, s);
      PrecedesOnce(Tied(rank, sims, ids, r, s), ids[i], ids[j]);
    }
  }

  // ---------- candidates without content never rise ----------

  lemma {:induction false} SubsetIsSmaller(a: set<FactId>, b: set<FactId>)
    requires a <= b
    ensures |a| <= |b|
    decreases a
  {
    if a != {} {
      var x :| x in a;
      SubsetIsSmaller(a - {x}, b - {x});
    }
  }

  function Members(ids: seq<FactId>): set<FactId> { set id | id in ids }

  lemma {:induction false} MembersCount(ids: seq<FactId>)
    ensures |Members(ids)| <= |ids|
    ensures Distinct(ids) ==> |Members(ids)| == |ids|
    decreases |ids|
  {
    if ids != [] {
      var last := |ids| - 1;
      MembersCount(ids[..last]);
      assert ids == ids[..last] + [ids[last]];
      assert Members(ids) == Members(ids[..last]) + {ids[last]};
      if Distinct(ids) { DistinctFront(ids); }
    }
  }

  /** At position `p` of the candidates is one that nothing before it is worse than. */
  ghost predicate IsWorstSoFar(rank: map<FactId, real>, sims: map<FactId, real>, ids: seq<FactId>, p: nat) {
    p < |ids| && forall i :: 0 <= i < p ==> At(rank, ids[i]) >= At(rank, ids[p]) && At(sims, ids[i]) >= At(sims, ids[p])
  }

  lemma WorstNeverRises(rank: map<FactId, real>, sims: map<FactId, real>, ids: seq<FactId>, order: seq<FactId>, p: nat, q: nat)
    requires SortsByKey(rank, sims, ids, order) && Distinct(ids) && IsWorstSoFar(rank, sims, ids, p)
    requires q < |order| && order[q] == ids[p]
    ensures p <= q
  {
    forall id | id in Members(ids[..p]) ensures id in Members(order[..q]) {
      var i :| 0 <= i < p && ids[i] == id;
      assert id in multiset(ids) && id in multiset(order);
      var a :| 0 <= a < |order| && order[a] == id;
      NoWorseStaysFirst(rank, sims, ids, order, i, p, a, q);
      assert order[..q][a] == id;
    }
    DistinctPart(ids, p);
    MembersCount(ids[..p]);
    MembersCount(order[..q]);
    SubsetIsSmaller(Members(ids[..p]), Members(order[..q]));
  }

  lemma DistinctPart(ids: seq<FactId>, n: nat)
    requires Distinct(ids) && n <= |ids|
    ensures Distinct(ids[..n])
  {
    forall i, j | 0 <= i < j < n ensures ids[..n][i] != ids[..n][j] { assert ids[i] != ids[j]; }
  }

  /** What is without content among some identifiers. */
  function Bare(ids: seq<FactId>, content: map<FactId, string>): set<FactId> {
    set id | id in ids && id !in content
  }

  lemma {:induction false} BareCounts(ids: seq<FactId>, content: map<FactId, string>)
    requires Distinct(ids)
    ensures WithContent(ids, content) == |ids| - |Bare(ids, content)|
    decreases |ids|
  {
    if ids != [] {
      var last := |ids| - 1;
      DistinctFront(ids);
      BareCounts(ids[..last], content);
      assert Bare(ids, content) == Bare(ids[..last], content) + if ids[last] in content then {} else {ids[last]};
    }
  }

  ghost predicate BareAreWorst(rank: map<FactId, real>, sims: map<FactId, real>, ids: seq<FactId>, content: map<FactId, string>) {
    forall p: nat :: p < |ids| && ids[p] !in content ==> IsWorstSoFar(rank, sims, ids, p)
  }

  /** So the slice of the ranked candidates has at least as much content as that of the dense ones. */
  lemma SortingHelps(rank: map<FactId, real>, sims: map<FactId, real>, ids: seq<FactId>, order: seq<FactId>,
                     content: map<FactId, string>, limit: nat)
    requires SortsByKey(rank, sims, ids, order) && Distinct(ids) && BareAreWorst(rank, sims, ids, content)
    ensures WithContent(Take(order, limit), content) >= WithContent(Take(ids, limit), content)
  {
    SameLength(order, ids);
    DistinctPermutes(ids, order);
    var n := if limit <= |ids| then limit else |ids|;
    assert Take(order, limit) == order[..n] && Take(ids, limit) == ids[..n];
    BareStayBehind(rank, sims, ids, order, content, n);
    SubsetIsSmaller(Bare(order[..n], content), Bare(ids[..n], content));
    DistinctPart(ids, n);
    DistinctPart(order, n);
    BareCounts(ids[..n], content);
    BareCounts(order[..n], content);
  }

  lemma BareStayBehind(rank: map<FactId, real>, sims: map<FactId, real>, ids: seq<FactId>, order: seq<FactId>,
                       content: map<FactId, string>, n: nat)
    requires SortsByKey(rank, sims, ids, order) && Distinct(ids) && BareAreWorst(rank, sims, ids, content)
    requires n <= |ids| == |order|
    ensures Bare(order[..n], content) <= Bare(ids[..n], content)
  {
    forall id | id in Bare(order[..n], content) ensures id in Bare(ids[..n], content) {
      var q :| 0 <= q < n && order[q] == id;
      assert id in multiset(order) && id in multiset(ids);
      var p :| 0 <= p < |ids| && ids[p] == id;
      WorstNeverRises(rank, sims, ids, order, p, q);
      assert ids[..n][p] == id;
    }
  }

  // ---------- the rank scores of the twin ----------

  lemma NoWordsInNothing(cfg: Config)
    requires IsConfig(cfg)
    ensures Tokenize(cfg.lib.lower, "") == [] && Tokenize(cfg.lib.lower, " ") == []
  {
    assert Split(IsAsciiAlnum, "") == [""];
    assert " "[1..] == "" && Split(IsAsciiAlnum, " ") == [""] + [""];
    assert ([""] + [""])[1..] == [""] && [""][1..] == [];
  }

  /** Without content there is no lexical score, and with content there is none below zero. */
  lemma BareScoresNothing(cfg: Config, ids: seq<FactId>, query: string, content: map<FactId, string>, i: nat)
    requires IsConfig(cfg) && Distinct(ids) && i < |ids|
    ensures At(PythonLex(cfg, ids, query, content), ids[i]) >= 0.0
    ensures ids[i] !in content ==> At(PythonLex(cfg, ids, query, content), ids[i]) == 0.0
  {
    var c, pool := PythonCorpus(cfg.lib, ids, content), PoolOf(ids, content);
    PythonCorpusIsCorpus(cfg.lib, ids, content);
    ScoresAreNormalized(cfg.lib.ln, c, set t | t in Tokenize(cfg.lib.lower, query));
    DocsFind(cfg.lib, pool, i);
    NoWordsInNothing(cfg);
    assert pool[i].id == ids[i];
  }

  predicate AreDescending(ids: seq<FactId>, sims: map<FactId, real>) {
    forall i, j :: 0 <= i < j < |ids| ==> At(sims, ids[i]) >= At(sims, ids[j])
  }

  lemma {:induction false} DenseSimilarities(similar: seq<Dense>)
    requires AreDense(similar)
    ensures AreDescending(DenseIds(similar), SimilarityMap(similar))
  {
    forall i: nat | i < |similar| ensures At(SimilarityMap(similar), DenseIds(similar)[i]) == similar[i].score {
      SimilarityOf(similar, i);
    }
  }

  lemma BlendOfBare(w: (real, real), cosine: real, more: real, lexical: real)
    requires w.0 >= 0.0 && w.1 >= 0.0 && cosine <= more && lexical >= 0.0
    ensures Blend(w, more, lexical) >= Blend(w, cosine, 0.0)
  {
    TimesOrder(w.0, cosine, more);
    TimesOrder(w.1, 0.0, lexical);
  }

  /** Blending keeps the order of similarities, with nothing for the words of the second. */
  lemma BlendKeepsOrder(w: (real, real), ids: seq<FactId>, sims: map<FactId, real>, lex: map<FactId, real>, i: nat, j: nat)
    requires w.0 >= 0.0 && w.1 >= 0.0 && i < |ids| && j < |ids|
    requires At(sims, ids[i]) >= At(sims, ids[j]) && At(lex, ids[i]) >= 0.0 && At(lex, ids[j]) == 0.0
    ensures At(BlendRank(w, ids, sims, lex), ids[i]) >= At(BlendRank(w, ids, sims, lex), ids[j])
  {
    BlendOfBare(w, At(sims, ids[j]), At(sims, ids[i]), At(lex, ids[i]));
    assert ids[i] in ids && ids[j] in ids;
  }

  lemma WordlessIsWorst(w: (real, real), ids: seq<FactId>, sims: map<FactId, real>, lex: map<FactId, real>, p: nat)
    requires w.0 >= 0.0 && w.1 >= 0.0 && p < |ids| && AreDescending(ids, sims) && At(lex, ids[p]) == 0.0
    requires forall i :: 0 <= i < |ids| ==> At(lex, ids[i]) >= 0.0
    ensures IsWorstSoFar(BlendRank(w, ids, sims, lex), sims, ids, p)
  {
    var rank := BlendRank(w, ids, sims, lex);
    forall i: nat | i < p ensures At(rank, ids[i]) >= At(rank, ids[p]) && At(sims, ids[i]) >= At(sims, ids[p]) {
      BlendKeepsOrder(w, ids, sims, lex, i, p);
    }
  }

  function TextWeights(cfg: Config, query: string): (w: (real, real))
    ensures w.0 >= 0.0 && w.1 >= 0.0
  {
    DenseLexicalWeights(cfg.base, cfg.short, |Tokenize(cfg.lib.lower, query)|)
  }

  lemma BlendIsRank(cfg: Config, ids: seq<FactId>, sims: map<FactId, real>, query: string, content: map<FactId, string>)
    requires query != ""
    ensures PythonRank(cfg, ids, sims, query, content)
      == BlendRank(TextWeights(cfg, query), ids, sims, PythonLex(cfg, ids, query, content))
  {
  }

  lemma LexicalPart(cfg: Config, ids: seq<FactId>, query: string, content: map<FactId, string>)
    requires IsConfig(cfg) && Distinct(ids)
    ensures var lex := PythonLex(cfg, ids, query, content);
      forall i :: 0 <= i < |ids| ==> At(lex, ids[i]) >= 0.0 && (ids[i] !in content ==> At(lex, ids[i]) == 0.0)
  {
    hide PythonLex;
    forall i: nat | i < |ids|
      ensures var lex := PythonLex(cfg, ids, query, content);
        At(lex, ids[i]) >= 0.0 && (ids[i] !in content ==> At(lex, ids[i]) == 0.0)
    {
      BareScoresNothing(cfg, ids, query, content, i);
    }
  }

  lemma BareRankWorst(cfg: Config, similar: seq<Dense>, query: string, content: map<FactId, string>, p: nat)
    requires IsConfig(cfg) && AreDense(similar) && query != "" && p < |similar| && DenseIds(similar)[p] !in content
    ensures IsWorstSoFar(PythonRank(cfg, DenseIds(similar), SimilarityMap(similar), query, content), SimilarityMap(similar),
                         DenseIds(similar), p)
  {
    var ids, sims, lex := DenseIds(similar), SimilarityMap(similar), PythonLex(cfg, DenseIds(similar), query, content);
    DenseSimilarities(similar);
    LexicalPart(cfg, ids, query, content);
    BlendIsRank(cfg, ids, sims, query, content);
    WordlessIsWorst(TextWeights(cfg, query), ids, sims, lex, p);
  }

  /** Whatever the text, the answer is at least as long as the dense order alone would make it. */
  lemma TextNeverShortens(cfg: Config, similar: seq<Dense>, limit: nat, query: string, rows: map<FactId, DriverRow>,
                          r: seq<Ranked>, order: seq<FactId>)
    requires IsConfig(cfg) && AreDense(similar) && IsSearch(cfg, similar, limit, query, rows, r, order)
    ensures |r| >= WithContent(Take(DenseIds(similar), limit), ContentMap(rows))
  {
    var ids, sims, content := DenseIds(similar), SimilarityMap(similar), ContentMap(rows);
    var rank := PythonRank(cfg, ids, sims, query, content);
    BuiltLength(Take(order, limit), rows, content, sims, rank);
    if query != "" {
      forall p: nat | p < |ids| && ids[p] !in content ensures IsWorstSoFar(rank, sims, ids, p) {
        BareRankWorst(cfg, similar, query, content, p);
      }
      SortingHelps(rank, sims, ids, order, content, limit);
    }
  }

  // ---------- some text makes it short ----------

  /** As many as the limit and the candidates with content allow. */
  function Most(ids: seq<FactId>, limit: nat, content: map<FactId, string>): nat {
    var available := WithContent(ids, content);
    if available <= limit then available else limit
  }

  /** The slice of the dense order has a candidate without content, and one with content comes after it. */
  predicate CutsContent(ids: seq<FactId>, limit: nat, content: map<FactId, string>) {
    |ids| > limit && !AllHaveContent(ids[..limit], content) && exists id :: id in ids[limit..] && id in content
  }

  lemma CutIsShort(ids: seq<FactId>, limit: nat, content: map<FactId, string>)
    ensures WithContent(Take(ids, limit), content) < Most(ids, limit, content) <==> CutsContent(ids, limit, content)
  {
    BuiltLength(Take(ids, limit), map[], content, map[], map[]);
    SliceComesFirst(ids, limit, map[], content, map[], map[]);
  }

  lemma BlankHasNoScores(cfg: Config, ids: seq<FactId>, content: map<FactId, string>)
    requires IsConfig(cfg)
    ensures Tokenize(cfg.lib.lower, " ") == []
    ensures forall id :: At(PythonLex(cfg, ids, " ", content), id) == 0.0
  {
    NoWordsInNothing(cfg);
    NoTermsNoScore(cfg.lib.ln, PythonCorpus(cfg.lib, ids, content));
    assert (set t | t in Tokenize(cfg.lib.lower, " ")) == {};
  }

  lemma WordlessKeepsOrder(w: (real, real), ids: seq<FactId>, sims: map<FactId, real>, lex: map<FactId, real>)
    requires w.0 >= 0.0 && w.1 >= 0.0 && AreDescending(ids, sims)
    requires forall id :: At(lex, id) == 0.0
    ensures SortsByKey(BlendRank(w, ids, sims, lex), sims, ids, ids)
  {
    hide Tied;
    forall i: nat, j: nat | i < j < |ids|
      ensures At(BlendRank(w, ids, sims, lex), ids[i]) >= At(BlendRank(w, ids, sims, lex), ids[j])
    {
      BlendKeepsOrder(w, ids, sims, lex, i, j);
    }
  }

  /** A text without words leaves the dense order as it is. */
  lemma BlankKeepsOrder(cfg: Config, similar: seq<Dense>, content: map<FactId, string>)
    requires IsConfig(cfg) && AreDense(similar)
    ensures var ids, sims := DenseIds(similar), SimilarityMap(similar);
      SortsByKey(PythonRank(cfg, ids, sims, " ", content), sims, ids, ids)
  {
    hide SortsByKey, PythonLex, SimilarityMap, DenseIds, TextWeights;
    var ids, sims := DenseIds(similar), SimilarityMap(similar);
    BlankHasNoScores(cfg, ids, content);
    DenseSimilarities(similar);
    BlendIsRank(cfg, ids, sims, " ", content);
    WordlessKeepsOrder(TextWeights(cfg, " "), ids, sims, PythonLex(cfg, ids, " ", content));
  }

  /** Some text makes the answer shorter than it could be exactly if the dense order does. */
  lemma SomeTextFallsShort(cfg: Config, similar: seq<Dense>, limit: nat, rows: map<FactId, DriverRow>)
    requires IsConfig(cfg) && AreDense(similar)
    ensures (exists query, r, order :: query != "" && IsSearch(cfg, similar, limit, query, rows, r, order)
                                       && |r| < Most(DenseIds(similar), limit, ContentMap(rows)))
      <==> CutsContent(DenseIds(similar), limit, ContentMap(rows))
  {
    var ids, sims, content := DenseIds(similar), SimilarityMap(similar), ContentMap(rows);
    CutIsShort(ids, limit, content);
    forall query, r, order | IsSearch(cfg, similar, limit, query, rows, r, order)
      ensures |r| >= WithContent(Take(ids, limit), content)
    {
      TextNeverShortens(cfg, similar, limit, query, rows, r, order);
    }
    BlankKeepsOrder(cfg, similar, content);
    var rank := PythonRank(cfg, ids, sims, " ", content);
    var r := Built(Take(ids, limit), rows, content, sims, rank);
    BuiltLength(Take(ids, limit), rows, content, sims, rank);
    assert IsSearch(cfg, similar, limit, " ", rows, r, ids);
  }

  /** Two candidates, of which the better one has no content: a search for one fact finds none. */
  lemma FactIsMissed(cfg: Config, rows: map<FactId, DriverRow>) returns (query: string, order: seq<FactId>)
    requires IsConfig(cfg) && rows == map[IntId(2) := DriverRow(Some(IntId(2)), Some("Ada likes tea"), None, [])]
    ensures query != "" && IsSearch(cfg, [Dense(IntId(1), 0.9), Dense(IntId(2), 0.8)], 1, query, rows, [], order)
  {
    hide IsConfig, PythonRank, SortsByKey;
    var similar := [Dense(IntId(1), 0.9), Dense(IntId(2), 0.8)];
    query, order := " ", DenseIds(similar);
    var sims, content := SimilarityMap(similar), ContentMap(rows);
    BlankKeepsOrder(cfg, similar, content);
    OneBareIsNothing(order, rows, content, sims, PythonRank(cfg, order, sims, query, content));
  }

  lemma OneBareIsNothing(order: seq<FactId>, rows: map<FactId, DriverRow>, content: map<FactId, string>,
                         sims: map<FactId, real>, rank: map<FactId, real>)
    requires order != [] && order[0] !in content
    ensures Built(Take(order, 1), rows, content, sims, rank) == []
  {
    assert Take(order, 1) == [order[0]];
    BuiltLength([order[0]], rows, content, sims, rank);
    WithContentBounds([order[0]], content);
  }
}
