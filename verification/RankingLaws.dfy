/**
 What the scores mean: which document of two scores higher and why, how much similarity and words
 each can do for a fact, and that the best match comes first.
 */
module RankingLaws {
  import opened Wrappers
  import opened Vectors
  import opened Similarity
  import opened Sequences
  import opened TopK
  import opened Tokens
  import opened Bm25
  import opened Lexical
  import opened Search

  // ---------- the weight of a term ----------

  /** A logarithm that grows, as every one does. */
  ghost predicate Grows(ln: real -> real) {
    forall x, y :: 0.0 < x < y ==> ln(x) < ln(y)
  }

  lemma OverOrder(x: real, y: real, d: real)
    requires d > 0.0
    ensures x < y ==> Over(x, d) < Over(y, d)
    ensures x <= y ==> Over(x, d) <= Over(y, d)
  {
    var q := Over(y, d) - Over(x, d);
    TimesDistributes(d, Over(y, d), -Over(x, d));
    TimesNegates(Over(x, d), d);
    QuotientIsUnique(q, y - x, d);
    OverSign(y - x, d);
  }

  /** A larger divisor makes the quotient of a positive number smaller. */
  lemma OverFalls(x: real, c: real, d: real)
    requires x > 0.0 && 0.0 < c <= d
    ensures Over(x, d) <= Over(x, c)
    ensures c < d ==> Over(x, d) < Over(x, c)
  {
    var p, q := Over(x, c), Over(x, d);
    OverSign(x, d);
    TimesDistributes(q, c, d - c);
    if c < d { TimesPositive(q, d - c); } else { TimesZero(q); }
    if q > p { TimesPositive(q - p, c); TimesDistributes(c, q - p, p); }
    if q == p && c < d { assert false; }
  }

  /** The rarer of two terms weighs more. */
  lemma RarerWeighsMore(ln: real -> real, count: nat, rare: nat, common: nat)
    requires Grows(ln) && rare < common <= count
    ensures Idf(ln, count, rare) > Idf(ln, count, common)
  {
    var n, r, c := count as real, rare as real, common as real;
    OverOrder(n - c + 0.5, n - r + 0.5, c + 0.5);
    OverFalls(n - r + 0.5, r + 0.5, c + 0.5);
    OverSign(n - c + 0.5, c + 0.5);
  }

  /** And a term weighs more the more documents there are without it. */
  lemma MoreOthersWeighMore(ln: real -> real, count: nat, more: nat, docFreq: nat)
    requires Grows(ln) && docFreq <= count < more
    ensures Idf(ln, more, docFreq) > Idf(ln, count, docFreq)
  {
    OverOrder(count as real - docFreq as real + 0.5, more as real - docFreq as real + 0.5, docFreq as real + 0.5);
    OverSign(count as real - docFreq as real + 0.5, docFreq as real + 0.5);
  }

  /** A document of average length is neither favoured nor held back, and a longer one is held back more. */
  lemma LengthCounts(len: nat, longer: nat, count: nat, totalLen: nat)
    requires count > 0 && totalLen > 0
    ensures len * count == totalLen ==> LengthNorm(len, count, totalLen) == 1.0
    ensures len < longer ==> LengthNorm(len, count, totalLen) < LengthNorm(longer, count, totalLen)
    ensures LengthNorm(0, count, totalLen) == 0.25
  {
    OverSign(totalLen as real, count as real);
    var avg := Over(totalLen as real, count as real);
    if len * count == totalLen {
      assert Times(len as real, count as real) == totalLen as real;
      QuotientIsUnique(len as real, totalLen as real, count as real);
      QuotientIsUnique(1.0, avg, avg);
      assert Times(B, 1.0) == B;
    }
    if len < longer {
      OverOrder(len as real, longer as real, avg);
      TimesPositive(B, Over(longer as real, avg) - Over(len as real, avg));
      TimesDistributes(B, Over(len as real, avg), Over(longer as real, avg) - Over(len as real, avg));
    }
    OverSign(0.0, avg);
    TimesZero(B);
  }

  /** The share of `f` in `f + a`. */
  lemma ShareGrows(f: real, g: real, a: real, k: real)
    requires 0.0 < f < g && a > 0.0 && k > 0.0
    ensures Over(Times(f, k), f + a) < Over(Times(g, k), g + a)
    ensures Over(Times(g, k), g + a) < k
  {
    // Each share falls short of k by k a over its divisor.
    ShortOfAll(f, a, k);
    ShortOfAll(g, a, k);
    TimesPositive(k, a);
    OverFalls(Times(k, a), f + a, g + a);
    OverSign(Times(k, a), g + a);
  }

  lemma ShortOfAll(f: real, a: real, k: real)
    requires f > 0.0 && a > 0.0
    ensures Over(Times(f, k), f + a) == k - Over(Times(k, a), f + a)
  {
    var q := k - Over(Times(k, a), f + a);
    TimesDistributes(f + a, k, -Over(Times(k, a), f + a));
    TimesNegates(Over(Times(k, a), f + a), f + a);
    TimesDistributes(k, f, a);
    TimesCommutes(k, f);
    QuotientIsUnique(q, Times(f, k), f + a);
  }

  /** More occurrences count more, though never more than 2.2 times as much as one in an average document. */
  lemma OccurrencesCount(f: nat, more: nat, norm: real)
    requires norm > 0.0 && f < more
    ensures Saturated(f, norm) < Saturated(more, norm) < 2.2
    ensures Saturated(1, 1.0) == 1.0
  {
    TimesPositive(K1, norm);
    if f == 0 {
      ShareGrows(more as real / 2.0, more as real, Times(K1, norm), K1 + 1.0);
    } else {
      ShareGrows(f as real, more as real, Times(K1, norm), K1 + 1.0);
    }
    assert Times(1.0, K1 + 1.0) == 2.2 && Times(K1, 1.0) == 1.2;
    QuotientIsUnique(1.0, 2.2, 2.2);
  }

  /** The same occurrences count less in a longer document. */
  lemma LongerCountsLess(f: nat, norm: real, longer: real)
    requires 0.0 < norm < longer && f > 0
    ensures Saturated(f, longer) < Saturated(f, norm)
  {
    TimesPositive(K1, norm);
    TimesPositive(K1, longer - norm);
    TimesDistributes(K1, norm, longer - norm);
    TimesPositive(f as real, K1 + 1.0);
    OverFalls(Times(f as real, K1 + 1.0), f as real + Times(K1, norm), f as real + Times(K1, longer));
  }

  /** How often a word counts is how often it occurs. */
  lemma {:induction false} CountIsMultiplicity(words: seq<string>, w: string)
    ensures Count(words, w) == multiset(words)[w]
    decreases |words|
  {
    if words != [] {
      var last := |words| - 1;
      CountIsMultiplicity(words[..last], w);
      assert words == words[..last] + [words[last]];
    }
  }

  /** In the Rust core every document with a term counts once for it. */
  lemma DocFreqCounts(lib: Lib, pool: seq<Document>, t: string)
    ensures DocFreq(CorpusOf(lib, pool), t) == |set id | id in Docs(lib, pool) && t in Docs(lib, pool)[id]|
  {
    var c := CorpusOf(lib, pool);
    TotalOnce(c.docs.Keys, Containing(c, t));
    assert Containing(c, t) == set id | id in Docs(lib, pool) && t in Docs(lib, pool)[id];
  }

  /** Of several documents with one identifier the last is the one that is scored. */
  lemma {:induction false} LastDocumentCounts(lib: Lib, pool: seq<Document>, i: nat)
    requires i < |pool| && forall j :: i < j < |pool| ==> pool[j].id != pool[i].id
    ensures pool[i].id in Docs(lib, pool) && Docs(lib, pool)[pool[i].id] == Tokenize(lib.lower, pool[i].content)
    decreases |pool|
  {
    hide Tokenize;
    var last := |pool| - 1;
    if i < last {
      assert pool[last].id != pool[i].id;
      forall j | i < j < last ensures pool[..last][j].id != pool[..last][i].id { assert pool[j].id != pool[i].id; }
      LastDocumentCounts(lib, pool[..last], i);
    }
  }

  lemma TimesStrict(k: real, x: real, y: real)
    requires k > 0.0 && x < y
    ensures Times(k, x) < Times(k, y)
  {
    TimesPositive(k, y - x);
    TimesDistributes(k, x, y - x);
  }

  /** The three reasons for which a term weighs more: it occurs more often, its document is shorter, fewer documents have it. */
  lemma ReasonsToWeighMore(ln: real -> real, c: Corpus, id: FactId, other: FactId, t: string, u: string)
    requires IsLog(ln) && Grows(ln) && IsCorpus(c) && id in c.docs && other in c.docs && c.count > 0 && c.totalLen > 0
    ensures |c.docs[id]| == |c.docs[other]| && Count(c.docs[other], t) < Count(c.docs[id], t) ==>
      Weight(ln, c, other, t) < Weight(ln, c, id, t)
    ensures |c.docs[id]| < |c.docs[other]| && Count(c.docs[other], t) == Count(c.docs[id], t) > 0 ==>
      Weight(ln, c, other, t) < Weight(ln, c, id, t)
    ensures DocFreq(c, t) < DocFreq(c, u) && Count(c.docs[id], u) == Count(c.docs[id], t) > 0 ==>
      Weight(ln, c, id, u) < Weight(ln, c, id, t)
  {
    DocFreqIsBounded(c, t);
    DocFreqIsBounded(c, u);
    IdfIsPositive(ln, c.count, DocFreq(c, t));
    var f, g := Count(c.docs[other], t), Count(c.docs[id], t);
    var m, n := LengthNorm(|c.docs[other]|, c.count, c.totalLen), LengthNorm(|c.docs[id]|, c.count, c.totalLen);
    if m == n && f < g {
      OccurrencesCount(f, g, n);
      TimesStrict(Idf(ln, c.count, DocFreq(c, t)), Saturated(f, m), Saturated(g, n));
    }
    if |c.docs[id]| < |c.docs[other]| && f == g && g > 0 {
      LengthCounts(|c.docs[id]|, |c.docs[other]|, c.count, c.totalLen);
      LongerCountsLess(f, n, m);
      TimesStrict(Idf(ln, c.count, DocFreq(c, t)), Saturated(f, m), Saturated(g, n));
    }
    if DocFreq(c, t) < DocFreq(c, u) && g > 0 {
      RarerWeighsMore(ln, c.count, DocFreq(c, t), DocFreq(c, u));
      TimesStrict(Saturated(g, n), Idf(ln, c.count, DocFreq(c, u)), Idf(ln, c.count, DocFreq(c, t)));
      TimesCommutes(Saturated(g, n), Idf(ln, c.count, DocFreq(c, u)));
      TimesCommutes(Saturated(g, n), Idf(ln, c.count, DocFreq(c, t)));
    }
  }

  /** Document `id` has every term at least as often as `other` and is no longer. */
  ghost predicate IsBetter(c: Corpus, terms: set<string>, id: FactId, other: FactId)
    requires id in c.docs && other in c.docs
  {
    && |c.docs[id]| <= |c.docs[other]|
    && forall t :: t in terms ==> Count(c.docs[other], t) <= Count(c.docs[id], t)
  }

  lemma BetterWeighsMore(ln: real -> real, c: Corpus, id: FactId, other: FactId, t: string)
    requires IsLog(ln) && IsCorpus(c) && id in c.docs && other in c.docs && |c.docs[id]| <= |c.docs[other]|
    requires Count(c.docs[other], t) <= Count(c.docs[id], t)
    ensures Weight(ln, c, other, t) <= Weight(ln, c, id, t)
  {
    DocFreqIsBounded(c, t);
    IdfIsPositive(ln, c.count, DocFreq(c, t));
    var f, g := Count(c.docs[other], t), Count(c.docs[id], t);
    var m, n := LengthNorm(|c.docs[other]|, c.count, c.totalLen), LengthNorm(|c.docs[id]|, c.count, c.totalLen);
    if c.count > 0 && c.totalLen > 0 && |c.docs[id]| < |c.docs[other]| {
      LengthCounts(|c.docs[id]|, |c.docs[other]|, c.count, c.totalLen);
    }
    assert n <= m;
    if f > 0 && n < m { LongerCountsLess(f, n, m); }
    if f < g { OccurrencesCount(f, g, n); }
    TimesOrder(Idf(ln, c.count, DocFreq(c, t)), Saturated(f, m), Saturated(g, n));
  }

  lemma {:induction false} SumOverOrder(f: string -> real, g: string -> real, s: set<string>)
    requires forall t :: t in s ==> f(t) <= g(t)
    ensures SumOver(f, s) <= SumOver(g, s)
    decreases s
  {
    if s != {} {
      var t :| t in s;
      SumOverPick(f, s, t);
      SumOverPick(g, s, t);
      SumOverOrder(f, g, s - {t});
    }
  }

  /** A document that has every query term as often as another and is no longer scores at least as high. */
  lemma BetterScoresHigher(ln: real -> real, c: Corpus, terms: set<string>, id: FactId, other: FactId)
    requires IsLog(ln) && IsCorpus(c) && id in c.docs && other in c.docs && IsBetter(c, terms, id, other)
    ensures other in Scores(ln, c, terms) && id in Scores(ln, c, terms)
    ensures Scores(ln, c, terms)[other] <= Scores(ln, c, terms)[id]
  {
    forall t | t in terms ensures Weight(ln, c, other, t) <= Weight(ln, c, id, t) { BetterWeighsMore(ln, c, id, other, t); }
    SumOverOrder(t => if other in c.docs then Weight(ln, c, other, t) else 0.0,
                 t => if id in c.docs then Weight(ln, c, id, t) else 0.0, terms);
    var raw := RawScores(ln, c, terms);
    if Best(raw) > 0.0 { OverOrder(raw[other], raw[id], Best(raw)); }
  }

  // ---------- similarity and words ----------

  lemma BlendMoves(w: (real, real), cosine: real, lexical: real, d: real, e: real)
    ensures Blend(w, cosine + d, lexical + e) == Blend(w, cosine, lexical) + Times(w.0, d) + Times(w.1, e)
  {
    TimesDistributes(w.0, cosine, d);
    TimesDistributes(w.1, lexical, e);
  }

  /** Words alone count their share, and similarity alone the rest. */
  lemma SharesAreUsed(base: real, short: real, tokenCount: nat)
    ensures var w := DenseLexicalWeights(base, short, tokenCount); var own := if tokenCount <= 2 then short else base;
      && 0.05 <= Blend(w, 0.0, 1.0) <= 0.40
      && (0.05 <= own <= 0.40 ==> Blend(w, 0.0, 1.0) == own)
      && (own < 0.05 ==> Blend(w, 0.0, 1.0) == 0.05) && (own > 0.40 ==> Blend(w, 0.0, 1.0) == 0.40)
      && Blend(w, 1.0, 0.0) == 1.0 - Blend(w, 0.0, 1.0) && Blend(w, 1.0, 1.0) == 1.0
  {
    var w := DenseLexicalWeights(base, short, tokenCount);
    TimesZero(w.0);
    TimesZero(w.1);
    assert Times(w.0, 1.0) == w.0 && Times(w.1, 1.0) == w.1;
  }

  /** A lead in similarity of more than two thirds cannot be made up for by words, under any configuration. */
  lemma SimilarityOutweighsWords(base: real, short: real, tokenCount: nat, near: real, far: real, few: real, many: real)
    requires near - far > 2.0 / 3.0 && 0.0 <= few <= 1.0 && 0.0 <= many <= 1.0
    ensures var w := DenseLexicalWeights(base, short, tokenCount); Blend(w, near, few) > Blend(w, far, many)
  {
    var w := DenseLexicalWeights(base, short, tokenCount);
    var d, e := near - far, few - many;
    BlendMoves(w, far, many, d, e);
    TimesOrder(d, 0.60, w.0);
    TimesCommutes(d, w.0);
    TimesOrder(w.1, -1.0, e);
    TimesNegates(w.1, 1.0);
    assert Times(d, 0.60) > 0.40 && Times(w.1, 1.0) == w.1;
  }

  /** The rows come through with their similarity, and without a query that is the score. */
  lemma RowsAreRated(cfg: Config, candidates: seq<Candidate>, query: Option<string>, i: nat)
    requires i < |candidates|
    ensures var all := RankAll(cfg, candidates, query);
      && |all| == |candidates| && all[i].row == candidates[i].row && all[i].similarity == candidates[i].score
      && (query.None? ==> all[i].rankScore == candidates[i].score)
  {
  }

  /**
   With a query, a fact that is more than two thirds more similar ranks higher whatever its words,
   and of two equally similar ones the one with all query terms as often in no more words.
   */
  lemma HigherRanks(cfg: Config, candidates: seq<Candidate>, text: string, i: nat, j: nat)
    requires IsConfig(cfg) && i < |candidates| && j < |candidates| && DistinctRows(candidates)
    ensures var all := RankAll(cfg, candidates, Some(text)); var terms := set t | t in Tokenize(cfg.lib.lower, text);
      && (candidates[i].score - candidates[j].score > 2.0 / 3.0 ==> all[i].rankScore > all[j].rankScore)
      && (candidates[i].score == candidates[j].score && HasMoreWords(cfg, terms, candidates[i].row, candidates[j].row) ==>
            all[i].rankScore >= all[j].rankScore)
  {
    var qTokens := Tokenize(cfg.lib.lower, text);
    var terms := set t | t in qTokens;
    var pool := Documents(candidates);
    var c := CorpusOf(cfg.lib, pool);
    CorpusIsCorpus(cfg.lib, pool);
    ScoresAreNormalized(cfg.lib.ln, c, terms);
    DocsFind(cfg.lib, pool, i);
    DocsFind(cfg.lib, pool, j);
    var lex := LexOf(cfg, candidates, qTokens);
    var x, y := lex[candidates[i].row.id], lex[candidates[j].row.id];
    if candidates[i].score - candidates[j].score > 2.0 / 3.0 {
      SimilarityOutweighsWords(cfg.base, cfg.short, |qTokens|, candidates[i].score, candidates[j].score, x, y);
    }
    if HasMoreWords(cfg, terms, candidates[i].row, candidates[j].row) {
      BetterScoresHigher(cfg.lib.ln, c, terms, candidates[i].row.id, candidates[j].row.id);
      BlendIsMonotone(cfg.base, cfg.short, |qTokens|, candidates[j].score, y, candidates[j].score, x);
    }
  }

  /** The content of `row` has every term as often as that of `other`, in no more words. */
  predicate HasMoreWords(cfg: Config, terms: set<string>, row: FactRow, other: FactRow) {
    var words, others := Tokenize(cfg.lib.lower, row.content), Tokenize(cfg.lib.lower, other.content);
    |words| <= |others| && forall t :: t in terms ==> Count(others, t) <= Count(words, t)
  }

  // ---------- the first stage ----------

  /** An embedding with the direction of the query comes first, with the full score. */
  lemma ExactMatchComesFirst(cfg: Config, embeddings: seq<Embedding>, query: Vector, r: seq<Dense>, dropped: seq<Dense>,
                             limit: nat, i: nat, k: real)
    requires IsSqrt(cfg.sqrt) && !IsZero(query) && limit > 0 && i < |embeddings|
    requires k > 0.0 && embeddings[i].vector == Scale(k, query)
    requires KeepsBest(SIMILARITY, Scored(cfg, embeddings, query), r, dropped, limit)
    ensures Scored(cfg, embeddings, query)[i] == Dense(embeddings[i].id, 1.0)
    ensures r != [] && r[0].score == 1.0
  {
    var all := Scored(cfg, embeddings, query);
    CosineIgnoresLength(cfg.sqrt, k, query, query);
    CosineOfItself(cfg.sqrt, query);
    assert all[i] in multiset(r + dropped);
    assert r[0] in multiset(r + dropped) && r[0] in multiset(all);
    var j :| 0 <= j < |all| && all[j] == r[0];
    CosineIsBounded(cfg.sqrt, embeddings[j].vector, query);
    if all[i] in r {
      var m :| 0 <= m < |r| && r[m] == all[i];
      assert Map(SIMILARITY, r)[0] >= Map(SIMILARITY, r)[m];
    } else {
      assert all[i] in dropped;
    }
  }
}
