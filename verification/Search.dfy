/**
 The two search stages: the embeddings most similar to the query, and the ranking of the facts
 behind them by similarity and by words.
 */
module Search {
  import opened Wrappers
  import opened Vectors
  import opened Similarity
  import opened Sequences
  import opened TopK
  import opened Tokens
  import opened Bm25
  import opened Lexical
  import Json

  datatype FactRow = FactRow(id: FactId, content: string, dateCreated: string, summaries: seq<Json.Value>)

  datatype Candidate = Candidate(row: FactRow, score: real)

  datatype Ranked = Ranked(row: FactRow, similarity: real, rankScore: real)

  /** An identifier with its similarity to the query. */
  datatype Dense = Dense(id: FactId, score: real)

  datatype Embedding = Embedding(id: FactId, vector: Vector)

  /** Library functions and the configured weights. */
  datatype Config = Config(lib: Lib, sqrt: real -> real, base: real, short: real)

  ghost predicate IsConfig(cfg: Config) {
    IsLog(cfg.lib.ln) && IsSqrt(cfg.sqrt) && Lowers(cfg.lib)
  }

  const RANK_SCORE: Ranked -> real := (r: Ranked) => r.rankScore
  const SIMILARITY: Dense -> real := (d: Dense) => d.score

  // ---------- the first stage ----------

  function Scored(cfg: Config, embeddings: seq<Embedding>, query: Vector): (r: seq<Dense>)
    requires IsSqrt(cfg.sqrt)
    ensures |r| == |embeddings|
  {
    seq(|embeddings|, i requires 0 <= i < |embeddings| =>
      Dense(embeddings[i].id, Cosine(cfg.sqrt, embeddings[i].vector, query)))
  }

  method FindSimilarEmbeddings(cfg: Config, sorting: Sorting<Dense>, embeddings: seq<Embedding>, query: Vector, limit: nat)
    returns (r: seq<Dense>, ghost dropped: seq<Dense>)
    requires IsSqrt(cfg.sqrt) && IsSorting(sorting, SIMILARITY)
    ensures query == [] ==> r == []
    ensures query != [] ==> KeepsBest(SIMILARITY, Scored(cfg, embeddings, query), r, dropped, limit)
  {
    if embeddings == [] || query == [] || limit == 0 {
      return [], Scored(cfg, embeddings, query);
    }
    var results := [];
    for i := 0 to |embeddings|
      invariant results == Scored(cfg, embeddings, query)[..i]
    {
      var score := CosineSimilarity(cfg.sqrt, embeddings[i].vector, query);
      results := results + [Dense(embeddings[i].id, score)];
    }
    assert results == Scored(cfg, embeddings, query);
    r, dropped := SelectTop(sorting, SIMILARITY, results, limit);
  }

  // ---------- the second stage ----------

  function Documents(candidates: seq<Candidate>): seq<Document> {
    Map((c: Candidate) => Document(c.row.id, c.row.content), candidates)
  }

  /** How a candidate is rated, given the lexical scores and the weights. */
  function Rate(w: (real, real), lex: map<FactId, real>): Candidate -> Ranked {
    (c: Candidate) => Ranked(c.row, c.score, Blend(w, c.score, if c.row.id in lex then lex[c.row.id] else 0.0))
  }

  function RateByScore(): Candidate -> Ranked {
    (c: Candidate) => Ranked(c.row, c.score, c.score)
  }

  ghost function LexOf(cfg: Config, candidates: seq<Candidate>, qTokens: seq<string>): map<FactId, real> {
    Scores(cfg.lib.ln, CorpusOf(cfg.lib, Documents(candidates)), set t | t in qTokens)
  }

  /** All candidates with their final scores: blended if there is a query, the similarity if not. */
  ghost function RankAll(cfg: Config, candidates: seq<Candidate>, query: Option<string>): seq<Ranked> {
    match query
    case None => Map(RateByScore(), candidates)
    case Some(text) =>
      var qTokens := Tokenize(cfg.lib.lower, text);
      Map(Rate(DenseLexicalWeights(cfg.base, cfg.short, |qTokens|), LexOf(cfg, candidates, qTokens)), candidates)
  }

  method SearchFacts(cfg: Config, sorting: Sorting<Ranked>, candidates: seq<Candidate>, limit: nat, query: Option<string>)
    returns (r: seq<Ranked>, ghost dropped: seq<Ranked>)
    requires IsConfig(cfg) && IsSorting(sorting, RANK_SCORE)
    ensures KeepsBest(RANK_SCORE, RankAll(cfg, candidates, query), r, dropped, limit)
    ensures Map(RANK_SCORE, r) == Take(SortedDown(Map(RANK_SCORE, RankAll(cfg, candidates, query))), limit)
  {
    if candidates == [] || limit == 0 {
      return [], RankAll(cfg, candidates, query);
    }
    var results;
    match query {
      case None =>
        results := Map(RateByScore(), candidates);
      case Some(text) =>
        var qTokens := Tokenize(cfg.lib.lower, text);
        var lex := LexicalScores(cfg.lib, qTokens, Documents(candidates));
        var w := DenseLexicalWeights(cfg.base, cfg.short, |qTokens|);
        results := Map(Rate(w, lex), candidates);
    }
    r, dropped := SelectTop(sorting, RANK_SCORE, results, limit);
  }

  /** Every candidate has a lexical score between zero and one, so similarities in range stay in range. */
  lemma RankScoresAreBounded(cfg: Config, candidates: seq<Candidate>, query: Option<string>)
    requires IsConfig(cfg) && forall c :: c in candidates ==> -1.0 <= c.score <= 1.0
    ensures forall r :: r in RankAll(cfg, candidates, query) ==> -1.0 <= r.rankScore <= 1.0
  {
    if query.Some? {
      var qTokens := Tokenize(cfg.lib.lower, query.value);
      var terms := set t | t in qTokens;
      var pool := Documents(candidates);
      var lex := LexOf(cfg, candidates, qTokens);
      CorpusIsCorpus(cfg.lib, pool);
      ScoresAreNormalized(cfg.lib.ln, CorpusOf(cfg.lib, pool), terms);
      forall i | 0 <= i < |candidates| ensures -1.0 <= RankAll(cfg, candidates, query)[i].rankScore <= 1.0 {
        var c := candidates[i];
        BlendIsBounded(cfg.base, cfg.short, |qTokens|, c.score, if c.row.id in lex then lex[c.row.id] else 0.0);
      }
    }
  }

  // ---------- order does not matter ----------

  predicate DistinctRows(candidates: seq<Candidate>) {
    Distinct(Ids(Documents(candidates)))
  }

  /** For distinct identifiers the order of the candidates has no influence on the rank scores. */
  lemma RankingIgnoresCandidateOrder(cfg: Config, a: seq<Candidate>, b: seq<Candidate>, query: Option<string>)
    requires multiset(a) == multiset(b) && DistinctRows(a) && DistinctRows(b)
    ensures SortedDown(Map(RANK_SCORE, RankAll(cfg, a, query))) == SortedDown(Map(RANK_SCORE, RankAll(cfg, b, query)))
  {
    match query {
      case None =>
        MapPermutes(RateByScore(), a, b);
      case Some(text) =>
        var qTokens := Tokenize(cfg.lib.lower, text);
        MapPermutes((c: Candidate) => Document(c.row.id, c.row.content), a, b);
        CorpusIgnoresOrder(cfg.lib, Documents(a), Documents(b));
        MapPermutes(Rate(DenseLexicalWeights(cfg.base, cfg.short, |qTokens|), LexOf(cfg, a, qTokens)), a, b);
    }
    MapPermutes(RANK_SCORE, RankAll(cfg, a, query), RankAll(cfg, b, query));
    RankingIgnoresOrder(Map(RANK_SCORE, RankAll(cfg, a, query)), Map(RANK_SCORE, RankAll(cfg, b, query)));
  }
}
