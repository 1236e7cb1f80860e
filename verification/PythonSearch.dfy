/**
 The Python twin of the second stage: it ranks identifiers, takes the first few and only then drops
 those without content.
 */
module PythonSearch {
  import opened Wrappers
  import opened Sequences
  import opened TopK
  import opened Tokens
  import opened Bm25
  import opened Lexical
  import opened Search
  import opened Retrieval
  import Json

  /** A row as the driver returns it; any part may be missing. */
  datatype DriverRow = DriverRow(id: Option<FactId>, content: Option<string>, dateCreated: Option<string>, summaries: seq<Json.Value>)

  // ---------- what is known about the candidates ----------

  function RowMap(rows: seq<DriverRow>): map<FactId, DriverRow> {
    if rows == [] then map[]
    else
      var last := |rows| - 1;
      var before := RowMap(rows[..last]);
      if rows[last].id.Some? then before[rows[last].id.value := rows[last]] else before
  }

  function ContentMap(rows: map<FactId, DriverRow>): map<FactId, string> {
    map id | id in rows && rows[id].content.Some? :: rows[id].content.value
  }

  method FetchContentMaps(rows: seq<DriverRow>) returns (factRows: map<FactId, DriverRow>, content: map<FactId, string>)
    ensures factRows == RowMap(rows) && content == ContentMap(RowMap(rows))
  {
    factRows := map[];
    for i := 0 to |rows|
      invariant factRows == RowMap(rows[..i])
    {
      assert rows[..i + 1][..i] == rows[..i];
      if rows[i].id.None? {
        continue;
      }
      factRows := factRows[rows[i].id.value := rows[i]];
    }
    assert rows[..|rows|] == rows;
    content := map id | id in factRows && factRows[id].content.Some? :: factRows[id].content.value;
  }

  function SimilarityMap(similar: seq<Dense>): map<FactId, real> {
    if similar == [] then map[]
    else
      var last := |similar| - 1;
      SimilarityMap(similar[..last])[similar[last].id := similar[last].score]
  }

  lemma {:induction false} SimilarityOf(similar: seq<Dense>, i: nat)
    requires i < |similar| && Distinct(DenseIds(similar))
    ensures similar[i].id in SimilarityMap(similar) && SimilarityMap(similar)[similar[i].id] == similar[i].score
    decreases |similar|
  {
    var last := |similar| - 1;
    var ids := DenseIds(similar);
    if i < last {
      assert ids[i] != ids[last];
      assert DenseIds(similar[..last]) == ids[..last];
      assert Distinct(ids[..last]) by {
        forall j, k | 0 <= j < k < last ensures ids[..last][j] != ids[..last][k] { assert ids[j] != ids[k]; }
      }
      SimilarityOf(similar[..last], i);
    }
  }

  // ---------- ranking ----------

  function At(scores: map<FactId, real>, id: FactId): real { if id in scores then scores[id] else 0.0 }

  /** The identifiers with a certain rank score and similarity, in order. */
  function Tied(rank: map<FactId, real>, sims: map<FactId, real>, ids: seq<FactId>, r: real, s: real): seq<FactId> {
    if ids == [] then []
    else
      var last := |ids| - 1;
      Tied(rank, sims, ids[..last], r, s)
      + if At(rank, ids[last]) == r && At(sims, ids[last]) == s then [ids[last]] else []
  }

  /** Descending by rank score, by similarity among equals, and in the old order among the equals of these. */
  ghost predicate SortsByKey(rank: map<FactId, real>, sims: map<FactId, real>, before: seq<FactId>, after: seq<FactId>) {
    && multiset(after) == multiset(before)
    && (forall i, j :: 0 <= i < j < |after| ==>
      At(rank, after[i]) > At(rank, after[j])
      || (At(rank, after[i]) == At(rank, after[j]) && At(sims, after[i]) >= At(sims, after[j])))
    && forall r, s :: Tied(rank, sims, after, r, s) == Tied(rank, sims, before, r, s)
  }

  type KeySort = (map<FactId, real>, map<FactId, real>, seq<FactId>) -> seq<FactId>

  ghost predicate IsKeySort(sort: KeySort) {
    forall rank, sims, ids :: SortsByKey(rank, sims, ids, sort(rank, sims, ids))
  }

  ghost function PythonLex(cfg: Config, ids: seq<FactId>, query: string, content: map<FactId, string>): map<FactId, real> {
    Scores(cfg.lib.ln, PythonCorpus(cfg.lib, ids, content), set t | t in Tokenize(cfg.lib.lower, query))
  }

  function SimilarityRank(ids: seq<FactId>, sims: map<FactId, real>): map<FactId, real> {
    map id | id in ids :: At(sims, id)
  }

  function BlendRank(w: (real, real), ids: seq<FactId>, sims: map<FactId, real>, lex: map<FactId, real>): map<FactId, real> {
    map id | id in ids :: Blend(w, At(sims, id), At(lex, id))
  }

  /** The rank score of every candidate. */
  ghost function PythonRank(cfg: Config, ids: seq<FactId>, sims: map<FactId, real>, query: string,
                            content: map<FactId, string>): map<FactId, real> {
    if query == "" then SimilarityRank(ids, sims)
    else
      var w := DenseLexicalWeights(cfg.base, cfg.short, |Tokenize(cfg.lib.lower, query)|);
      BlendRank(w, ids, sims, PythonLex(cfg, ids, query, content))
  }

  ghost predicate IsOrder(ids: seq<FactId>, order: seq<FactId>, sims: map<FactId, real>, rank: map<FactId, real>, query: string) {
    if query == "" then order == ids else SortsByKey(rank, sims, ids, order)
  }

  method RankCandidates(cfg: Config, sort: KeySort, ids: seq<FactId>, sims: map<FactId, real>, query: string,
                        content: map<FactId, string>)
    returns (order: seq<FactId>, rank: map<FactId, real>)
    requires IsConfig(cfg) && IsKeySort(sort)
    ensures rank == PythonRank(cfg, ids, sims, query, content)
    ensures IsOrder(ids, order, sims, rank, query)
  {
    if query == "" {
      return ids, SimilarityRank(ids, sims);
    }
    TokenizersAgree(cfg.lib.lower, query);
    var qTokens := TokenizeByPattern(cfg.lib.lower, query);
    var lex := LexicalScoresForIds(cfg.lib, qTokens, ids, content);
    var w := DenseLexicalWeights(cfg.base, cfg.short, |qTokens|);
    rank := BlendRank(w, ids, sims, lex);
    order := sort(rank, sims, ids);
  }

  // ---------- the rows returned ----------

  function RowOf(id: FactId, rows: map<FactId, DriverRow>, content: string): FactRow {
    FactRow(id, content,
            if id in rows && rows[id].dateCreated.Some? then rows[id].dateCreated.value else "",
            if id in rows then rows[id].summaries else [])
  }

  /** One row for each identifier with content; the others are dropped. */
  function Built(ids: seq<FactId>, rows: map<FactId, DriverRow>, content: map<FactId, string>,
                 sims: map<FactId, real>, rank: map<FactId, real>): seq<Ranked> {
    if ids == [] then []
    else
      var last := |ids| - 1;
      var id := ids[last];
      Built(ids[..last], rows, content, sims, rank)
      + if id !in content then []
        else [Ranked(RowOf(id, rows, content[id]), At(sims, id), if id in rank then rank[id] else At(sims, id))]
  }

  method BuildFactRows(ids: seq<FactId>, rows: map<FactId, DriverRow>, content: map<FactId, string>,
                       sims: map<FactId, real>, rank: map<FactId, real>) returns (r: seq<Ranked>)
    ensures r == Built(ids, rows, content, sims, rank)
  {
    r := [];
    for i := 0 to |ids|
      invariant r == Built(ids[..i], rows, content, sims, rank)
    {
      assert ids[..i + 1][..i] == ids[..i];
      if ids[i] !in content {
        continue;
      }
      var similarity := At(sims, ids[i]);
      r := r + [Ranked(RowOf(ids[i], rows, content[ids[i]]), similarity, if ids[i] in rank then rank[ids[i]] else similarity)];
    }
    assert ids[..|ids|] == ids;
  }

  /** The row says what is known of its fact: the content, the dense similarity, the rank, and the driver's date and summaries. */
  predicate SaysWhatIsKnown(r: Ranked, rows: map<FactId, DriverRow>, content: map<FactId, string>,
                            sims: map<FactId, real>, rank: map<FactId, real>) {
    var id := r.row.id;
    && id in content && r.row.content == content[id]
    && (id in sims ==> r.similarity == sims[id])
    && (id in rank ==> r.rankScore == rank[id])
    && (id in rows && rows[id].dateCreated.Some? ==> r.row.dateCreated == rows[id].dateCreated.value)
    && (id in rows ==> r.row.summaries == rows[id].summaries)
  }

  ghost predicate AreRowsOf(built: seq<Ranked>, ids: seq<FactId>, rows: map<FactId, DriverRow>, content: map<FactId, string>,
                            sims: map<FactId, real>, rank: map<FactId, real>) {
    && (forall r :: r in built ==> r.row.id in ids && SaysWhatIsKnown(r, rows, content, sims, rank))
    && (forall id :: id in ids && id in content ==> exists r :: r in built && r.row.id == id)
    && (AllHaveContent(ids, content) ==> |built| == |ids| && forall i :: 0 <= i < |ids| ==> built[i].row.id == ids[i])
  }

  lemma RowsGrow(ids: seq<FactId>, id: FactId, rows: map<FactId, DriverRow>, content: map<FactId, string>,
                 sims: map<FactId, real>, rank: map<FactId, real>, front: seq<Ranked>, built: seq<Ranked>)
    requires AreRowsOf(front, ids, rows, content, sims, rank)
    requires if id !in content then built == front
             else built != [] && built == front + [built[|built| - 1]] && built[|built| - 1].row.id == id
                  && SaysWhatIsKnown(built[|built| - 1], rows, content, sims, rank)
    ensures AreRowsOf(built, ids + [id], rows, content, sims, rank)
  {
    hide SaysWhatIsKnown;
    forall known | known in ids + [id] && known in content ensures exists r :: r in built && r.row.id == known {
      if known == id {
        assert built[|built| - 1] in built;
      } else {
        var r :| r in front && r.row.id == known;
        assert r in built;
      }
    }
    if AllHaveContent(ids + [id], content) {
      assert id in ids + [id];
      assert AllHaveContent(ids, content) by { assert forall other :: other in ids ==> other in ids + [id]; }
    }
  }

  /** The rows come in the order of the identifiers, and none is missing whose identifier has content. */
  lemma {:induction false} BuiltRows(ids: seq<FactId>, rows: map<FactId, DriverRow>, content: map<FactId, string>,
                                     sims: map<FactId, real>, rank: map<FactId, real>)
    ensures var built := Built(ids, rows, content, sims, rank);
      AreRowsOf(built, ids, rows, content, sims, rank)
    decreases |ids|
  {
    if ids != [] {
      hide SaysWhatIsKnown, Built;
      var last := |ids| - 1;
      BuiltRows(ids[..last], rows, content, sims, rank);
      BuiltGrows(ids, rows, content, sims, rank);
      RowsGrow(ids[..last], ids[last], rows, content, sims, rank, Built(ids[..last], rows, content, sims, rank),
               Built(ids, rows, content, sims, rank));
      assert ids == ids[..last] + [ids[last]];
    }
  }

  lemma BuiltGrows(ids: seq<FactId>, rows: map<FactId, DriverRow>, content: map<FactId, string>,
                   sims: map<FactId, real>, rank: map<FactId, real>)
    requires ids != []
    ensures var front, id := Built(ids[..|ids| - 1], rows, content, sims, rank), ids[|ids| - 1];
      var built := Built(ids, rows, content, sims, rank);
      if id !in content then built == front
      else built != [] && built == front + [built[|built| - 1]] && built[|built| - 1].row.id == id
           && SaysWhatIsKnown(built[|built| - 1], rows, content, sims, rank)
  {
  }

  /** An identifier stands for the last of the driver's rows that has it. */
  lemma {:induction false} RowMapFindsLast(rows: seq<DriverRow>, i: nat)
    requires i < |rows| && rows[i].id.Some? && forall j :: i < j < |rows| ==> rows[j].id != rows[i].id
    ensures rows[i].id.value in RowMap(rows) && RowMap(rows)[rows[i].id.value] == rows[i]
    decreases |rows|
  {
    var last := |rows| - 1;
    if i < last {
      assert rows[last].id != rows[i].id;
      forall j | i < j < last ensures rows[..last][j].id != rows[i].id { assert rows[j].id != rows[i].id; }
      RowMapFindsLast(rows[..last], i);
    }
  }

  /** From the dense results on: the facts' rows, the ranking, the first few, and their rows. */
  method SearchEntityFactsCore(cfg: Config, sort: KeySort, similar: seq<Dense>, limit: nat, query: string, driverRows: seq<DriverRow>)
    returns (r: seq<Ranked>)
    requires IsConfig(cfg) && IsKeySort(sort)
    ensures exists order :: IsSearch(cfg, similar, limit, query, RowMap(driverRows), r, order)
  {
    if similar == [] {
      assert IsSearch(cfg, similar, limit, query, RowMap(driverRows), [], []);
      return [];
    }
    var ids := DenseIds(similar);
    var sims := SimilarityMap(similar);
    var factRows, content := FetchContentMaps(driverRows);
    var order, rank := RankCandidates(cfg, sort, ids, sims, query, content);
    r := BuildFactRows(Take(order, limit), factRows, content, sims, rank);
    assert IsSearch(cfg, similar, limit, query, RowMap(driverRows), r, order);
  }

  ghost predicate IsSearch(cfg: Config, similar: seq<Dense>, limit: nat, query: string, rows: map<FactId, DriverRow>,
                           r: seq<Ranked>, order: seq<FactId>) {
    var ids, sims, content := DenseIds(similar), SimilarityMap(similar), ContentMap(rows);
    var rank := PythonRank(cfg, ids, sims, query, content);
    && IsOrder(ids, order, sims, rank, query)
    && r == Built(Take(order, limit), rows, content, sims, rank)
  }

  // ---------- agreement with the Rust core ----------

  /** The facts the Rust core would be given. */
  function FactsOf(rows: map<FactId, DriverRow>): map<FactId, FactRow> {
    map id | id in rows && rows[id].content.Some? :: RowOf(id, rows, rows[id].content.value)
  }

  predicate AllHaveContent(ids: seq<FactId>, content: map<FactId, string>) {
    forall id :: id in ids ==> id in content
  }

  lemma {:induction false} CandidatesMatch(similar: seq<Dense>, rows: map<FactId, DriverRow>)
    requires AllHaveContent(DenseIds(similar), ContentMap(rows))
    ensures |CandidatesOf(FactsOf(rows), similar)| == |similar|
    ensures forall i :: 0 <= i < |similar| ==>
      CandidatesOf(FactsOf(rows), similar)[i] == Candidate(FactsOf(rows)[DenseIds(similar)[i]], similar[i].score)
    decreases |similar|
  {
    if similar != [] {
      var ids := DenseIds(similar);
      assert ids == [similar[0].id] + DenseIds(similar[1..]);
      CandidatesMatch(similar[1..], rows);
    }
  }

  lemma {:induction false} BuiltScores(ids: seq<FactId>, rows: map<FactId, DriverRow>, content: map<FactId, string>,
                                       sims: map<FactId, real>, rank: map<FactId, real>)
    requires AllHaveContent(ids, content) && forall id :: id in ids ==> id in rank
    ensures Map(RANK_SCORE, Built(ids, rows, content, sims, rank)) == Map((id: FactId) => At(rank, id), ids)
    decreases |ids|
  {
    if ids != [] {
      var last := |ids| - 1;
      assert ids == ids[..last] + [ids[last]];
      BuiltScores(ids[..last], rows, content, sims, rank);
    }
  }

  lemma DocumentsMatch(similar: seq<Dense>, rows: map<FactId, DriverRow>)
    requires AllHaveContent(DenseIds(similar), ContentMap(rows))
    ensures Documents(CandidatesOf(FactsOf(rows), similar)) == PoolOf(DenseIds(similar), ContentMap(rows))
  {
    var ids, content := DenseIds(similar), ContentMap(rows);
    var candidates := CandidatesOf(FactsOf(rows), similar);
    CandidatesMatch(similar, rows);
    forall i | 0 <= i < |ids| ensures Documents(candidates)[i] == PoolOf(ids, content)[i] {
      assert ids[i] in content;
    }
  }

  /** The rank scores of the Rust core are the Python ones, candidate by candidate. */
  lemma RanksMatch(cfg: Config, similar: seq<Dense>, query: string, rows: map<FactId, DriverRow>)
    requires query != "" && Distinct(DenseIds(similar)) && AllHaveContent(DenseIds(similar), ContentMap(rows))
    ensures var rank := PythonRank(cfg, DenseIds(similar), SimilarityMap(similar), query, ContentMap(rows));
      Map(RANK_SCORE, RankAll(cfg, CandidatesOf(FactsOf(rows), similar), Some(query)))
      == Map((id: FactId) => At(rank, id), DenseIds(similar))
  {
    TwinsCountAlike(cfg.lib, DenseIds(similar), ContentMap(rows));
    DocumentsMatch(similar, rows);
    SimilaritiesMatch(similar, rows);
  }

  lemma SimilaritiesMatch(similar: seq<Dense>, rows: map<FactId, DriverRow>)
    requires Distinct(DenseIds(similar)) && AllHaveContent(DenseIds(similar), ContentMap(rows))
    ensures var candidates := CandidatesOf(FactsOf(rows), similar);
      |candidates| == |similar| && forall i :: 0 <= i < |similar| ==>
        candidates[i].row.id == similar[i].id && At(SimilarityMap(similar), similar[i].id) == candidates[i].score
  {
    CandidatesMatch(similar, rows);
    var candidates, ids := CandidatesOf(FactsOf(rows), similar), DenseIds(similar);
    forall i: nat | i < |similar|
      ensures candidates[i].row.id == similar[i].id
      ensures At(SimilarityMap(similar), similar[i].id) == similar[i].score && candidates[i].score == similar[i].score
    {
      SimilarityOf(similar, i);
      assert ids[i] == similar[i].id && ids[i] in ids;
      assert FactsOf(rows)[ids[i]].id == ids[i];
    }
  }

  /** For a query with text, distinct identifiers and content for all, both programs return the same rank scores. */
  lemma TwinsAgree(cfg: Config, similar: seq<Dense>, limit: nat, query: string, rows: map<FactId, DriverRow>,
                   python: seq<Ranked>, order: seq<FactId>, rust: seq<Ranked>, dropped: seq<Ranked>)
    requires query != "" && Distinct(DenseIds(similar)) && AllHaveContent(DenseIds(similar), ContentMap(rows))
    requires IsSearch(cfg, similar, limit, query, rows, python, order)
    requires KeepsBest(RANK_SCORE, RankAll(cfg, CandidatesOf(FactsOf(rows), similar), Some(query)), rust, dropped, limit)
    ensures Map(RANK_SCORE, python) == Map(RANK_SCORE, rust)
  {
    var ids, sims, content := DenseIds(similar), SimilarityMap(similar), ContentMap(rows);
    RanksMatch(cfg, similar, query, rows);
    BestScoresAreUnique(RANK_SCORE, RankAll(cfg, CandidatesOf(FactsOf(rows), similar), Some(query)), rust, dropped, limit);
    SliceScores(ids, order, limit, rows, content, sims, PythonRank(cfg, ids, sims, query, content));
  }

  /** The slice of the sorted identifiers has the first scores of the full ranking. */
  lemma SliceScores(ids: seq<FactId>, order: seq<FactId>, limit: nat, rows: map<FactId, DriverRow>, content: map<FactId, string>,
                    sims: map<FactId, real>, rank: map<FactId, real>)
    requires SortsByKey(rank, sims, ids, order) && AllHaveContent(ids, content) && forall id :: id in ids ==> id in rank
    ensures Map(RANK_SCORE, Built(Take(order, limit), rows, content, sims, rank))
         == Take(SortedDown(Map((id: FactId) => At(rank, id), ids)), limit)
  {
    SortedOrderIsRanking(ids, order, sims, rank);
    SliceIsPart(ids, order, limit);
    BuiltScores(Take(order, limit), rows, content, sims, rank);
    MapTake((id: FactId) => At(rank, id), order, limit);
  }

  lemma SliceIsPart(ids: seq<FactId>, order: seq<FactId>, limit: nat)
    requires multiset(order) == multiset(ids)
    ensures forall id :: id in Take(order, limit) ==> id in ids
  {
    forall id | id in Take(order, limit) ensures id in ids {
      assert id in order;
      assert id in multiset(ids);
    }
  }

  lemma SortedOrderIsRanking(ids: seq<FactId>, order: seq<FactId>, sims: map<FactId, real>, rank: map<FactId, real>)
    requires SortsByKey(rank, sims, ids, order)
    ensures Map((id: FactId) => At(rank, id), order) == SortedDown(Map((id: FactId) => At(rank, id), ids))
  {
    var score := (id: FactId) => At(rank, id);
    MapPermutes(score, order, ids);
    SortedDownSorts(Map(score, ids));
    SortedIsUnique(Map(score, order), SortedDown(Map(score, ids)));
  }
}
