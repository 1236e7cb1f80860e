/**
 Retrieval from the storage bridge: validation, the dense stage, the facts behind it and the final
 ranking; and when the two stages together are as good as ranking everything.
 */
module Retrieval {
  import opened Wrappers
  import opened Text
  import opened Vectors
  import opened Sequences
  import opened TopK
  import opened Bm25
  import opened Lexical
  import opened Search

  datatype HostError = HostError(code: string)

  datatype RetrievalError = InvalidInput(reason: string) | BridgeError(error: HostError)

  datatype EmbeddingRow = EmbeddingRow(id: FactId, embedding: Vector, base64: Option<string>)

  datatype Request = Request(entityId: string, queryText: string, denseLimit: nat, limit: nat)

  /** The host's storage and the decoding of stored embeddings. */
  datatype Bridge = Bridge(
    fetchEmbeddings: (string, nat) -> Result<seq<EmbeddingRow>, HostError>,
    fetchFacts: seq<FactId> -> Result<seq<FactRow>, HostError>,
    decodeBase64: string -> Option<seq<int>>,
    parse: seq<int> -> Vector)

  /** Four bytes make a number. */
  ghost predicate IsBridge(bridge: Bridge) {
    forall bytes :: |bridge.parse(bytes)| == |bytes| / 4
  }

  // ---------- reading a row ----------

  function RowToEmbedding(bridge: Bridge, row: EmbeddingRow): Result<Embedding, HostError> {
    if row.embedding != [] then Ok(Embedding(row.id, row.embedding))
    else if row.base64.None? then Err(HostError("missing_embedding_data"))
    else
      var bytes := bridge.decodeBase64(row.base64.value);
      if bytes.None? then Err(HostError("invalid_embedding_base64"))
      else if |bytes.value| % 4 != 0 then Err(HostError("invalid_embedding_bytes"))
      else if bridge.parse(bytes.value) == [] then Err(HostError("empty_embedding"))
      else Ok(Embedding(row.id, bridge.parse(bytes.value)))
  }

  /** What is wrong with a row that has no embedding of its own, given what its text decodes to. */
  function ErrorFor(base64: Option<string>, bytes: Option<seq<int>>): string {
    if base64.None? then "missing_embedding_data"
    else if bytes.None? then "invalid_embedding_base64"
    else if bytes.value == [] then "empty_embedding"
    else "invalid_embedding_bytes"
  }

  /**
   A row that is accepted has an embedding: its own, or the decoded one if it has none itself. Each way
   to have neither has an error of its own.
   */
  lemma AcceptedRows(bridge: Bridge, row: EmbeddingRow)
    requires IsBridge(bridge)
    ensures var r := RowToEmbedding(bridge, row);
      && (r.Ok? ==> r.value.id == row.id && r.value.vector != [] && (row.embedding != [] ==> r.value.vector == row.embedding))
      && (r.Err? <==> row.embedding == [] && (row.base64.Some? ==>
            var bytes := bridge.decodeBase64(row.base64.value);
            bytes.Some? ==> |bytes.value| == 0 || |bytes.value| % 4 != 0))
    ensures var r := RowToEmbedding(bridge, row);
      r.Ok? && row.embedding == [] ==>
        && row.base64.Some? && bridge.decodeBase64(row.base64.value).Some?
        && r.value.vector == bridge.parse(bridge.decodeBase64(row.base64.value).value)
    ensures var r := RowToEmbedding(bridge, row);
      r.Err? ==> r.error.code == ErrorFor(row.base64, if row.base64.Some? then bridge.decodeBase64(row.base64.value) else None)
  {
  }

  /** Row `i` cannot be read, and every row before it can. */
  predicate IsFirstError(bridge: Bridge, rows: seq<EmbeddingRow>, i: int, error: HostError) {
    && 0 <= i < |rows| && RowToEmbedding(bridge, rows[i]) == Err(error)
    && forall j :: 0 <= j < i ==> RowToEmbedding(bridge, rows[j]).Ok?
  }

  /** All rows, or the error of the first that cannot be read. */
  function ReadRows(bridge: Bridge, rows: seq<EmbeddingRow>): (r: Result<seq<Embedding>, HostError>)
    ensures r.Ok? ==> |r.value| == |rows|
    ensures r.Ok? ==> forall i :: 0 <= i < |rows| ==> RowToEmbedding(bridge, rows[i]) == Ok(r.value[i])
    ensures r.Err? ==> exists i :: IsFirstError(bridge, rows, i, r.error)
  {
    if rows == [] then Ok([])
    else
      var first := RowToEmbedding(bridge, rows[0]);
      if first.Err? then
        assert IsFirstError(bridge, rows, 0, first.error);
        Err(first.error)
      else
        var rest := ReadRows(bridge, rows[1..]);
        if rest.Err? then
          var i :| IsFirstError(bridge, rows[1..], i, rest.error);
          assert IsFirstError(bridge, rows, i + 1, rest.error);
          Err(rest.error)
        else Ok([first.value] + rest.value)
  }

  method ValidateEmbeddingDimensions(query: Vector, candidates: seq<Embedding>) returns (r: Option<HostError>)
    ensures r.None? <==> forall i :: 0 <= i < |candidates| ==> |candidates[i].vector| == |query|
    ensures r.Some? ==> r.value == HostError("invalid_embedding_dimension")
  {
    for i := 0 to |candidates|
      invariant forall j :: 0 <= j < i ==> |candidates[j].vector| == |query|
    {
      if |candidates[i].vector| != |query| {
        return Some(HostError("invalid_embedding_dimension"));
      }
    }
    r := None;
  }

  // ---------- the size of the candidate pool ----------

  const USIZE_MAX := 0xFFFF_FFFF_FFFF_FFFF

  /** How many rows the dense stage keeps. */
  function DynamicCandidateLimit(limit: nat, rowsLoaded: nat): (r: nat)
    ensures r >= limit
  {
    var scaled := if limit * 10 <= USIZE_MAX then limit * 10 else USIZE_MAX;
    var floor := if scaled > 50 then scaled else 50;
    var bounded := if rowsLoaded < floor then rowsLoaded else floor;
    if limit > bounded then limit else bounded
  }

  /** Every row is kept if there are at most fifty or ten times the limit; no others are, unless the limit asks for it. */
  lemma KeepsAllRows(limit: nat, rowsLoaded: nat)
    requires limit <= USIZE_MAX && rowsLoaded <= USIZE_MAX
    ensures rowsLoaded <= DynamicCandidateLimit(limit, rowsLoaded) <==> rowsLoaded <= 50 || rowsLoaded <= limit * 10
  {
  }

  /**
   How many are kept: all that were loaded, but no more than fifty or ten times the limit, whichever
   is more, and never fewer than the limit; ten times a huge limit stops at the largest number there is.
   */
  lemma PoolSize(limit: nat, rowsLoaded: nat)
    requires limit <= USIZE_MAX
    ensures var kept := DynamicCandidateLimit(limit, rowsLoaded);
      && (rowsLoaded <= limit ==> kept == limit)
      && (limit <= rowsLoaded <= 50 || limit <= rowsLoaded <= limit * 10 <= USIZE_MAX ==> kept == rowsLoaded)
      && (rowsLoaded >= 50 && limit <= 5 ==> kept == 50)
      && (rowsLoaded >= limit * 10 && 5 <= limit && limit * 10 <= USIZE_MAX ==> kept == limit * 10)
      && (limit * 10 > USIZE_MAX && limit <= rowsLoaded ==> kept == if rowsLoaded <= USIZE_MAX then rowsLoaded else USIZE_MAX)
  {
  }

  // ---------- facts ----------

  /** The rows by identifier; of two rows with one identifier the later counts. */
  function FactMap(rows: seq<FactRow>): map<FactId, FactRow> {
    if rows == [] then map[]
    else
      var last := |rows| - 1;
      FactMap(rows[..last])[rows[last].id := rows[last]]
  }

  /** Row `i` is the last one with its identifier. */
  predicate IsLastWithId(rows: seq<FactRow>, i: nat)
    requires i < |rows|
  {
    forall j :: i < j < |rows| ==> rows[j].id != rows[i].id
  }

  /** An identifier stands for the last of its rows. */
  lemma {:induction false} FactMapFindsLast(rows: seq<FactRow>, i: nat)
    requires i < |rows| && IsLastWithId(rows, i)
    ensures rows[i].id in FactMap(rows) && FactMap(rows)[rows[i].id] == rows[i]
    decreases |rows|
  {
    var last := |rows| - 1;
    if i < last {
      assert rows[last].id != rows[i].id;
      forall j | i < j < last ensures rows[..last][j].id != rows[i].id { assert rows[j].id != rows[i].id; }
      FactMapFindsLast(rows[..last], i);
    }
  }

  lemma {:induction false} FactMapHoldsRows(rows: seq<FactRow>, id: FactId)
    requires id in FactMap(rows)
    ensures FactMap(rows)[id] in rows && FactMap(rows)[id].id == id
    decreases |rows|
  {
    var last := |rows| - 1;
    if id != rows[last].id { FactMapHoldsRows(rows[..last], id); }
  }

  function CandidateOf(facts: map<FactId, FactRow>): Dense -> seq<Candidate> {
    (d: Dense) => if d.id in facts then [Candidate(facts[d.id], d.score)] else []
  }

  /** The dense results that have a fact, with it. */
  function CandidatesOf(facts: map<FactId, FactRow>, dense: seq<Dense>): seq<Candidate> {
    FlatMap(CandidateOf(facts), dense)
  }

  function DenseIds(dense: seq<Dense>): seq<FactId> { Map((d: Dense) => d.id, dense) }

  /** What the bridge answers for some identifiers is what the store has of them. */
  ghost predicate IsHonest(bridge: Bridge, store: map<FactId, FactRow>) {
    && (forall id :: id in store ==> store[id].id == id)
    && forall ids :: bridge.fetchFacts(ids).Ok? ==> HasExactly(FactMap(bridge.fetchFacts(ids).value), store, ids)
  }

  predicate HasExactly(facts: map<FactId, FactRow>, store: map<FactId, FactRow>, ids: seq<FactId>) {
    forall id :: id in ids ==> (id in facts <==> id in store) && (id in store ==> facts[id] == store[id])
  }

  lemma {:induction false} OnlyAskedForMatters(facts: map<FactId, FactRow>, store: map<FactId, FactRow>, dense: seq<Dense>)
    requires HasExactly(facts, store, DenseIds(dense))
    ensures CandidatesOf(facts, dense) == CandidatesOf(store, dense)
    decreases |dense|
  {
    if dense != [] {
      assert DenseIds(dense)[0] == dense[0].id;
      assert DenseIds(dense)[1..] == DenseIds(dense[1..]);
      OnlyAskedForMatters(facts, store, dense[1..]);
    }
  }

  // ---------- retrieval ----------

  /** Nothing is looked up: the request or the embedding of the query asks for nothing. */
  predicate AsksForNothing(request: Request, query: Vector) {
    request.denseLimit == 0 || request.limit == 0 || query == []
  }

  /** The result of both stages over these embeddings. */
  ghost predicate IsTwoStage(cfg: Config, store: map<FactId, FactRow>, scored: seq<Dense>, queryText: string, limit: nat,
                             result: seq<Ranked>, dense: seq<Dense>) {
    && (exists dropped :: KeepsBest(SIMILARITY, scored, dense, dropped, DynamicCandidateLimit(limit, |scored|)))
    && (exists dropped :: KeepsBest(RANK_SCORE, RankAll(cfg, CandidatesOf(store, dense), Some(queryText)), result, dropped, limit))
  }

  /** Both stages over embeddings that have passed validation. */
  method TwoStage(cfg: Config, bridge: Bridge, denseSorting: Sorting<Dense>, rankSorting: Sorting<Ranked>,
                  embeddings: seq<Embedding>, request: Request, query: Vector, ghost store: map<FactId, FactRow>)
    returns (r: Result<seq<Ranked>, HostError>, ghost dense: seq<Dense>)
    requires IsConfig(cfg) && IsHonest(bridge, store) && query != [] && request.limit > 0
    requires IsSorting(denseSorting, SIMILARITY) && IsSorting(rankSorting, RANK_SCORE)
    ensures r.Ok? ==> IsTwoStage(cfg, store, Scored(cfg, embeddings, query), request.queryText, request.limit, r.value, dense)
    ensures r.Err? ==> bridge.fetchFacts(DenseIds(dense)) == Err(r.error)
  {
    var candidateLimit := DynamicCandidateLimit(request.limit, |embeddings|);
    var found, droppedDense := FindSimilarEmbeddings(cfg, denseSorting, embeddings, query, candidateLimit);
    dense := found;
    if found == [] {
      assert KeepsBest(RANK_SCORE, RankAll(cfg, CandidatesOf(store, dense), Some(request.queryText)), [], [], request.limit);
      return Ok([]), dense;
    }
    var rows := bridge.fetchFacts(DenseIds(found));
    if rows.Err? {
      return Err(rows.error), dense;
    }
    var facts := FactMap(rows.value);
    OnlyAskedForMatters(facts, store, found);
    var ranked, dropped := SearchFacts(cfg, rankSorting, CandidatesOf(facts, found), request.limit, Some(request.queryText));
    r := Ok(ranked);
  }

  method RunRetrieval(cfg: Config, bridge: Bridge, denseSorting: Sorting<Dense>, rankSorting: Sorting<Ranked>,
                      request: Request, query: Vector, ghost store: map<FactId, FactRow>)
    returns (r: Result<seq<Ranked>, RetrievalError>, ghost scored: seq<Dense>, ghost dense: seq<Dense>)
    requires IsConfig(cfg) && IsHonest(bridge, store)
    requires IsSorting(denseSorting, SIMILARITY) && IsSorting(rankSorting, RANK_SCORE)
    ensures IsBlank(request.queryText) ==> r == Err(InvalidInput("query_text cannot be empty"))
    ensures !IsBlank(request.queryText) && IsBlank(request.entityId) ==> r == Err(InvalidInput("entity_id cannot be empty"))
    ensures r.Err? && r.error.InvalidInput? ==> IsBlank(request.queryText) || IsBlank(request.entityId)
    ensures !IsBlank(request.queryText) && !IsBlank(request.entityId) && AsksForNothing(request, query) ==> r == Ok([])
    ensures r.Err? && r.error.BridgeError? ==>
      var rows := bridge.fetchEmbeddings(request.entityId, request.denseLimit);
      || rows == Err(r.error.error)
      || (rows.Ok? && ReadRows(bridge, rows.value) == Err(r.error.error))
      || (rows.Ok? && ReadRows(bridge, rows.value).Ok? && r.error.error == HostError("invalid_embedding_dimension"))
      || bridge.fetchFacts(DenseIds(dense)) == Err(r.error.error)
    ensures r.Ok? && !AsksForNothing(request, query) ==>
      var rows := bridge.fetchEmbeddings(request.entityId, request.denseLimit);
      && rows.Ok? && ReadRows(bridge, rows.value).Ok?
      && var embeddings := ReadRows(bridge, rows.value).value;
        && (forall i :: 0 <= i < |embeddings| ==> |embeddings[i].vector| == |query|)
        && scored == Scored(cfg, embeddings, query)
        && IsTwoStage(cfg, store, scored, request.queryText, request.limit, r.value, dense)
  {
    scored, dense := [], [];
    if IsBlank(request.queryText) {
      return Err(InvalidInput("query_text cannot be empty")), scored, dense;
    }
    if IsBlank(request.entityId) {
      return Err(InvalidInput("entity_id cannot be empty")), scored, dense;
    }
    if request.denseLimit == 0 || request.limit == 0 || query == [] {
      return Ok([]), scored, dense;
    }
    var rows := bridge.fetchEmbeddings(request.entityId, request.denseLimit);
    if rows.Err? {
      return Err(BridgeError(rows.error)), scored, dense;
    }
    var embeddings := ReadRows(bridge, rows.value);
    if embeddings.Err? {
      return Err(BridgeError(embeddings.error)), scored, dense;
    }
    var mismatch := ValidateEmbeddingDimensions(query, embeddings.value);
    if mismatch.Some? {
      return Err(BridgeError(mismatch.value)), scored, dense;
    }
    scored := Scored(cfg, embeddings.value, query);
    var found;
    found, dense := TwoStage(cfg, bridge, denseSorting, rankSorting, embeddings.value, request, query, store);
    r := match found case Ok(ranked) => Ok(ranked) case Err(e) => Err(BridgeError(e));
  }

  // ---------- exactness ----------

  /** One stage: every row that has a fact, ranked. */
  ghost function OneStage(cfg: Config, store: map<FactId, FactRow>, scored: seq<Dense>, queryText: string): seq<Ranked> {
    RankAll(cfg, CandidatesOf(store, scored), Some(queryText))
  }

  lemma {:induction false} DistinctFacts(store: map<FactId, FactRow>, dense: seq<Dense>)
    requires Distinct(DenseIds(dense)) && forall id :: id in store ==> store[id].id == id
    ensures DistinctRows(CandidatesOf(store, dense))
    ensures forall id :: id in Ids(Documents(CandidatesOf(store, dense))) ==> id in DenseIds(dense)
    decreases |dense|
  {
    if dense != [] {
      var ids := DenseIds(dense);
      assert ids == [dense[0].id] + DenseIds(dense[1..]);
      assert Distinct(DenseIds(dense[1..])) by {
        forall i, j | 0 <= i < j < |dense| - 1 ensures DenseIds(dense[1..])[i] != DenseIds(dense[1..])[j] {
          assert ids[i + 1] != ids[j + 1];
        }
      }
      DistinctFacts(store, dense[1..]);
      var rest := CandidatesOf(store, dense[1..]);
      if dense[0].id in store {
        var c := Candidate(store[dense[0].id], dense[0].score);
        assert Ids(Documents([c] + rest)) == [dense[0].id] + Ids(Documents(rest));
        assert dense[0].id !in DenseIds(dense[1..]);
      }
    }
  }

  /** The dense stage has dropped nothing. */
  lemma NothingDropped(scored: seq<Dense>, dense: seq<Dense>, dropped: seq<Dense>, limit: nat)
    requires KeepsBest(SIMILARITY, scored, dense, dropped, limit) && |scored| <= limit
    ensures multiset(dense) == multiset(scored)
  {
    SameLength(dense + dropped, scored);
    assert dropped == [] && dense + dropped == dense;
  }

  /**
   With distinct identifiers, and no more rows than fifty or ten times the limit, two stages give
   the scores that ranking every row that has a fact would give.
   */
  lemma TwoStagesAreExact(cfg: Config, store: map<FactId, FactRow>, scored: seq<Dense>, queryText: string, limit: nat,
                          result: seq<Ranked>, dense: seq<Dense>)
    requires IsTwoStage(cfg, store, scored, queryText, limit, result, dense)
    requires Distinct(DenseIds(scored)) && forall id :: id in store ==> store[id].id == id
    requires limit <= USIZE_MAX && |scored| <= USIZE_MAX && (|scored| <= 50 || |scored| <= limit * 10)
    ensures Map(RANK_SCORE, result) == Take(SortedDown(Map(RANK_SCORE, OneStage(cfg, store, scored, queryText))), limit)
  {
    var candidateLimit := DynamicCandidateLimit(limit, |scored|);
    KeepsAllRows(limit, |scored|);
    var droppedDense :| KeepsBest(SIMILARITY, scored, dense, droppedDense, candidateLimit);
    NothingDropped(scored, dense, droppedDense, candidateLimit);
    MapPermutes((d: Dense) => d.id, scored, dense);
    DistinctPermutes(DenseIds(scored), DenseIds(dense));
    DistinctFacts(store, scored);
    DistinctFacts(store, dense);
    FlatMapPermutes(CandidateOf(store), scored, dense);
    RankingIgnoresCandidateOrder(cfg, CandidatesOf(store, dense), CandidatesOf(store, scored), Some(queryText));
    var all := RankAll(cfg, CandidatesOf(store, dense), Some(queryText));
    var dropped :| KeepsBest(RANK_SCORE, all, result, dropped, limit);
    BestScoresAreUnique(RANK_SCORE, all, result, dropped, limit);
  }
}
