/**
 The embedding pipeline: texts become a flat list of chunks, the chunks become vectors in one batch
 or by one of two fallbacks, and the vectors are pooled back to one per text.
 */
module EmbeddingLayout {
  import opened Wrappers
  import opened Text
  import opened Vectors
  import opened Chunking
  import opened Pooling

  datatype TextPlan = Single(text: string) | Multi(chunks: seq<string>)

  /** Where a text's rows are in the flat list. */
  datatype Meta = OneRow(idx: nat) | RowRange(start: nat, len: nat)

  /** The model answers every text with a vector of its dimension, whatever it is batched with. */
  datatype Model = Model(vector: string -> Vector, dim: nat, sqrt: real -> real, tokenizer: Tokenizer, chunkSize: nat)

  /** Which calls to the model fail: the fused batch, the call for document i, the one-by-one pass. */
  datatype Outages = Outages(fused: bool, document: nat -> bool, oneByOne: bool)

  datatype EmbedError = FusedFailed | DocumentFailed | OneByOneFailed | InconsistentDimensions

  ghost predicate IsModel(m: Model) {
    IsSqrt(m.sqrt) && forall t :: |m.vector(t)| == m.dim
  }

  // ---------- what a document's vector is ----------

  function PlanText(m: Model, text: string): TextPlan {
    var chunks := Chunks(m.tokenizer, text, m.chunkSize);
    if chunks.Some? then Multi(chunks.value) else Single(text)
  }

  function Texts(plan: TextPlan): seq<string> {
    match plan
    case Single(text) => [text]
    case Multi(chunks) => chunks
  }

  predicate IsPlan(plan: TextPlan) {
    plan.Multi? ==> plan.chunks != []
  }

  function RowsOf(m: Model, texts: seq<string>): seq<Vector> {
    seq(|texts|, i requires 0 <= i < |texts| => m.vector(texts[i]))
  }

  /** One vector for a text that fits a window, the pooled vectors of its chunks for one that does not. */
  function Document(m: Model, plan: TextPlan): Vector
    requires IsPlan(plan)
  {
    match plan
    case Single(text) => m.vector(text)
    case Multi(chunks) => MeanPool(m.sqrt, RowsOf(m, chunks))
  }

  predicate ArePlans(plans: seq<TextPlan>) {
    forall i :: 0 <= i < |plans| ==> IsPlan(plans[i])
  }

  function Documents(m: Model, plans: seq<TextPlan>): (r: seq<Vector>)
    requires ArePlans(plans)
  {
    seq(|plans|, i requires 0 <= i < |plans| => Document(m, plans[i]))
  }

  function PlanAll(m: Model, texts: seq<string>): (r: seq<TextPlan>)
    ensures ArePlans(r) && |r| == |texts|
  {
    seq(|texts|, i requires 0 <= i < |texts| => PlanText(m, texts[i]))
  }

  /** The vector each text ends up with. */
  function TextVectors(m: Model, texts: seq<string>): seq<Vector> {
    Documents(m, PlanAll(m, texts))
  }

  lemma TextVectorsHaveDimension(m: Model, texts: seq<string>)
    requires IsModel(m)
    ensures forall v :: v in TextVectors(m, texts) ==> |v| == m.dim
  {
  }

  /**
   A text that fits a window has the model's own vector. One that does not has a vector of length one,
   on the side of every query on which its chunks lie together, unless the chunks cancel out.
   */
  lemma VectorsFollowTheirTexts(m: Model, texts: seq<string>, i: nat, query: Vector)
    requires IsModel(m) && i < |texts| && |query| == m.dim
    ensures var v := TextVectors(m, texts)[i]; var chunks := Chunks(m.tokenizer, texts[i], m.chunkSize);
      && |v| == m.dim
      && (chunks.None? ==> v == m.vector(texts[i]))
      && (chunks.Some? ==>
            && AllOfLength(RowsOf(m, chunks.value), m.dim)
            && (Dot(v, query) > 0.0 <==> TotalDot(RowsOf(m, chunks.value), query) > 0.0)
            && (Dot(v, query) < 0.0 <==> TotalDot(RowsOf(m, chunks.value), query) < 0.0)
            && (SumSquares(v) == 1.0 || IsZero(v)))
  {
    var chunks := Chunks(m.tokenizer, texts[i], m.chunkSize);
    if chunks.Some? {
      var rows := RowsOf(m, chunks.value);
      PoolingTakesSides(m.sqrt, rows, query);
      PooledIsUnitOrZero(m.sqrt, rows);
    }
  }

  // ---------- the layout ----------

  function Start(meta: Meta): nat { if meta.OneRow? then meta.idx else meta.start }

  function End(meta: Meta): (e: nat)
    ensures Start(meta) <= e
  {
    if meta.OneRow? then meta.idx + 1 else meta.start + meta.len
  }

  /** The ranges follow one another from 0 to `n`, without gap or overlap. */
  predicate Partitions(metas: seq<Meta>, n: nat) {
    && (forall i: nat :: i < |metas| ==> Follows(metas, i))
    && EndBefore(metas, |metas|) == n
  }

  function EndBefore(metas: seq<Meta>, i: nat): nat
    requires i <= |metas|
  {
    if i == 0 then 0 else End(metas[i - 1])
  }

  predicate Follows(metas: seq<Meta>, i: nat)
    requires i < |metas|
  {
    Start(metas[i]) == EndBefore(metas, i)
  }

  /** The plan's texts are the rows that its range names. */
  predicate Locates(meta: Meta, plan: TextPlan, flat: seq<string>) {
    && (meta.OneRow? <==> plan.Single?)
    && End(meta) <= |flat|
    && flat[Start(meta)..End(meta)] == Texts(plan)
  }

  predicate IsLayout(flat: seq<string>, metas: seq<Meta>, plans: seq<TextPlan>) {
    && |metas| == |plans|
    && Partitions(metas, |flat|)
    && forall i :: 0 <= i < |plans| ==> Locates(metas[i], plans[i], flat)
  }

  method BuildFlatAndMetas(plans: seq<TextPlan>) returns (flat: seq<string>, metas: seq<Meta>)
    ensures IsLayout(flat, metas, plans)
  {
    flat, metas := [], [];
    for i := 0 to |plans|
      invariant IsLayout(flat, metas, plans[..i])
    {
      assert plans[..i + 1] == plans[..i] + [plans[i]];
      match plans[i] {
        case Single(full) =>
          var idx := |flat|;
          LayoutGrows(flat, metas, plans[..i], plans[i], OneRow(idx));
          flat := flat + [full];
          metas := metas + [OneRow(idx)];
        case Multi(chunks) =>
          var start := |flat|;
          LayoutGrows(flat, metas, plans[..i], plans[i], RowRange(start, |chunks|));
          flat := flat + chunks;
          metas := metas + [RowRange(start, |chunks|)];
      }
    }
    assert plans[..|plans|] == plans;
  }

  lemma LayoutGrows(flat: seq<string>, metas: seq<Meta>, plans: seq<TextPlan>, plan: TextPlan, meta: Meta)
    requires IsLayout(flat, metas, plans)
    requires meta == match plan case Single(_) => OneRow(|flat|) case Multi(chunks) => RowRange(|flat|, |chunks|)
    ensures IsLayout(flat + Texts(plan), metas + [meta], plans + [plan])
  {
    PartitionGrows(metas, |flat|, meta);
    assert End(meta) == |flat + Texts(plan)|;
    assert Locates(meta, plan, flat + Texts(plan));
    forall i | 0 <= i < |plans| ensures Locates(metas[i], plans[i], flat + Texts(plan)) {
      LocatesMore(metas[i], plans[i], flat, Texts(plan));
    }
  }

  lemma PartitionGrows(metas: seq<Meta>, n: nat, meta: Meta)
    requires Partitions(metas, n) && Start(meta) == n
    ensures Partitions(metas + [meta], End(meta))
  {
    forall i: nat | i < |metas| + 1 ensures Follows(metas + [meta], i) {
      if i < |metas| { assert Follows(metas, i); }
    }
  }

  lemma LocatesMore(meta: Meta, plan: TextPlan, flat: seq<string>, more: seq<string>)
    requires Locates(meta, plan, flat)
    ensures Locates(meta, plan, flat + more)
  {
    assert (flat + more)[Start(meta)..End(meta)] == flat[Start(meta)..End(meta)];
  }

  /** Every flat row belongs to exactly one text. */
  lemma EveryRowHasOneOwner(metas: seq<Meta>, n: nat, row: nat) returns (owner: nat)
    requires Partitions(metas, n) && row < n
    ensures owner < |metas| && Start(metas[owner]) <= row < End(metas[owner])
    ensures forall i :: 0 <= i < |metas| && Start(metas[i]) <= row < End(metas[i]) ==> i == owner
  {
    owner := 0;
    assert Follows(metas, 0);
    while row >= End(metas[owner])
      invariant owner < |metas| && Start(metas[owner]) <= row
      decreases |metas| - owner
    {
      owner := owner + 1;
      assert Follows(metas, owner);
    }
    forall i | 0 <= i < |metas| && i != owner ensures !(Start(metas[i]) <= row < End(metas[i])) {
      if i < owner { RangesAscend(metas, n, i, owner); } else { RangesAscend(metas, n, owner, i); }
    }
  }

  lemma {:induction false} RangesAscend(metas: seq<Meta>, n: nat, i: nat, j: nat)
    requires Partitions(metas, n) && i < j < |metas|
    ensures End(metas[i]) <= Start(metas[j])
    decreases j
  {
    assert Follows(metas, j);
    if i < j - 1 { RangesAscend(metas, n, i, j - 1); }
  }

  // ---------- the three ways to embed ----------

  /** One document's row, or its rows pooled. */
  method PoolOne(m: Model, raw: seq<Vector>, meta: Meta, ghost flat: seq<string>, ghost plan: TextPlan) returns (v: Vector)
    requires IsPlan(plan) && Locates(meta, plan, flat) && raw == RowsOf(m, flat)
    ensures v == Document(m, plan)
  {
    LocatedRows(m, flat, meta, plan);
    match meta {
      case OneRow(idx) =>
        v := raw[idx];
      case RowRange(start, len) =>
        v := MeanPoolL2(m.sqrt, raw[start..start + len]);
    }
  }

  method PoolBatchResults(m: Model, raw: seq<Vector>, metas: seq<Meta>, ghost flat: seq<string>, ghost plans: seq<TextPlan>)
    returns (out: seq<Vector>)
    requires ArePlans(plans) && IsLayout(flat, metas, plans) && raw == RowsOf(m, flat)
    ensures out == Documents(m, plans)
  {
    out := [];
    for i := 0 to |metas|
      invariant |out| == i && IsStart(out, Documents(m, plans))
    {
      assert Locates(metas[i], plans[i], flat);
      var v := PoolOne(m, raw, metas[i], flat, plans[i]);
      StartGrows(out, Documents(m, plans), v);
      out := out + [v];
    }
    StartIsAll(out, Documents(m, plans));
  }

  lemma LocatedRows(m: Model, flat: seq<string>, meta: Meta, plan: TextPlan)
    requires Locates(meta, plan, flat)
    ensures meta.OneRow? ==> plan.Single? && flat[meta.idx] == plan.text && RowsOf(m, flat)[meta.idx] == m.vector(plan.text)
    ensures meta.RowRange? ==>
      && plan.Multi? && flat[meta.start..End(meta)] == plan.chunks
      && RowsOf(m, flat)[meta.start..End(meta)] == RowsOf(m, plan.chunks)
  {
    RowsOfSlice(m, flat, Start(meta), End(meta));
    assert meta.OneRow? ==> flat[meta.idx] == flat[Start(meta)..End(meta)][0];
  }

  lemma RowsOfSlice(m: Model, texts: seq<string>, lo: nat, hi: nat)
    requires lo <= hi <= |texts|
    ensures RowsOf(m, texts)[lo..hi] == RowsOf(m, texts[lo..hi])
  {
    forall i | 0 <= i < hi - lo ensures RowsOf(m, texts)[lo..hi][i] == RowsOf(m, texts[lo..hi])[i] { }
  }

  method RunBatch(m: Model, outages: Outages, flat: seq<string>, metas: seq<Meta>, ghost plans: seq<TextPlan>)
    returns (r: Result<seq<Vector>, EmbedError>)
    requires ArePlans(plans) && IsLayout(flat, metas, plans)
    ensures r == if outages.fused then Err(FusedFailed) else Ok(Documents(m, plans))
  {
    if outages.fused {
      return Err(FusedFailed);
    }
    var docs := PoolBatchResults(m, RowsOf(m, flat), metas, flat, plans);
    r := Ok(docs);
  }

  predicate SomeDocumentFails(outages: Outages, n: nat) {
    n > 0 && (outages.document(n - 1) || SomeDocumentFails(outages, n - 1))
  }

  lemma {:induction false} OneFailureIsEnough(outages: Outages, i: nat, n: nat)
    requires i < n && outages.document(i)
    ensures SomeDocumentFails(outages, n)
    decreases n
  {
    if i < n - 1 { OneFailureIsEnough(outages, i, n - 1); }
  }

  /** Document `i` of the sequential fallback: a single text alone, or its chunks together. */
  method EmbedDocument(m: Model, fails: bool, flat: seq<string>, metas: seq<Meta>, i: nat, ghost plans: seq<TextPlan>)
    returns (r: Result<Vector, EmbedError>)
    requires ArePlans(plans) && IsLayout(flat, metas, plans) && i < |metas|
    ensures r == if fails then Err(DocumentFailed) else Ok(Document(m, plans[i]))
  {
    if fails {
      return Err(DocumentFailed);
    }
    assert Locates(metas[i], plans[i], flat);
    LocatedRows(m, flat, metas[i], plans[i]);
    match metas[i] {
      case OneRow(idx) =>
        r := Ok(m.vector(flat[idx]));
      case RowRange(start, len) =>
        var pooled := MeanPoolL2(m.sqrt, RowsOf(m, flat[start..start + len]));
        r := Ok(pooled);
    }
  }

  method FallbackSequential(m: Model, outages: Outages, flat: seq<string>, metas: seq<Meta>, ghost plans: seq<TextPlan>)
    returns (r: Result<seq<Vector>, EmbedError>)
    requires ArePlans(plans) && IsLayout(flat, metas, plans)
    ensures r == if SomeDocumentFails(outages, |plans|) then Err(DocumentFailed) else Ok(Documents(m, plans))
  {
    var out: seq<Vector> := [];
    for i := 0 to |metas|
      invariant |out| == i && IsStart(out, Documents(m, plans))
      invariant !SomeDocumentFails(outages, i)
    {
      var emb := EmbedDocument(m, outages.document(i), flat, metas, i, plans);
      if emb.Err? {
        OneFailureIsEnough(outages, i, |plans|);
        return Err(emb.error);
      }
      StartGrows(out, Documents(m, plans), emb.value);
      out := out + [emb.value];
    }
    StartIsAll(out, Documents(m, plans));
    r := Ok(out);
  }

  predicate IsStart(part: seq<Vector>, whole: seq<Vector>) {
    |part| <= |whole| && part == whole[..|part|]
  }

  lemma StartGrows(part: seq<Vector>, whole: seq<Vector>, v: Vector)
    requires IsStart(part, whole) && |part| < |whole| && whole[|part|] == v
    ensures IsStart(part + [v], whole)
  {
  }

  lemma StartIsAll(part: seq<Vector>, whole: seq<Vector>)
    requires IsStart(part, whole) && |part| == |whole|
    ensures part == whole
  {
  }

  /** The one-by-one pass insists that all vectors have one length. */
  method EmbedOneByOne(m: Model, outages: Outages, texts: seq<string>) returns (r: Result<seq<Vector>, EmbedError>)
    requires IsModel(m)
    ensures r == if outages.oneByOne then Err(OneByOneFailed)
                 else if texts == [] then Err(InconsistentDimensions)
                 else Ok(RowsOf(m, texts))
  {
    if outages.oneByOne {
      return Err(OneByOneFailed);
    }
    var results: seq<Vector> := [];
    var dims: set<nat> := {};
    for i := 0 to |texts|
      invariant results == RowsOf(m, texts)[..i]
      invariant dims == if i == 0 then {} else {m.dim}
    {
      results := results + [m.vector(texts[i])];
      dims := dims + {|m.vector(texts[i])|};
    }
    assert RowsOf(m, texts)[..|texts|] == RowsOf(m, texts);
    r := if |dims| != 1 then Err(InconsistentDimensions) else Ok(results);
  }

  method FallbackOneByOne(m: Model, outages: Outages, flat: seq<string>, metas: seq<Meta>, ghost plans: seq<TextPlan>)
    returns (r: Result<seq<Vector>, EmbedError>)
    requires IsModel(m) && ArePlans(plans) && IsLayout(flat, metas, plans)
    ensures r == if outages.oneByOne then Err(OneByOneFailed)
                 else if flat == [] then Err(InconsistentDimensions)
                 else Ok(Documents(m, plans))
  {
    var raw := EmbedOneByOne(m, outages, flat);
    if raw.Err? {
      return Err(raw.error);
    }
    var out := PoolBatchResults(m, raw.value, metas, flat, plans);
    r := Ok(out);
  }

  // ---------- the whole pipeline ----------

  function Concat(rows: seq<Vector>): Vector {
    if rows == [] then [] else rows[0] + Concat(rows[1..])
  }

  lemma {:induction false} ConcatAppend(rows: seq<Vector>, row: Vector)
    ensures Concat(rows + [row]) == Concat(rows) + row
    decreases |rows|
  {
    if rows == [] {
      assert rows + [row] == [row] && [row][1..] == [];
    } else {
      assert (rows + [row])[1..] == rows[1..] + [row];
      ConcatAppend(rows[1..], row);
    }
  }

  lemma {:induction false} ConcatLength(rows: seq<Vector>, dim: nat)
    requires forall v :: v in rows ==> |v| == dim
    ensures |Concat(rows)| == |rows| * dim
    decreases |rows|
  {
    if rows != [] {
      ConcatLength(rows[1..], dim);
      assert |rows| * dim == dim + (|rows| - 1) * dim;
    }
  }

  function ZeroVectors(count: nat, dim: nat): seq<Vector> {
    seq(count, i => seq(dim, k => 0.0))
  }

  /** Every way to embed `n` documents fails. */
  predicate NothingWorks(outages: Outages, n: nat) {
    outages.fused && SomeDocumentFails(outages, n) && outages.oneByOne
  }

  /** That is: the batch fails, some document fails on its own, and the one-by-one pass fails. */
  lemma {:induction false} NothingWorksMeans(outages: Outages, n: nat)
    ensures SomeDocumentFails(outages, n) <==> exists i: nat :: i < n && outages.document(i)
    ensures NothingWorks(outages, n) <==>
      outages.fused && outages.oneByOne && exists i: nat :: i < n && outages.document(i)
    decreases n
  {
    if n > 0 { NothingWorksMeans(outages, n - 1); }
  }

  /**
   The buffer always has rows times columns entries. Whichever way worked, it holds the vectors of
   the texts that can be embedded, in order; only if nothing worked does it hold zeros.
   */
  method EmbedTexts(m: Model, outages: Outages, texts: seq<string>) returns (flatOut: Vector, rows: nat, cols: nat)
    requires IsModel(m)
    ensures rows == |Embeddable(texts)| && cols == m.dim && |flatOut| == rows * cols
    ensures !NothingWorks(outages, rows) ==> flatOut == Concat(TextVectors(m, Embeddable(texts)))
    ensures NothingWorks(outages, rows) ==> flatOut == Concat(ZeroVectors(rows, cols))
  {
    var inputs := Embeddable(texts);
    if inputs == [] {
      return [], 0, m.dim;
    }
    var plans := PlanTexts(m, inputs);
    var docs := EmbedPlans(m, outages, plans);
    TextVectorsHaveDimension(m, inputs);
    ConcatLength(docs, m.dim);
    flatOut := Flatten(docs);
    rows, cols := |inputs|, m.dim;
  }

  method PlanTexts(m: Model, texts: seq<string>) returns (plans: seq<TextPlan>)
    ensures plans == PlanAll(m, texts)
  {
    plans := [];
    for i := 0 to |texts|
      invariant plans == PlanAll(m, texts)[..i]
    {
      var chunks := ChunkTextByTokens(m.tokenizer, texts[i], m.chunkSize);
      plans := plans + [if chunks.Some? then Multi(chunks.value) else Single(texts[i])];
    }
  }

  method EmbedPlans(m: Model, outages: Outages, plans: seq<TextPlan>) returns (docs: seq<Vector>)
    requires IsModel(m) && ArePlans(plans) && plans != []
    ensures docs == if NothingWorks(outages, |plans|) then ZeroVectors(|plans|, m.dim) else Documents(m, plans)
  {
    var flat, metas := BuildFlatAndMetas(plans);
    assert Locates(metas[0], plans[0], flat) && |Texts(plans[0])| > 0;
    var batch := RunBatch(m, outages, flat, metas, plans);
    if batch.Ok? {
      return batch.value;
    }
    var sequential := FallbackSequential(m, outages, flat, metas, plans);
    if sequential.Ok? {
      return sequential.value;
    }
    var single := FallbackOneByOne(m, outages, flat, metas, plans);
    docs := if single.Ok? then single.value else ZeroVectors(|plans|, m.dim);
  }

  method Flatten(rows: seq<Vector>) returns (flat: Vector)
    ensures flat == Concat(rows)
  {
    flat := [];
    for i := 0 to |rows|
      invariant flat == Concat(rows[..i])
    {
      ConcatAppend(rows[..i], rows[i]);
      assert rows[..i + 1] == rows[..i] + [rows[i]];
      flat := flat + rows[i];
    }
    assert rows[..|rows|] == rows;
  }
}
