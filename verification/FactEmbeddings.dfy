/**
 Attaching embeddings to the facts of a write batch: the visible facts are embedded in one call and
 the vectors scattered back to the positions they came from.
 */
module FactEmbeddings {
  import opened Wrappers
  import opened Text
  import opened Json
  import opened Vectors
  import opened EmbeddingLayout
  import WriteOps
  import FactPairing

  type WriteOp = WriteOps.WriteOp

  const USIZE_MAX := 0xFFFF_FFFF_FFFF_FFFF

  /** What the embedder answers: a buffer and its shape. */
  datatype Embedded = Embedded(flat: Vector, rows: nat, cols: nat)

  // ---------- the shape of the buffer ----------

  function SaturatingMul(a: nat, b: nat): nat {
    if a * b <= USIZE_MAX then a * b else USIZE_MAX
  }

  function ChunksExact(flat: Vector, cols: nat): seq<Vector>
    requires cols > 0
  {
    if |flat| < cols then [] else [flat[..cols]] + ChunksExact(flat[cols..], cols)
  }

  function Reshape(e: Embedded): seq<Vector> {
    if e.rows == 0 || e.cols == 0 || |e.flat| != SaturatingMul(e.rows, e.cols) then []
    else ChunksExact(e.flat, e.cols)
  }

  predicate HaveLength(rows: seq<Vector>, dim: nat) {
    forall v :: v in rows ==> |v| == dim
  }

  lemma {:induction false} ChunksOfConcat(rows: seq<Vector>, dim: nat)
    requires dim > 0 && HaveLength(rows, dim)
    ensures ChunksExact(Concat(rows), dim) == rows
    decreases |rows|
  {
    if rows != [] {
      ChunksOfConcat(rows[1..], dim);
      assert Concat(rows)[..dim] == rows[0] && Concat(rows)[dim..] == Concat(rows[1..]);
    }
  }

  /** Reshaping undoes flattening, unless the rows are empty or the size does not fit a machine word. */
  lemma ReshapeUndoesConcat(rows: seq<Vector>, dim: nat)
    requires rows != [] && HaveLength(rows, dim)
    ensures var back := Reshape(Embedded(Concat(rows), |rows|, dim));
      && (dim > 0 && |rows| * dim <= USIZE_MAX ==> back == rows)
      && (dim == 0 || |rows| * dim > USIZE_MAX ==> back == [])
  {
    ConcatLength(rows, dim);
    if dim > 0 { ChunksOfConcat(rows, dim); }
  }

  // ---------- one operation ----------

  predicate HasSignal(row: Vector) {
    exists i :: 0 <= i < |row| && row[i] != 0.0
  }

  predicate RowsHaveSignal(rows: seq<Vector>) {
    rows != [] && forall i :: 0 <= i < |rows| ==> HasSignal(rows[i])
  }

  /** Rows say something if there are any and none of them is zero throughout. */
  lemma SignalMeansNoZeroRow(rows: seq<Vector>)
    ensures RowsHaveSignal(rows) <==> rows != [] && forall row :: row in rows ==> !IsZero(row)
  {
    forall row ensures HasSignal(row) <==> !IsZero(row) { }
  }

  function Strings(items: seq<Value>): seq<string> {
    if items == [] then []
    else (if items[0].Str? then [items[0].s] else []) + Strings(items[1..])
  }

  /** The payload's facts; anything that is not a string is passed over. */
  function FactTexts(payload: Value): seq<string> {
    var items := AsArray(Field(payload, "facts"));
    if items.Some? then Strings(items.value) else []
  }

  /** The operations that are looked at: new facts that came without embeddings. */
  predicate WantsEmbeddings(op: WriteOp) {
    && op.opType == "entity_fact.create" && op.payload.Obj?
    && !HasField(op.payload, "fact_embeddings")
    && Embeddable(FactTexts(op.payload)) != []
  }

  /** How many of the first `n` facts are visible. */
  function Rank(facts: seq<string>, n: nat): (r: nat)
    requires n <= |facts|
    ensures r <= n
  {
    if n == 0 then 0 else Rank(facts, n - 1) + if IsEmbeddable(facts[n - 1]) then 1 else 0
  }

  /** The vectors dealt out to the visible facts in turn; the others stay empty. */
  function Aligned(facts: seq<string>, vectors: seq<Vector>): (r: seq<Vector>)
    requires |vectors| == Rank(facts, |facts|)
  {
    seq(|facts|, i requires 0 <= i < |facts| =>
      if IsEmbeddable(facts[i]) then RankGrows(facts, i, |facts|); vectors[Rank(facts, i)] else [])
  }

  lemma {:induction false} RankGrows(facts: seq<string>, i: nat, n: nat)
    requires i < n <= |facts| && IsEmbeddable(facts[i])
    ensures Rank(facts, i) < Rank(facts, n)
    decreases n
  {
    if i < n - 1 { RankGrows(facts, i, n - 1); }
  }

  lemma {:induction false} EmbeddableConcat(a: seq<string>, b: seq<string>)
    ensures Embeddable(a + b) == Embeddable(a) + Embeddable(b)
    decreases |a|
  {
    if a == [] {
      assert a + b == b;
    } else {
      assert (a + b)[1..] == a[1..] + b;
      EmbeddableConcat(a[1..], b);
    }
  }

  lemma {:induction false} RankCounts(facts: seq<string>, n: nat)
    requires n <= |facts|
    ensures |Embeddable(facts[..n])| == Rank(facts, n)
    decreases n
  {
    if n > 0 {
      RankCounts(facts, n - 1);
      assert facts[..n] == facts[..n - 1] + [facts[n - 1]];
      EmbeddableConcat(facts[..n - 1], [facts[n - 1]]);
    }
  }

  /** Visible fact `i` is the one that comes at its rank among the embedded texts. */
  lemma RankFinds(facts: seq<string>, i: nat)
    requires i < |facts| && IsEmbeddable(facts[i])
    ensures Rank(facts, i) < |Embeddable(facts)| && Embeddable(facts)[Rank(facts, i)] == facts[i]
  {
    RankCounts(facts, i);
    assert facts == facts[..i] + ([facts[i]] + facts[i + 1..]);
    ComesAfter(facts[..i], facts[i], facts[i + 1..]);
  }

  lemma ComesAfter(a: seq<string>, x: string, b: seq<string>)
    requires IsEmbeddable(x)
    ensures var all := Embeddable(a + ([x] + b)); |Embeddable(a)| < |all| && all[|Embeddable(a)|] == x
  {
    EmbeddableConcat(a, [x] + b);
    assert ([x] + b)[0] == x;
  }

  lemma AllRanked(facts: seq<string>)
    ensures |Embeddable(facts)| == Rank(facts, |facts|)
  {
    RankCounts(facts, |facts|);
    assert facts[..|facts|] == facts;
  }

  function WithRows(op: WriteOp, rows: seq<Vector>): WriteOp {
    op.(payload := WithField(op.payload, "fact_embeddings", Arr(WriteOps.RowValues(rows))))
  }

  /** What becomes of an operation whose visible facts were answered with `e`. */
  function Attached(op: WriteOp, e: Embedded): WriteOp {
    if !WantsEmbeddings(op) then op
    else
      var facts := FactTexts(op.payload);
      var rows := Reshape(e);
      AllRanked(facts);
      if |rows| == |Embeddable(facts)| && RowsHaveSignal(rows) then WithRows(op, Aligned(facts, rows)) else op
  }

  /** The positions of the visible facts among the first `n`. */
  function Positions(facts: seq<string>, n: nat): (r: seq<nat>)
    requires n <= |facts|
    ensures |r| == Rank(facts, n)
    ensures forall k :: 0 <= k < |r| ==> r[k] < n && IsEmbeddable(facts[r[k]]) && Rank(facts, r[k]) == k
  {
    if n == 0 then []
    else Positions(facts, n - 1) + if IsEmbeddable(facts[n - 1]) then [n - 1] else []
  }

  /** Ranks tell visible facts apart. */
  lemma RankIsUnique(facts: seq<string>, i: nat, j: nat)
    requires i < |facts| && j < |facts| && IsEmbeddable(facts[i]) && IsEmbeddable(facts[j])
    requires Rank(facts, i) == Rank(facts, j)
    ensures i == j
  {
    if i < j { RankGrows(facts, i, j); }
    if j < i { RankGrows(facts, j, i); }
  }

  /** The entry of fact `i` after the first `k` vectors have been dealt out. */
  function Dealt(facts: seq<string>, vectors: seq<Vector>, k: nat, i: nat): Vector
    requires k <= |vectors| && i < |facts|
  {
    if IsEmbeddable(facts[i]) && Rank(facts, i) < k then vectors[Rank(facts, i)] else []
  }

  lemma DealOne(facts: seq<string>, vectors: seq<Vector>, k: nat, p: nat)
    requires k < |vectors| && p < |facts| && IsEmbeddable(facts[p]) && Rank(facts, p) == k
    ensures Dealt(facts, vectors, k + 1, p) == vectors[k]
    ensures forall i: nat :: i < |facts| && i != p ==> Dealt(facts, vectors, k + 1, i) == Dealt(facts, vectors, k, i)
  {
    forall i: nat | i < |facts| && i != p ensures Dealt(facts, vectors, k + 1, i) == Dealt(facts, vectors, k, i) {
      if IsEmbeddable(facts[i]) && Rank(facts, i) == k { RankIsUnique(facts, i, p); }
    }
  }

  lemma AllDealt(facts: seq<string>, vectors: seq<Vector>)
    requires |vectors| == Rank(facts, |facts|)
    ensures forall i: nat :: i < |facts| ==> Dealt(facts, vectors, |vectors|, i) == Aligned(facts, vectors)[i]
  {
    forall i: nat | i < |facts| && IsEmbeddable(facts[i]) ensures Rank(facts, i) < |vectors| {
      RankGrows(facts, i, |facts|);
    }
  }

  /** Writes vector `k` at the position of the `k`-th visible fact. */
  method Scatter(facts: seq<string>, vectors: seq<Vector>) returns (r: seq<Vector>)
    requires |vectors| == Rank(facts, |facts|)
    ensures r == Aligned(facts, vectors)
  {
    var positions := Positions(facts, |facts|);
    var aligned := new Vector[|facts|](_ => []);
    for k := 0 to |vectors|
      invariant forall i: nat :: i < |facts| ==> aligned[i] == Dealt(facts, vectors, k, i)
    {
      DealOne(facts, vectors, k, positions[k]);
      aligned[positions[k]] := vectors[k];
    }
    AllDealt(facts, vectors);
    r := aligned[..];
  }

  method AttachToOp(op: WriteOp, embed: seq<string> -> Embedded) returns (r: WriteOp)
    ensures r == Attached(op, embed(Embeddable(FactTexts(op.payload))))
  {
    r := op;
    if op.opType != "entity_fact.create" || !op.payload.Obj? || HasField(op.payload, "fact_embeddings") {
      return;
    }
    var facts := FactTexts(op.payload);
    var embeddable := Embeddable(facts);
    if facts == [] || embeddable == [] {
      return;
    }
    var embedded := Reshape(embed(embeddable));
    if |embedded| != |embeddable| || !RowsHaveSignal(embedded) {
      return;
    }
    AllRanked(facts);
    var aligned := Scatter(facts, embedded);
    r := WithRows(op, aligned);
  }

  /** The embedder may answer differently from call to call; `embed` is told which operation asks. */
  method AttachEntityFactEmbeddings(batch: seq<WriteOp>, embed: (nat, seq<string>) -> Embedded) returns (ops: seq<WriteOp>)
    ensures |ops| == |batch|
    ensures forall i: nat :: i < |batch| ==> ops[i] == AttachedAt(batch, embed, i)
  {
    ops := batch;
    for i := 0 to |batch|
      invariant |ops| == |batch|
      invariant forall j: nat :: j < i ==> ops[j] == AttachedAt(batch, embed, j)
      invariant forall j :: i <= j < |batch| ==> ops[j] == batch[j]
    {
      var op := AttachToOp(ops[i], texts => embed(i, texts));
      ops := ops[i := op];
    }
  }

  function AttachedAt(batch: seq<WriteOp>, embed: (nat, seq<string>) -> Embedded, i: nat): WriteOp
    requires i < |batch|
  {
    Attached(batch[i], embed(i, Embeddable(FactTexts(batch[i].payload))))
  }

  // ---------- together with the embedding pipeline ----------

  /** What the embedding pipeline promises about its answer. */
  predicate IsAnswer(m: Model, texts: seq<string>, e: Embedded) {
    && e.rows == |Embeddable(texts)| && e.cols == m.dim
    && (e.flat == Concat(TextVectors(m, Embeddable(texts))) || e.flat == Concat(ZeroVectors(e.rows, e.cols)))
  }

  method Embed(m: Model, outages: Outages, texts: seq<string>) returns (e: Embedded)
    requires IsModel(m)
    ensures IsAnswer(m, texts, e)
    ensures !NothingWorks(outages, |Embeddable(texts)|) ==> e.flat == Concat(TextVectors(m, Embeddable(texts)))
  {
    var flat, rows, cols := EmbedTexts(m, outages, texts);
    e := Embedded(flat, rows, cols);
  }

  /** Reshaped, an answer with vectors in it lists the vectors of the visible texts, in order. */
  lemma AnswerListsVisibleTexts(m: Model, texts: seq<string>, e: Embedded)
    requires IsModel(m) && m.dim > 0 && IsAnswer(m, texts, e) && |e.flat| <= USIZE_MAX
    requires e.flat == Concat(TextVectors(m, Embeddable(texts)))
    ensures Reshape(e) == FactPairing.VectorsOf(text => Document(m, PlanText(m, text)), Embeddable(texts))
  {
    var visible := Embeddable(texts);
    TextVectorsHaveDimension(m, visible);
    ConcatLength(TextVectors(m, visible), m.dim);
    if visible != [] { ReshapeUndoesConcat(TextVectors(m, visible), m.dim); }
  }

  /** The row of one fact: its vector, or nothing if it has nothing visible. */
  function RowFor(m: Model, text: string): Vector {
    if IsEmbeddable(text) then Document(m, PlanText(m, text)) else []
  }

  function RowsFor(m: Model, texts: seq<string>): seq<Vector> {
    seq(|texts|, i requires 0 <= i < |texts| => RowFor(m, texts[i]))
  }

  lemma AlignedRows(m: Model, facts: seq<string>)
    ensures |TextVectors(m, Embeddable(facts))| == Rank(facts, |facts|)
    ensures Aligned(facts, TextVectors(m, Embeddable(facts))) == RowsFor(m, facts)
  {
    AllRanked(facts);
    forall i: nat | i < |facts| && IsEmbeddable(facts[i])
      ensures Rank(facts, i) < |Embeddable(facts)|
      ensures TextVectors(m, Embeddable(facts))[Rank(facts, i)] == RowFor(m, facts[i])
    {
      RankFinds(facts, i);
    }
  }

  /** Keeping the visible texts a second time drops none. */
  lemma {:induction false} EmbeddableTwice(texts: seq<string>)
    ensures Embeddable(Embeddable(texts)) == Embeddable(texts)
    decreases |texts|
  {
    if texts != [] {
      EmbeddableTwice(texts[1..]);
      EmbeddableConcat(if IsEmbeddable(texts[0]) then [texts[0]] else [], Embeddable(texts[1..]));
    }
  }

  /** Every visible fact's vector has a non-zero entry, and the buffer holds them all. */
  predicate CanAttach(m: Model, facts: seq<string>, e: Embedded) {
    && |Embeddable(facts)| * m.dim <= USIZE_MAX
    && e.flat == Concat(TextVectors(m, Embeddable(facts)))
    && RowsHaveSignal(TextVectors(m, Embeddable(facts)))
  }

  /**
   An operation gets either no embeddings or one row for each fact: the fact's own vector, or nothing
   if the fact cannot be embedded. It gets them exactly if every vector says something.
   */
  lemma FactsGetTheirOwnRows(m: Model, op: WriteOp, e: Embedded)
    requires IsModel(m) && IsAnswer(m, Embeddable(FactTexts(op.payload)), e)
    ensures var facts := FactTexts(op.payload);
      Attached(op, e) == if WantsEmbeddings(op) && CanAttach(m, facts, e) then WithRows(op, RowsFor(m, facts)) else op
  {
    var facts := FactTexts(op.payload);
    var texts := Embeddable(facts);
    EmbeddableTwice(facts);
    if texts != [] {
      var vectors, zeros := TextVectors(m, texts), ZeroVectors(|texts|, m.dim);
      TextVectorsHaveDimension(m, texts);
      ReshapeUndoesConcat(vectors, m.dim);
      ReshapeUndoesConcat(zeros, m.dim);
      ZerosHaveNoSignal(|texts|, m.dim);
      AlignedRows(m, facts);
      if m.dim == 0 { assert !HasSignal(vectors[0]); }
    }
  }

  lemma ZerosHaveNoSignal(count: nat, dim: nat)
    requires count > 0
    ensures !RowsHaveSignal(ZeroVectors(count, dim))
  {
    assert !HasSignal(ZeroVectors(count, dim)[0]);
  }

  // ---------- together with the storage manager ----------

  predicate AllStrings(items: seq<Value>) {
    forall i :: 0 <= i < |items| ==> items[i].Str?
  }

  lemma {:induction false} KeptRows(m: Model, items: seq<Value>)
    requires AllStrings(items)
    ensures |Strings(items)| == |items|
    ensures WriteOps.KeptAlong(items, WriteOps.RowValues(RowsFor(m, Strings(items))))
         == WriteOps.RowValues(RowsFor(m, WriteOps.KeptFacts(items)))
    decreases |items|
  {
    if items != [] {
      KeptRows(m, items[1..]);
      OneMoreRow(m, items[0].s, Strings(items[1..]));
      OneMoreRow(m, items[0].s, WriteOps.KeptFacts(items[1..]));
    }
  }

  lemma OneMoreRow(m: Model, text: string, texts: seq<string>)
    ensures var rows := WriteOps.RowValues(RowsFor(m, [text] + texts));
      && rows == [RowValue(RowFor(m, text))] + WriteOps.RowValues(RowsFor(m, texts))
      && rows[1..] == WriteOps.RowValues(RowsFor(m, texts))
  {
    assert ([text] + texts)[0] == text && ([text] + texts)[1..] == texts;
    assert RowsFor(m, [text] + texts) == [RowFor(m, text)] + RowsFor(m, texts);
  }

  /** Rows that came with the operation, one for each item, are the ones delivered. */
  lemma SentRowsAreDelivered(host: WriteOps.Host, op: WriteOp, items: seq<Value>, rows: seq<Vector>)
    requires op.opType == "entity_fact.create" && op.payload.Obj? && |rows| == |items|
    requires AsArray(Field(op.payload, "facts")) == Some(items) && AllStrings(items)
    ensures FactPairing.DeliveredRows(host, WithRows(op, rows)) == WriteOps.Rows(WriteOps.KeptAlong(items, WriteOps.RowValues(rows)))
  {
    var values := WriteOps.RowValues(rows);
    FactPairing.KeptAlongLength(items, values);
    FactPairing.KeptFactsIdempotent(items);
    var p := WithRows(op, rows).payload;
    assert Field(p, "facts") == Field(op.payload, "facts") && Field(p, "fact_embeddings") == Arr(values);
    if !WriteOps.HasBlank(items) { NothingBlankNothingLost(items); }
  }

  lemma {:induction false} NothingBlankNothingLost(items: seq<Value>)
    requires AllStrings(items) && !WriteOps.HasBlank(items)
    ensures |WriteOps.KeptFacts(items)| == |items|
    decreases |items|
  {
    if items != [] {
      forall i | 0 <= i < |items[1..]| ensures !IsBlank(items[1..][i].s) {
        assert items[1..][i] == items[i + 1];
      }
      NothingBlankNothingLost(items[1..]);
    }
  }

  /**
   What is attached to an operation reaches the driver unharmed: after the storage manager has
   dropped the blank facts, the rows handed over are the remaining facts' own.
   */
  lemma AttachedRowsReachTheDriver(host: WriteOps.Host, m: Model, op: WriteOp, e: Embedded)
    requires IsModel(m) && IsAnswer(m, Embeddable(FactTexts(op.payload)), e)
    requires WantsEmbeddings(op) && CanAttach(m, FactTexts(op.payload), e)
    requires AllStrings(AsArray(Field(op.payload, "facts")).value)
    ensures FactPairing.DeliveredRows(host, Attached(op, e)) == RowsFor(m, WriteOps.KeptFactsOf(op.payload))
  {
    FactsGetTheirOwnRows(m, op, e);
    var items := AsArray(Field(op.payload, "facts")).value;
    var kept := WriteOps.KeptFacts(items);
    KeptRows(m, items);
    SentRowsAreDelivered(host, op, items, RowsFor(m, Strings(items)));
    FactPairing.RowsRoundTrip(RowsFor(m, kept));
  }
}
