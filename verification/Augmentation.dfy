/**
 The write batch made of an augmentation response, and its way through both embedding passes to the
 database driver.
 */
module Augmentation {
  import opened Wrappers
  import opened Text
  import opened Json
  import opened EmbeddingLayout
  import opened FactEmbeddings
  import WriteOps
  import FactPairing

  /** The parts of the input that end up in a write batch. */
  datatype Input = Input(
    entityId: string, processId: Value, conversationId: Value, content: Option<string>, factId: Value, metadata: Value)

  // ---------- reading the response ----------

  /** The value at `/a/b`, if there is one. */
  function ValueAt(v: Value, a: string, b: string): Option<Value> {
    if HasField(v, a) && HasField(Field(v, a), b) then Some(Field(Field(v, a), b)) else None
  }

  function OrElse(first: Option<Value>, second: Option<Value>): Option<Value> {
    if first.Some? then first else second
  }

  function ArrayOf(v: Option<Value>): Option<seq<Value>> {
    if v.Some? then AsArray(v.value) else None
  }

  /** A fact is a string, or an object with a string as its content. */
  function FactText(item: Value): Option<string> {
    if item.Str? then Some(item.s) else AsString(Field(item, "content"))
  }

  /** A subject or object is a string, or an object with a name. */
  function TripleValue(v: Value): Option<string> {
    match v
    case Str(s) => Some(s)
    case Obj(_) => AsString(Field(v, "name"))
    case _ => None
  }

  /** The sentence of a triple: its content, or its three parts in a row. */
  function TripleText(triple: Value): Option<string> {
    var content := AsString(Field(triple, "content"));
    var subject, predicate_, object_ :=
      TripleValue(Field(triple, "subject")), AsString(Field(triple, "predicate")), TripleValue(Field(triple, "object"));
    if content.Some? then content
    else if subject.Some? && predicate_.Some? && object_.Some?
    then Some(subject.value + " " + predicate_.value + " " + object_.value)
    else None
  }

  function TextsOf(read: Value -> Option<string>, items: seq<Value>): seq<string> {
    if items == [] then []
    else (if read(items[0]).Some? then [read(items[0]).value] else []) + TextsOf(read, items[1..])
  }

  method CollectTexts(read: Value -> Option<string>, items: seq<Value>) returns (texts: seq<string>)
    ensures texts == TextsOf(read, items)
  {
    texts := [];
    for i := 0 to |items|
      invariant texts + TextsOf(read, items[i..]) == TextsOf(read, items)
    {
      if read(items[i]).Some? {
        texts := texts + [read(items[i]).value];
      }
    }
  }

  /** The listed facts, or else the sentences of the triples; none if there is nothing in either. */
  function ExtractFacts(response: Value): (r: Option<seq<string>>)
    ensures r.Some? ==> r.value != []
  {
    var listed := ArrayOf(ValueAt(response, "entity", "facts"));
    var triples := ArrayOf(OrElse(ValueAt(response, "entity", "triples"), ValueAt(response, "entity", "semantic_triples")));
    if listed.Some? && TextsOf(FactText, listed.value) != [] then Some(TextsOf(FactText, listed.value))
    else if triples.Some? && TextsOf(TripleText, triples.value) != [] then Some(TextsOf(TripleText, triples.value))
    else None
  }

  // ---------- the batch ----------

  function FactOp(input: Input, facts: seq<string>): WriteOp {
    WriteOps.WriteOp("entity_fact.create", Obj(map[
      "entity_id" := Str(input.entityId), "conversation_id" := input.conversationId,
      "facts" := Arr(WriteOps.StrValues(facts))]))
  }

  function OptionalOp(present: Option<Value>, make: Value -> WriteOp): seq<WriteOp> {
    if present.Some? then [make(present.value)] else []
  }

  function GraphOps(input: Input, response: Value): seq<WriteOp> {
    OptionalOp(OrElse(ValueAt(response, "entity", "semantic_triples"), ValueAt(response, "entity", "triples")),
               triples => WriteOps.WriteOp("knowledge_graph.create",
                            Obj(map["entity_id" := Str(input.entityId), "semantic_triples" := triples])))
  }

  function AttributeOps(input: Input, response: Value): seq<WriteOp> {
    OptionalOp(ValueAt(response, "process", "attributes"),
               attrs => WriteOps.WriteOp("process_attribute.create",
                          Obj(map["process_id" := input.processId, "attributes" := attrs])))
  }

  function SummaryOps(input: Input, response: Value): seq<WriteOp> {
    OptionalOp(ValueAt(response, "conversation", "summary"),
               summary => WriteOps.WriteOp("conversation.update",
                            Obj(map["conversation_id" := input.conversationId, "summary" := summary])))
  }

  /** The operations besides new facts, in order. */
  function OtherOps(input: Input, response: Value): seq<WriteOp> {
    GraphOps(input, response) + AttributeOps(input, response) + SummaryOps(input, response)
  }

  function BuildWriteBatch(input: Input, response: Value): seq<WriteOp> {
    var facts := ExtractFacts(response);
    var ops := (if facts.Some? then [FactOp(input, facts.value)] else []) + OtherOps(input, response);
    if ops == [] && input.content.Some? then
      [WriteOps.WriteOp("upsert_fact", Obj(map[
        "entity_id" := Str(input.entityId), "fact_id" := input.factId,
        "content" := Str(input.content.value), "metadata" := input.metadata]))]
    else ops
  }

  /** New facts are in the first operation and in no other. */
  lemma FactsComeFirst(input: Input, response: Value)
    ensures var ops := BuildWriteBatch(input, response); var facts := ExtractFacts(response);
      && (facts.Some? ==> ops != [] && ops[0] == FactOp(input, facts.value))
      && forall i :: 0 <= i < |ops| && ops[i].opType == "entity_fact.create" ==> i == 0 && facts.Some?
  {
    forall op | op in OtherOps(input, response) ensures op.opType != "entity_fact.create" { }
  }

  // ---------- to the driver ----------

  lemma {:induction false} StringsOfValues(facts: seq<string>)
    ensures Strings(WriteOps.StrValues(facts)) == facts
    decreases |facts|
  {
    if facts != [] {
      assert WriteOps.StrValues(facts)[1..] == WriteOps.StrValues(facts[1..]);
      StringsOfValues(facts[1..]);
    }
  }

  lemma FactOpHoldsFacts(input: Input, facts: seq<string>)
    ensures FactTexts(FactOp(input, facts).payload) == facts
    ensures AsArray(Field(FactOp(input, facts).payload, "facts")) == Some(WriteOps.StrValues(facts))
    ensures !HasField(FactOp(input, facts).payload, "fact_embeddings")
  {
    StringsOfValues(facts);
    assert "fact_embeddings" !in FactOp(input, facts).payload.fields.Keys by {
      assert "fact_embeddings"[5] != "conversation_id"[5];
    }
  }

  /**
   From the response to the driver: the facts that are not blank arrive, each with the vector of its
   own text, or with none if it has nothing visible.
   */
  lemma ResponseFactsReachTheDriver(host: WriteOps.Host, m: Model, input: Input, response: Value, e: Embedded)
    requires ExtractFacts(response).Some?
    requires IsModel(m) && IsAnswer(m, Embeddable(ExtractFacts(response).value), e)
    requires CanAttach(m, ExtractFacts(response).value, e)
    ensures var facts := ExtractFacts(response).value; var op := BuildWriteBatch(input, response)[0];
      FactPairing.DeliveredRows(host, Attached(op, e)) == RowsFor(m, WriteOps.KeptFacts(WriteOps.StrValues(facts)))
  {
    var facts := ExtractFacts(response).value;
    FactOpHoldsFacts(input, facts);
    SomethingVisible(m, facts);
    AttachedRowsReachTheDriver(host, m, FactOp(input, facts), e);
  }

  lemma SomethingVisible(m: Model, facts: seq<string>)
    requires RowsHaveSignal(TextVectors(m, Embeddable(facts)))
    ensures Embeddable(facts) != []
  {
  }
}
