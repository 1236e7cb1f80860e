/**
 Facts and embeddings stay paired through both passes of a write: whatever reaches the driver is
 either without embeddings or has, at each position, the row that belongs to that fact.
 */
module FactPairing {
  import opened Wrappers
  import opened Text
  import opened Json
  import opened WriteOps

  function VectorsOf(vector: string -> seq<real>, texts: seq<string>): seq<seq<real>> {
    seq(|texts|, i requires 0 <= i < |texts| => vector(texts[i]))
  }

  ghost predicate EmbedsVisible(host: Host, vector: string -> seq<real>) {
    forall texts :: host.embed(texts) == VectorsOf(vector, Embeddable(texts))
  }

  // ---------- what filtering does to positions ----------

  lemma {:induction false} KeptAlongLength(items: seq<Value>, others: seq<Value>)
    requires |items| == |others|
    ensures |KeptAlong(items, others)| == |KeptFacts(items)| <= |items|
    ensures !HasBlank(items) && |KeptFacts(items)| == |items| ==> KeptAlong(items, others) == others
    decreases |items|
  {
    if items != [] {
      KeptAlongLength(items[1..], others[1..]);
      if !HasBlank(items) { NoBlankBehind(items); }
      hide HasBlank, FactOf;
      assert others == [others[0]] + others[1..];
    }
  }

  lemma NoBlankBehind(items: seq<Value>)
    requires items != [] && !HasBlank(items)
    ensures !HasBlank(items[1..])
  {
    forall i | 0 <= i < |items[1..]| && items[1..][i].Str? ensures !IsBlank(items[1..][i].s) {
      assert items[1..][i] == items[i + 1];
    }
  }

  /** Filtering a second time changes nothing. */
  lemma {:induction false} KeptFactsIdempotent(items: seq<Value>)
    ensures KeptFacts(StrValues(KeptFacts(items))) == KeptFacts(items)
    decreases |items|
  {
    if items != [] {
      KeptFactsIdempotent(items[1..]);
      if FactOf(items[0]).Some? {
        var values := StrValues(KeptFacts(items));
        assert values[1..] == StrValues(KeptFacts(items[1..]));
        assert values[0] == Str(FactOf(items[0]).value) && FactOf(values[0]) == FactOf(items[0]);
        assert KeptFacts(items)[1..] == KeptFacts(items[1..]);
      } else {
        assert KeptFacts(items) == KeptFacts(items[1..]);
      }
    }
  }

  lemma RowsRoundTrip(rows: seq<seq<real>>)
    ensures Rows(RowValues(rows)) == rows
  {
    forall i | 0 <= i < |rows| ensures Rows(RowValues(rows))[i] == rows[i] {
      RowRoundTrip(rows[i]);
    }
  }

  /** The facts that are kept are the strings that are not blank, in order, each with its own neighbour. */
  lemma {:induction false} KeptInOrder(items: seq<Value>, others: seq<Value>, v: Value, other: Value)
    requires |items| == |others|
    ensures KeptFacts(items + [v]) == KeptFacts(items) + if v.Str? && !IsBlank(v.s) then [v.s] else []
    ensures KeptAlong(items + [v], others + [other])
         == KeptAlong(items, others) + if v.Str? && !IsBlank(v.s) then [other] else []
    decreases |items|
  {
    if items == [] {
      assert items + [v] == [v] && [v][1..] == [] && others + [other] == [other] && [other][1..] == [];
    } else {
      assert (items + [v])[1..] == items[1..] + [v] && (others + [other])[1..] == others[1..] + [other];
      KeptInOrder(items[1..], others[1..], v, other);
    }
  }

  // ---------- the pairing of one operation ----------

  /** The rows the caller sent along, if it sent one for every item. */
  function CallerRows(payload: Value): Option<seq<seq<real>>> {
    var items := AsArray(Field(payload, "facts"));
    var rows := AsArray(Field(payload, "fact_embeddings"));
    if items.Some? && rows.Some? && |items.value| == |rows.value|
    then Some(Rows(KeptAlong(items.value, rows.value))) else None
  }

  /** Row i is the one the caller sent for fact i, or the embedder's vector for fact i. */
  ghost predicate IsPaired(payload: Value, facts: seq<string>, rows: seq<seq<real>>, vector: string -> seq<real>) {
    || rows == []
    || rows == VectorsOf(vector, facts)
    || (CallerRows(payload) == Some(rows) && |rows| == |facts|)
  }

  /** What the second pass hands to the driver for a fact operation that went through the first. */
  function DeliveredRows(host: Host, op: WriteOp): seq<seq<real>>
    requires op.opType == "entity_fact.create"
  {
    var p := PrecomputeOp(host, op).payload;
    var stored := AsArray(Field(p, "fact_embeddings"));
    if stored.None? then [] else FactEmbeddings(host, stored.value, KeptFactsOf(p))
  }

  /** The first pass loses no fact and always leaves embeddings behind, so their absence is never an error. */
  lemma PrecomputedOpIsComplete(host: Host, op: WriteOp)
    requires op.opType == "entity_fact.create"
    ensures var p := PrecomputeOp(host, op).payload;
      && KeptFactsOf(p) == KeptFactsOf(op.payload)
      && (KeptFactsOf(p) != [] ==> AsArray(Field(p, "fact_embeddings")).Some?)
  {
    var items := AsArray(Field(op.payload, "facts"));
    if items.Some? {
      KeptFactsIdempotent(items.value);
    }
  }

  lemma FreshRowsArePaired(host: Host, vector: string -> seq<real>, facts: seq<string>)
    requires EmbedsVisible(host, vector) && facts != []
    ensures |host.embed(facts)| == |facts| <==> AllEmbeddable(facts)
    ensures AllEmbeddable(facts) ==> host.embed(facts) == VectorsOf(vector, facts)
  {
    EmbeddableCounts(facts);
  }

  /**
   Pairing holds for every payload. Rows are withheld exactly when the caller's own rows cannot be
   used and some kept fact is invisible to the embedder.
   */
  lemma DeliveredRowsArePaired(host: Host, vector: string -> seq<real>, op: WriteOp)
    requires op.opType == "entity_fact.create" && EmbedsVisible(host, vector) && KeptFactsOf(op.payload) != []
    ensures IsPaired(op.payload, KeptFactsOf(op.payload), DeliveredRows(host, op), vector)
    ensures DeliveredRows(host, op) == [] || |DeliveredRows(host, op)| == |KeptFactsOf(op.payload)|
    ensures DeliveredRows(host, op) == [] <==> !UsesCallerRows(op.payload) && !AllEmbeddable(KeptFactsOf(op.payload))
    ensures UsesCallerRows(op.payload) ==> Some(DeliveredRows(host, op)) == CallerRows(op.payload)
  {
    var facts := KeptFactsOf(op.payload);
    var items := AsArray(Field(op.payload, "facts")).value;
    PrecomputedOpIsComplete(host, op);
    FreshRowsArePaired(host, vector, facts);
    RowsRoundTrip(host.embed(facts));
    var rows := AsArray(Field(op.payload, "fact_embeddings"));
    if rows.Some? && |rows.value| == |items| {
      KeptAlongLength(items, rows.value);
    }
  }

  /** The caller's rows are used if they line up with the items and filtering keeps them lined up. */
  predicate UsesCallerRows(payload: Value) {
    var items := AsArray(Field(payload, "facts"));
    var rows := AsArray(Field(payload, "fact_embeddings"));
    && items.Some? && rows.Some? && |items.value| == |rows.value|
    && (HasBlank(items.value) || |KeptFacts(items.value)| == |items.value|)
  }

  // ---------- the pairing of a whole batch ----------

  /** The fact call `c` carries what operation `op`, as the caller wrote it, asks for. */
  ghost predicate CarriesFactsOf(c: DriverCall, op: WriteOp, vector: string -> seq<real>)
    requires c.EntityFactCreate?
  {
    || (op.opType == "entity_fact.create"
        && c.facts == KeptFactsOf(op.payload) && c.facts != []
        && IsPaired(op.payload, c.facts, c.embeddings, vector)
        && (c.embeddings == [] || |c.embeddings| == |c.facts|))
    || (op.opType == "upsert_fact"
        && FactOf(Field(op.payload, "content")).Some?
        && var content := FactOf(Field(op.payload, "content")).value;
          && c.facts == [content]
          && (c.embeddings == []
              || (!HasField(op.payload, "content_embedding") && c.embeddings == [vector(content)])
              || (HasField(op.payload, "content_embedding")
                  && c.embeddings == [Row(Field(op.payload, "content_embedding"))])))
  }

  /** Every fact call of the log that is not in `before` comes from one of the operations. */
  ghost predicate FactCallsFrom(log: seq<DriverCall>, before: seq<DriverCall>, ops: seq<WriteOp>, vector: string -> seq<real>) {
    forall c :: c in log && c.EntityFactCreate? && c !in before ==>
      exists k :: 0 <= k < |ops| && CarriesFactsOf(c, ops[k], vector)
  }

  lemma UpsertRow(host: Host, vector: string -> seq<real>, op: WriteOp)
    requires op.opType == "upsert_fact" && EmbedsVisible(host, vector) && FactOf(Field(op.payload, "content")).Some?
    ensures var p := PrecomputeOp(host, op).payload; var content := FactOf(Field(op.payload, "content")).value;
      && Field(p, "content") == Str(content)
      && Field(p, "entity_id") == Field(op.payload, "entity_id")
      && (HasField(op.payload, "content_embedding") ==> p == op.payload)
      && (!HasField(op.payload, "content_embedding") ==>
            Row(Field(p, "content_embedding")) == if IsEmbeddable(content) then vector(content) else [])
  {
    var content := FactOf(Field(op.payload, "content")).value;
    EmbeddableCounts([content]);
    var rows := host.embed([content]);
    assert Embeddable([content]) == if IsEmbeddable(content) then [content] else [];
    RowRoundTrip(if rows == [] then [] else rows[0]);
  }

  /** The calls other than the last touch no fact. */
  lemma MessagesAddNoFact(d: Driver, log: seq<DriverCall>, conversation: int, messages: seq<Value>)
    ensures forall c :: c in WriteMessages(d, log, conversation, messages).log && c.EntityFactCreate? ==> c in log
    decreases |messages|
  {
  }

  /** What a fact operation sends to the driver. */
  lemma EntityFactLog(host: Host, d: Driver, log: seq<DriverCall>, payload: Value)
    ensures forall c :: c in ExecuteEntityFacts(host, d, log, payload).log && c.EntityFactCreate? ==>
      c in log || (c.facts == KeptFactsOf(payload) && c.facts != [] && AsArray(Field(payload, "fact_embeddings")).Some?
                   && c.embeddings == FactEmbeddings(host, AsArray(Field(payload, "fact_embeddings")).value, c.facts))
  {
    hide FactEmbeddings, KeptFactsOf;
  }

  lemma EntityFactCalls(host: Host, vector: string -> seq<real>, d: Driver, log: seq<DriverCall>, op: WriteOp)
    requires EmbedsVisible(host, vector) && op.opType == "entity_fact.create"
    ensures forall c :: c in ExecuteEntityFacts(host, d, log, PrecomputeOp(host, op).payload).log && c.EntityFactCreate? ==>
      c in log || CarriesFactsOf(c, op, vector)
  {
    PrecomputedOpIsComplete(host, op);
    EntityFactLog(host, d, log, PrecomputeOp(host, op).payload);
    hide ExecuteEntityFacts, PrecomputeOp, KeptFactsOf, IsPaired, FactEmbeddings;
    if KeptFactsOf(op.payload) != [] {
      DeliveredRowsArePaired(host, vector, op);
    }
  }

  lemma UpsertFactCalls(host: Host, vector: string -> seq<real>, d: Driver, log: seq<DriverCall>, op: WriteOp)
    requires EmbedsVisible(host, vector) && op.opType == "upsert_fact"
    ensures forall c :: c in ExecuteUpsert(d, log, PrecomputeOp(host, op).payload).log && c.EntityFactCreate? ==>
      c in log || CarriesFactsOf(c, op, vector)
  {
    if FactOf(Field(op.payload, "content")).Some? {
      UpsertRow(host, vector, op);
    }
  }

  /** A counted upsert has handed over the caller's row, or else the embedder's vector of its content; none only if that is empty. */
  lemma UpsertDelivers(host: Host, vector: string -> seq<real>, d: Driver, log: seq<DriverCall>, op: WriteOp)
    requires EmbedsVisible(host, vector) && op.opType == "upsert_fact"
    requires ExecuteUpsert(d, log, PrecomputeOp(host, op).payload).result == Ok(true)
    ensures var o := ExecuteUpsert(d, log, PrecomputeOp(host, op).payload); var content := FactOf(Field(op.payload, "content"));
      && content.Some? && o.log != [] && o.log[|o.log| - 1].EntityFactCreate?
      && o.log[|o.log| - 1].facts == [content.value]
      && var row := if HasField(op.payload, "content_embedding") then Row(Field(op.payload, "content_embedding"))
                    else if IsEmbeddable(content.value) then vector(content.value) else [];
        o.log[|o.log| - 1].embeddings == if row == [] then [] else [row]
  {
    var content := FactOf(Field(op.payload, "content"));
    ContentStays(host, op);
    if content.Some? { UpsertRow(host, vector, op); }
  }

  lemma ContentStays(host: Host, op: WriteOp)
    requires op.opType == "upsert_fact"
    ensures Field(PrecomputeOp(host, op).payload, "content") == Field(op.payload, "content")
  {
    assert "content" != "content_embedding";
  }

  lemma MessageCalls(d: Driver, log: seq<DriverCall>, payload: Value)
    ensures forall c :: c in ExecuteMessages(d, log, payload).log && c.EntityFactCreate? ==> c in log
  {
    var messages := AsArray(Field(payload, "messages"));
    if messages.Some? {
      forall id, l { MessagesAddNoFact(d, l, id, messages.value); }
    }
  }

  lemma OtherCalls(host: Host, d: Driver, log: seq<DriverCall>, payload: Value)
    ensures forall c :: c in ExecuteKnowledgeGraph(d, log, payload).log && c.EntityFactCreate? ==> c in log
    ensures forall c :: c in ExecuteProcessAttributes(host, d, log, payload).log && c.EntityFactCreate? ==> c in log
    ensures forall c :: c in ExecuteConversationUpdate(d, log, payload).log && c.EntityFactCreate? ==> c in log
  {
  }

  lemma OpFactCalls(host: Host, vector: string -> seq<real>, d: Driver, log: seq<DriverCall>, op: WriteOp)
    requires EmbedsVisible(host, vector)
    ensures forall c :: c in ExecuteOp(host, d, log, PrecomputeOp(host, op)).log && c.EntityFactCreate? ==>
      c in log || CarriesFactsOf(c, op, vector)
  {
    var p := PrecomputeOp(host, op).payload;
    if op.opType == "entity_fact.create" {
      EntityFactCalls(host, vector, d, log, op);
    } else if op.opType == "upsert_fact" {
      UpsertFactCalls(host, vector, d, log, op);
    } else if op.opType == "conversation_message.create" {
      MessageCalls(d, log, p);
    } else {
      OtherCalls(host, d, log, p);
    }
  }

  /** In a whole batch, every fact call is paired with the operation it came from. */
  lemma {:induction false} BatchFactCalls(host: Host, vector: string -> seq<real>, d: Driver, log: seq<DriverCall>, ops: seq<WriteOp>)
    requires EmbedsVisible(host, vector)
    ensures FactCallsFrom(RunOps(ExecutorOn(host, d), log, PrecomputeEmbeddings(host, ops)).log, log, ops, vector)
    decreases |ops|
  {
    if ops != [] {
      var all := PrecomputeEmbeddings(host, ops);
      assert all[1..] == PrecomputeEmbeddings(host, ops[1..]);
      OpFactCalls(host, vector, d, log, ops[0]);
      var first := ExecuteOp(host, d, log, all[0]);
      if first.result.Ok? {
        BatchFactCalls(host, vector, d, first.log, ops[1..]);
        var out := RunOps(ExecutorOn(host, d), first.log, all[1..]).log;
        forall c | c in out && c.EntityFactCreate? && c !in log
          ensures exists k :: 0 <= k < |ops| && CarriesFactsOf(c, ops[k], vector)
        {
          if c in first.log {
            assert CarriesFactsOf(c, ops[0], vector);
          } else {
            var k :| 0 <= k < |ops[1..]| && CarriesFactsOf(c, ops[1..][k], vector);
            assert ops[k + 1] == ops[1..][k];
          }
        }
      } else {
        forall c | c in first.log && c.EntityFactCreate? && c !in log
          ensures exists k :: 0 <= k < |ops| && CarriesFactsOf(c, ops[k], vector)
        {
          assert CarriesFactsOf(c, ops[0], vector);
        }
      }
    }
  }
}
