/**
 What a write batch says of the response it was made from: how facts and triples are read, which
 operation there is for which part of the response, and that each carries that part and no other.
 */
module BatchContents {
  import opened Wrappers
  import opened Json
  import opened Augmentation
  import WriteOps

  // ---------- facts and triples ----------

  /** The two ways in which a service may write a name, and those in which it may write a fact. */
  function WrittenName(s: string, asObject: bool): Value {
    if asObject then Obj(map["name" := Str(s)]) else Str(s)
  }

  function WrittenFact(s: string, asObject: bool): Value {
    if asObject then Obj(map["content" := Str(s)]) else Str(s)
  }

  function WrittenTriple(subject: Value, verb: string, object_: Value): Value {
    Obj(map["subject" := subject, "predicate" := Str(verb), "object" := object_])
  }

  /** A triple reads as its subject, its predicate and its object, in this order; a content of its own comes first. */
  lemma TripleIsRead(subject: string, verb: string, object_: string, a: bool, b: bool, content: string)
    ensures var triple := WrittenTriple(WrittenName(subject, a), verb, WrittenName(object_, b));
      && TripleText(triple) == Some(subject + " " + verb + " " + object_)
      && TripleText(WithField(triple, "content", Str(content))) == Some(content)
  {
    var triple := WrittenTriple(WrittenName(subject, a), verb, WrittenName(object_, b));
    assert "content"[0] == 'c' && "subject"[0] == 's' && "predicate"[0] == 'p' && "object"[0] == 'o';
    assert "content" !in triple.fields;
    assert "subject" != "predicate" && "object" != "subject";
    assert "predicate"[0] != "object"[0];
    assert Field(triple, "subject") == WrittenName(subject, a);
    assert Field(triple, "predicate") == Str(verb);
    assert Field(triple, "object") == WrittenName(object_, b);
  }

  /** Nothing else is read: without a content each of the three parts must be there. */
  lemma IncompleteTripleIsDropped(triple: Value)
    requires TripleText(triple).Some?
    ensures Field(triple, "content").Str?
      || (Field(triple, "predicate").Str? && !Field(triple, "subject").Null? && !Field(triple, "object").Null?)
  {
  }

  lemma FactIsRead(s: string, asObject: bool)
    ensures FactText(WrittenFact(s, asObject)) == Some(s)
  {
  }

  /** Texts are read in order, and an item that cannot be read costs only itself. */
  lemma {:induction false} TextsAreReadInOrder(read: Value -> Option<string>, items: seq<Value>, item: Value)
    ensures TextsOf(read, items + [item]) == TextsOf(read, items) + if read(item).Some? then [read(item).value] else []
    decreases |items|
  {
    if items == [] {
      assert items + [item] == [item] && [item][1..] == [];
    } else {
      assert (items + [item])[1..] == items[1..] + [item];
      TextsAreReadInOrder(read, items[1..], item);
      var first := if read(items[0]).Some? then [read(items[0]).value] else [];
      Regroup(first, TextsOf(read, items[1..]), if read(item).Some? then [read(item).value] else []);
    }
  }

  lemma Regroup(a: seq<string>, b: seq<string>, c: seq<string>)
    ensures a + (b + c) == a + b + c
  {
  }

  function WrittenFacts(facts: seq<string>, asObject: nat -> bool): (r: seq<Value>)
    ensures |r| == |facts|
  {
    seq(|facts|, i requires 0 <= i < |facts| => WrittenFact(facts[i], asObject(i)))
  }

  lemma {:induction false} FactsAreRead(facts: seq<string>, asObject: nat -> bool)
    ensures TextsOf(FactText, WrittenFacts(facts, asObject)) == facts
    decreases |facts|
  {
    if facts != [] {
      var last := |facts| - 1;
      FactsAreRead(facts[..last], asObject);
      assert WrittenFacts(facts, asObject) == WrittenFacts(facts[..last], asObject) + [WrittenFact(facts[last], asObject(last))];
      FactIsRead(facts[last], asObject(last));
      TextsAreReadInOrder(FactText, WrittenFacts(facts[..last], asObject), WrittenFact(facts[last], asObject(last)));
      assert facts == facts[..last] + [facts[last]];
    }
  }

  /** The facts of a response that lists any are those it lists, whatever triples it has. */
  lemma ListedFactsAreTaken(response: Value, facts: seq<string>, asObject: nat -> bool)
    requires facts != [] && HasField(response, "entity") && HasField(Field(response, "entity"), "facts")
    requires Field(Field(response, "entity"), "facts") == Arr(WrittenFacts(facts, asObject))
    ensures ExtractFacts(response) == Some(facts)
  {
    FactsAreRead(facts, asObject);
  }

  /** The triples that facts are taken from: here the shorter name goes first. */
  predicate AreFactTriples(response: Value, items: seq<Value>) {
    if Has(response, "entity", "triples") then response.fields["entity"].fields["triples"] == Arr(items)
    else Has(response, "entity", "semantic_triples") && response.fields["entity"].fields["semantic_triples"] == Arr(items)
  }

  /** There is no list of facts, or none of its items can be read. */
  predicate ListsNoFact(response: Value) {
    Has(response, "entity", "facts") && response.fields["entity"].fields["facts"].Arr? ==>
      forall item :: item in response.fields["entity"].fields["facts"].items ==> FactText(item).None?
  }

  lemma {:induction false} NothingRead(items: seq<Value>)
    requires forall item :: item in items ==> FactText(item).None?
    ensures TextsOf(FactText, items) == []
    decreases |items|
  {
    if items != [] { NothingRead(items[1..]); }
  }

  /** Where no facts are listed they are the sentences of the triples, and there are none without a readable one. */
  lemma TriplesStandIn(response: Value, items: seq<Value>)
    requires ListsNoFact(response) && AreFactTriples(response, items)
    ensures ExtractFacts(response) ==
      if TextsOf(TripleText, items) == [] then None else Some(TextsOf(TripleText, items))
  {
    if Has(response, "entity", "facts") && response.fields["entity"].fields["facts"].Arr? {
      NothingRead(response.fields["entity"].fields["facts"].items);
    }
    hide TextsOf, FactText, TripleText;
  }

  lemma NothingToTakeFrom(response: Value)
    requires ListsNoFact(response) && !Has(response, "entity", "triples") && !Has(response, "entity", "semantic_triples")
    ensures ExtractFacts(response).None?
  {
    if Has(response, "entity", "facts") && response.fields["entity"].fields["facts"].Arr? {
      NothingRead(response.fields["entity"].fields["facts"].items);
    }
    hide TextsOf, FactText, TripleText;
  }

  // ---------- the operations ----------

  predicate Has(response: Value, a: string, b: string) {
    response.Obj? && a in response.fields && response.fields[a].Obj? && b in response.fields[a].fields
  }

  /** The triples of a graph: the longer name goes first. */
  predicate AreTriples(response: Value, v: Value) {
    if Has(response, "entity", "semantic_triples") then v == response.fields["entity"].fields["semantic_triples"]
    else Has(response, "entity", "triples") && v == response.fields["entity"].fields["triples"]
  }

  /** The operation carries its part of the response or of the input, for the input's entity, process or conversation. */
  predicate IsMadeFrom(input: Input, response: Value, op: WriteOps.WriteOp) {
    var p := op.payload;
    match op.opType
    case "entity_fact.create" =>
      && Field(p, "entity_id") == Str(input.entityId) && Field(p, "conversation_id") == input.conversationId
      && ExtractFacts(response).Some? && Field(p, "facts") == Arr(WriteOps.StrValues(ExtractFacts(response).value))
    case "knowledge_graph.create" =>
      Field(p, "entity_id") == Str(input.entityId) && AreTriples(response, Field(p, "semantic_triples"))
    case "process_attribute.create" =>
      && Field(p, "process_id") == input.processId
      && Has(response, "process", "attributes") && Field(p, "attributes") == response.fields["process"].fields["attributes"]
    case "conversation.update" =>
      && Field(p, "conversation_id") == input.conversationId
      && Has(response, "conversation", "summary") && Field(p, "summary") == response.fields["conversation"].fields["summary"]
    case "upsert_fact" =>
      && Field(p, "entity_id") == Str(input.entityId) && Field(p, "fact_id") == input.factId
      && input.content == Some(StringOr(Field(p, "content"), "")) && Field(p, "content").Str?
    case _ => false
  }

  function Place(opType: string): nat {
    match opType
    case "entity_fact.create" => 0
    case "knowledge_graph.create" => 1
    case "process_attribute.create" => 2
    case "conversation.update" => 3
    case _ => 4
  }

  predicate HasOp(ops: seq<WriteOps.WriteOp>, opType: string) {
    exists i :: 0 <= i < |ops| && ops[i].opType == opType
  }

  /** One operation of this kind if there is something to make it from, none if there is not. */
  predicate IsPart(input: Input, response: Value, part: seq<WriteOps.WriteOp>, opType: string, present: bool) {
    && |part| == (if present then 1 else 0)
    && (present ==> part[0].opType == opType && IsMadeFrom(input, response, part[0]))
  }

  lemma FactPart(input: Input, response: Value)
    ensures var facts := ExtractFacts(response);
      IsPart(input, response, if facts.Some? then [FactOp(input, facts.value)] else [], "entity_fact.create", facts.Some?)
  {
    hide ExtractFacts;
    KeysDiffer();
  }

  lemma KeysDiffer()
    ensures "entity_id" != "conversation_id" && "entity_id" != "facts" && "conversation_id" != "facts"
    ensures "entity_id" != "semantic_triples" && "process_id" != "attributes" && "conversation_id" != "summary"
    ensures "entity_id" != "fact_id" && "entity_id" != "content" && "fact_id" != "content" && "metadata" != "content"
    ensures "metadata" != "entity_id" && "metadata" != "fact_id"
  {
    assert "entity_id"[0] == 'e' && "conversation_id"[0] == 'c' && "facts"[0] == 'f' && "semantic_triples"[0] == 's';
    assert "process_id"[0] == 'p' && "attributes"[0] == 'a' && "summary"[0] == 's' && "fact_id"[0] == 'f';
    assert "content"[0] == 'c' && "metadata"[0] == 'm';
  }

  lemma GraphPart(input: Input, response: Value)
    ensures IsPart(input, response, GraphOps(input, response), "knowledge_graph.create",
                   Has(response, "entity", "semantic_triples") || Has(response, "entity", "triples"))
  {
    KeysDiffer();
  }

  lemma AttributePart(input: Input, response: Value)
    ensures IsPart(input, response, AttributeOps(input, response), "process_attribute.create", Has(response, "process", "attributes"))
  {
    KeysDiffer();
  }

  lemma SummaryPart(input: Input, response: Value)
    ensures IsPart(input, response, SummaryOps(input, response), "conversation.update", Has(response, "conversation", "summary"))
  {
    KeysDiffer();
  }

  // ---------- parts in order ----------

  ghost predicate IsOrdered(input: Input, response: Value, ops: seq<WriteOps.WriteOp>, lo: nat, hi: nat) {
    && (forall i :: 0 <= i < |ops| ==> IsMadeFrom(input, response, ops[i]) && lo <= Place(ops[i].opType) < hi)
    && (forall i, j :: 0 <= i < j < |ops| ==> Place(ops[i].opType) < Place(ops[j].opType))
  }

  lemma OrderedConcat(input: Input, response: Value, a: seq<WriteOps.WriteOp>, b: seq<WriteOps.WriteOp>, lo: nat, mid: nat, hi: nat)
    requires lo <= mid <= hi && IsOrdered(input, response, a, lo, mid) && IsOrdered(input, response, b, mid, hi)
    ensures IsOrdered(input, response, a + b, lo, hi)
    ensures forall opType :: HasOp(a + b, opType) <==> HasOp(a, opType) || HasOp(b, opType)
  {
    hide IsMadeFrom, Place;
    forall opType ensures HasOp(a + b, opType) <==> HasOp(a, opType) || HasOp(b, opType) { HasOpConcat(a, b, opType); }
  }

  lemma HasOpConcat(a: seq<WriteOps.WriteOp>, b: seq<WriteOps.WriteOp>, opType: string)
    ensures HasOp(a + b, opType) <==> HasOp(a, opType) || HasOp(b, opType)
  {
    if HasOp(a, opType) {
      var i :| 0 <= i < |a| && a[i].opType == opType;
      assert (a + b)[i] == a[i];
    }
    if HasOp(b, opType) {
      var i :| 0 <= i < |b| && b[i].opType == opType;
      assert (a + b)[|a| + i] == b[i];
    }
  }

  lemma PartIsOrdered(input: Input, response: Value, part: seq<WriteOps.WriteOp>, opType: string, present: bool)
    requires IsPart(input, response, part, opType, present)
    ensures IsOrdered(input, response, part, Place(opType), Place(opType) + 1)
    ensures forall other :: HasOp(part, other) <==> present && other == opType
  {
    hide IsMadeFrom, Place;
    if present { assert part[0].opType == opType; }
  }

  lemma PlacesAscend()
    ensures Place("entity_fact.create") == 0 && Place("knowledge_graph.create") == 1
    ensures Place("process_attribute.create") == 2 && Place("conversation.update") == 3 && Place("upsert_fact") == 4
  {
  }

  /** The kinds of operations there are, for one reason each. */
  ghost predicate HasOpsFor(response: Value, ops: seq<WriteOps.WriteOp>) {
    && (HasOp(ops, "entity_fact.create") <==> ExtractFacts(response).Some?)
    && (HasOp(ops, "knowledge_graph.create") <==> Has(response, "entity", "semantic_triples") || Has(response, "entity", "triples"))
    && (HasOp(ops, "process_attribute.create") <==> Has(response, "process", "attributes"))
    && (HasOp(ops, "conversation.update") <==> Has(response, "conversation", "summary"))
  }

  lemma PartsMakeUp(input: Input, response: Value, f: seq<WriteOps.WriteOp>)
    requires f == if ExtractFacts(response).Some? then [FactOp(input, ExtractFacts(response).value)] else []
    ensures var ops := f + OtherOps(input, response); IsOrdered(input, response, ops, 0, 4) && HasOpsFor(response, ops)
  {
    hide IsMadeFrom, Place, ExtractFacts, Has, IsOrdered, HasOp, IsPart, FactOp, GraphOps, AttributeOps, SummaryOps;
    var g, p, s := GraphOps(input, response), AttributeOps(input, response), SummaryOps(input, response);
    FactPart(input, response);
    GraphPart(input, response);
    AttributePart(input, response);
    SummaryPart(input, response);
    PartIsOrdered(input, response, f, "entity_fact.create", ExtractFacts(response).Some?);
    PartIsOrdered(input, response, g, "knowledge_graph.create",
                  Has(response, "entity", "semantic_triples") || Has(response, "entity", "triples"));
    PartIsOrdered(input, response, p, "process_attribute.create", Has(response, "process", "attributes"));
    PartIsOrdered(input, response, s, "conversation.update", Has(response, "conversation", "summary"));
    PlacesAscend();
    OrderedConcat(input, response, g, p, 1, 2, 3);
    OrderedConcat(input, response, g + p, s, 1, 3, 4);
    OrderedConcat(input, response, f, g + p + s, 0, 1, 4);
    assert OtherOps(input, response) == g + p + s;
    KindsDiffer();
  }

  lemma KindsDiffer()
    ensures "entity_fact.create" != "knowledge_graph.create" && "entity_fact.create" != "process_attribute.create"
    ensures "entity_fact.create" != "conversation.update" && "knowledge_graph.create" != "process_attribute.create"
    ensures "knowledge_graph.create" != "conversation.update" && "process_attribute.create" != "conversation.update"
    ensures "upsert_fact" !in {"entity_fact.create", "knowledge_graph.create", "process_attribute.create", "conversation.update"}
  {
    assert "entity_fact.create"[0] == 'e' && "knowledge_graph.create"[0] == 'k' && "process_attribute.create"[0] == 'p'
        && "conversation.update"[0] == 'c' && "upsert_fact"[0] == 'u';
  }

  /**
   Every operation of the batch is made from its part of the response, at most one of each kind and
   in a fixed order; a part has an operation exactly if the response has it, and the input's own
   content is stored exactly if there is nothing else.
   */
  lemma BatchFollowsTheResponse(input: Input, response: Value)
    ensures var ops := BuildWriteBatch(input, response);
      && IsOrdered(input, response, ops, 0, 5)
      && HasOpsFor(response, ops)
      && (HasOp(ops, "upsert_fact") ==> |ops| == 1)
      && (ops == [] ==> input.content.None?)
  {
    hide IsMadeFrom, ExtractFacts, Has, OtherOps, FactOp, IsPart, BuildWriteBatch, Place, IsOrdered, HasOp, HasOpsFor;
    var facts := ExtractFacts(response);
    var ops := (if facts.Some? then [FactOp(input, facts.value)] else []) + OtherOps(input, response);
    PartsMakeUp(input, response, if facts.Some? then [FactOp(input, facts.value)] else []);
    PlacesAscend();
    if ops == [] && input.content.Some? {
      ContentIsStored(input, response);
      var stored := BuildWriteBatch(input, response);
      PartIsOrdered(input, response, stored, "upsert_fact", true);
      OnlyUpsert(input, response, stored);
    } else {
      NothingIsStoredInstead(input, response);
      NoUpsertBelow(input, response, ops);
    }
  }

  lemma NoUpsertBelow(input: Input, response: Value, ops: seq<WriteOps.WriteOp>)
    requires IsOrdered(input, response, ops, 0, 4)
    ensures IsOrdered(input, response, ops, 0, 5) && !HasOp(ops, "upsert_fact")
  {
    PlacesAscend();
    hide IsMadeFrom, Place;
  }

  lemma OnlyUpsert(input: Input, response: Value, stored: seq<WriteOps.WriteOp>)
    requires HasOpsFor(response, []) && IsPart(input, response, stored, "upsert_fact", true)
    requires IsOrdered(input, response, stored, 4, 5)
    requires forall opType :: HasOp(stored, opType) <==> opType == "upsert_fact"
    ensures IsOrdered(input, response, stored, 0, 5) && HasOpsFor(response, stored) && |stored| == 1
  {
    hide IsMadeFrom, Place, Has, ExtractFacts;
    assert forall opType :: !HasOp([], opType);
    KindsDiffer();
  }

  lemma NothingIsStoredInstead(input: Input, response: Value)
    ensures var facts := ExtractFacts(response);
      var ops := (if facts.Some? then [FactOp(input, facts.value)] else []) + OtherOps(input, response);
      ops != [] || input.content.None? ==> BuildWriteBatch(input, response) == ops
  {
    hide OtherOps, ExtractFacts, FactOp;
  }

  lemma ContentIsStored(input: Input, response: Value)
    requires input.content.Some? && ExtractFacts(response).None? && OtherOps(input, response) == []
    ensures IsPart(input, response, BuildWriteBatch(input, response), "upsert_fact", true)
  {
    KeysDiffer();
    hide OtherOps, ExtractFacts;
  }
}
