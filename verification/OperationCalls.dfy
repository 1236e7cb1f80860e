/** What the operations of a batch send to the driver, and what being counted or skipped means. */
module OperationCalls {
  import opened Wrappers
  import opened Text
  import opened Json
  import opened WriteOps

  /** A message as it is stored: a missing role or content is empty, a missing type is text. */
  predicate IsMessageOf(c: DriverCall, message: Value) {
    && c.MessageCreate?
    && c.role == StringOr(Field(message, "role"), "")
    && c.kind == StringOr(Field(message, "type"), "text")
    && c.content == StringOr(Field(message, "content"), "")
  }

  /** The call that carries out the operation, as opposed to those that find or make what it refers to. */
  predicate CarriesOut(host: Host, op: WriteOp, c: DriverCall) {
    match op.opType
    case "conversation_message.create" =>
      var messages := AsArray(Field(op.payload, "messages"));
      messages.Some? && messages.value != [] && IsMessageOf(c, messages.value[|messages.value| - 1])
    case "entity_fact.create" => c.EntityFactCreate? && c.facts == KeptFactsOf(op.payload) && c.facts != []
    case "knowledge_graph.create" =>
      c.KnowledgeGraphCreate? && c.triples != [] && AsArray(Field(op.payload, "semantic_triples")) == Some(c.triples)
    case "process_attribute.create" =>
      c.ProcessAttributeCreate? && c.attributes == Attributes(host, Field(op.payload, "attributes")) && c.attributes != []
    case "conversation.update" =>
      c.ConversationUpdate? && c.summary != "" && Field(op.payload, "summary") == Str(c.summary)
    case "upsert_fact" =>
      c.EntityFactCreate? && FactOf(Field(op.payload, "content")).Some? && c.facts == [FactOf(Field(op.payload, "content")).value]
    case _ => false
  }

  /** A call that finds or makes an entity, a process or a conversation and writes no content. */
  predicate OnlyRefers(c: DriverCall) {
    c.EntityCreate? || c.ProcessCreate? || c.SessionGetId? || c.ConversationGetId?
  }

  predicate OnlyReferring(calls: seq<DriverCall>) {
    forall i :: 0 <= i < |calls| ==> OnlyRefers(calls[i])
  }

  /** One stored call for each message, in order. */
  predicate AreMessagesOf(calls: seq<DriverCall>, messages: seq<Value>) {
    |calls| == |messages| && forall i :: 0 <= i < |messages| ==> IsMessageOf(calls[i], messages[i])
  }

  lemma {:induction false} MessagesAreStoredInOrder(d: Driver, log: seq<DriverCall>, conversation: int, messages: seq<Value>)
    ensures var o := WriteMessages(d, log, conversation, messages);
      && log <= o.log
      && (o.result.Ok? ==> o.result.value && AreMessagesOf(o.log[|log|..], messages))
    decreases |messages|
  {
    if messages != [] {
      var m := messages[0];
      var call := MessageCreate(conversation, StringOr(Field(m, "role"), ""),
                                StringOr(Field(m, "type"), "text"), StringOr(Field(m, "content"), ""));
      var first := Perform(d, log, call);
      if first.result.Ok? {
        MessagesAreStoredInOrder(d, first.log, conversation, messages[1..]);
        var o := WriteMessages(d, first.log, conversation, messages[1..]);
        if o.result.Ok? {
          assert o.log[|log|..] == [call] + o.log[|first.log|..];
        }
      }
    }
  }

  /** How an operation may end, given the calls made before it. */
  ghost predicate EndsWell(host: Host, op: WriteOp, log: seq<DriverCall>, o: Outcome<bool>) {
    && log <= o.log
    && (o.result == Ok(true) ==> |log| < |o.log| && CarriesOut(host, op, o.log[|o.log| - 1]))
    && (o.result == Ok(false) ==> OnlyReferring(o.log[|log|..]))
  }

  lemma MessagesEndWell(host: Host, d: Driver, log: seq<DriverCall>, op: WriteOp)
    requires op.opType == "conversation_message.create"
    ensures EndsWell(host, op, log, ExecuteMessages(d, log, op.payload))
  {
    var o := ExecuteMessages(d, log, op.payload);
    var messages := AsArray(Field(op.payload, "messages"));
    if messages.Some? && messages.value != [] && CoerceId(Field(op.payload, "conversation_id")) != "" {
      var session := RequireId(d, log, SessionCreate(CoerceId(Field(op.payload, "conversation_id")), None, None), "session_create");
      if session.result.Ok? {
        var conv := RequireId(d, session.log, ConversationCreate(session.result.value, 30), "conversation_create");
        if conv.result.Ok? {
          MessagesAreStoredInOrder(d, conv.log, conv.result.value, messages.value);
        }
      }
    }
  }

  lemma FactsEndWell(host: Host, d: Driver, log: seq<DriverCall>, op: WriteOp)
    requires op.opType == "entity_fact.create"
    ensures EndsWell(host, op, log, ExecuteEntityFacts(host, d, log, op.payload))
  {
  }

  lemma UpsertEndsWell(host: Host, d: Driver, log: seq<DriverCall>, op: WriteOp)
    requires op.opType == "upsert_fact"
    ensures EndsWell(host, op, log, ExecuteUpsert(d, log, op.payload))
  {
  }

  lemma GraphEndsWell(host: Host, d: Driver, log: seq<DriverCall>, op: WriteOp)
    requires op.opType == "knowledge_graph.create"
    ensures EndsWell(host, op, log, ExecuteKnowledgeGraph(d, log, op.payload))
  {
  }

  lemma AttributesEndWell(host: Host, d: Driver, log: seq<DriverCall>, op: WriteOp)
    requires op.opType == "process_attribute.create"
    ensures EndsWell(host, op, log, ExecuteProcessAttributes(host, d, log, op.payload))
  {
  }

  lemma UpdateEndsWell(host: Host, d: Driver, log: seq<DriverCall>, op: WriteOp)
    requires op.opType == "conversation.update"
    ensures EndsWell(host, op, log, ExecuteConversationUpdate(d, log, op.payload))
  {
  }

  /** An operation that is counted has sent its own content last; one that is skipped has sent none. */
  lemma CountedMeansCarriedOut(host: Host, d: Driver, log: seq<DriverCall>, op: WriteOp)
    ensures EndsWell(host, op, log, ExecuteOp(host, d, log, op))
  {
    if op.opType == "conversation_message.create" {
      MessagesEndWell(host, d, log, op);
    } else if op.opType == "entity_fact.create" {
      FactsEndWell(host, d, log, op);
    } else if op.opType == "knowledge_graph.create" {
      GraphEndsWell(host, d, log, op);
    } else if op.opType == "process_attribute.create" {
      AttributesEndWell(host, d, log, op);
    } else if op.opType == "conversation.update" {
      UpdateEndsWell(host, d, log, op);
    } else if op.opType == "upsert_fact" {
      UpsertEndsWell(host, d, log, op);
    }
  }

  // ---------- attributes ----------

  /** A scalar's text: numbers as decimals, and nothing for what is no scalar. */
  lemma ScalarsAreWritten(host: Host, v: Value)
    ensures v.Str? ==> ScalarText(host, v) == Some(v.s)
    ensures v.Int? ==> ScalarText(host, v).Some? && ReadDecimal(ScalarText(host, v).value) == v.n
    ensures v.Float? ==> ScalarText(host, v) == Some(host.floatText(v.r))
    ensures v.Bool? ==> ScalarText(host, v) == Some(if v.b then "true" else "false")
    ensures v.Null? || v.Arr? || v.Obj? ==> ScalarText(host, v).None?
  {
    if v.Int? { NumberIsRead(v.n); }
  }

  /** Listed attributes are kept in order, but for blank ones and those that are no scalars. */
  lemma {:induction false} ListIsKeptInOrder(host: Host, items: seq<Value>, v: Value)
    ensures var text := ScalarText(host, v);
      Attributes(host, Arr(items + [v]))
      == Attributes(host, Arr(items)) + if text.Some? && !IsBlank(text.value) then [text.value] else []
    ensures Attributes(host, Arr([])) == []
    decreases |items|
  {
    if items == [] {
      assert items + [v] == [v] && [v][1..] == [];
    } else {
      assert (items + [v])[1..] == items[1..] + [v];
      ListIsKeptInOrder(host, items[1..], v);
    }
  }

  /** Named attributes are written as name and value, in the order of the fields, blank values included. */
  lemma {:induction false} NamesAreKeptInOrder(host: Host, fields: map<string, Value>, keys: seq<string>, key: string)
    requires key in fields
    ensures var text := ScalarText(host, fields[key]);
      NamedAttributes(host, fields, keys + [key])
      == NamedAttributes(host, fields, keys) + if text.Some? then [key + ":" + text.value] else []
    ensures NamedAttributes(host, fields, []) == []
    decreases |keys|
  {
    if keys == [] {
      assert keys + [key] == [key] && [key][1..] == [];
    } else {
      assert (keys + [key])[1..] == keys[1..] + [key];
      NamesAreKeptInOrder(host, fields, keys[1..], key);
    }
  }

  // ---------- how operations end ----------

  /** The payload lacks what the operation is about: an identifier, or something to store. */
  predicate HasNothingToDo(host: Host, op: WriteOp) {
    var p := op.payload;
    match op.opType
    case "conversation_message.create" =>
      CoerceId(Field(p, "conversation_id")) == "" || Field(p, "messages") == Arr([]) || !Field(p, "messages").Arr?
    case "entity_fact.create" => CoerceId(Field(p, "entity_id")) == "" || KeptFactsOf(p) == []
    case "knowledge_graph.create" =>
      CoerceId(Field(p, "entity_id")) == "" || Field(p, "semantic_triples") == Arr([]) || !Field(p, "semantic_triples").Arr?
    case "process_attribute.create" => CoerceId(Field(p, "process_id")) == "" || Attributes(host, Field(p, "attributes")) == []
    case "conversation.update" =>
      CoerceId(Field(p, "conversation_id")) == "" || Field(p, "summary") == Str("") || !Field(p, "summary").Str?
    case "upsert_fact" => CoerceId(Field(p, "entity_id")) == "" || FactOf(Field(p, "content")).None?
    case _ => false
  }

  /** The driver found nothing for the last statement. */
  predicate FoundNothing(d: Driver, log: seq<DriverCall>) {
    log != [] && d(log[..|log| - 1], log[|log| - 1]) == Ok(None)
  }

  predicate IsSupported(op: WriteOp) {
    op.opType in {"conversation_message.create", "entity_fact.create", "knowledge_graph.create", "process_attribute.create",
                  "conversation.update", "upsert_fact"}
  }

  /**
   The three ways to end: skipped for want of something to do or, for a summary, of a conversation;
   counted only with something to do; failed because the driver refused the next statement or gave no
   identifier for the last one, because embeddings are missing, or because the type is unknown.
   */
  ghost predicate EndsForAReason(host: Host, d: Driver, op: WriteOp, o: Outcome<bool>) {
    match o.result
    case Ok(true) => IsSupported(op) && !HasNothingToDo(host, op)
    case Ok(false) => HasNothingToDo(host, op) || (op.opType == "conversation.update" && FoundNothing(d, o.log))
    case Err(e) =>
      || (exists call :: d(o.log, call) == Err(e))
      || (e.code == "INTERNAL" && FoundNothing(d, o.log))
      || (op.opType == "entity_fact.create" && e == MissingEmbeddings && !Field(op.payload, "fact_embeddings").Arr?)
      || (!IsSupported(op) && e.code == "UNSUPPORTED_OP")
  }

  ghost predicate FailsForAReason(d: Driver, log: seq<DriverCall>, e: StorageError) {
    || (exists call :: d(log, call) == Err(e))
    || (e.code == "INTERNAL" && FoundNothing(d, log))
  }

  lemma NoIdHasReason(d: Driver, log: seq<DriverCall>, call: DriverCall, what: string)
    ensures var o := RequireId(d, log, call, what); o.result.Err? ==> FailsForAReason(d, o.log, o.result.error)
  {
    var o := RequireId(d, log, call, what);
    if d(log, call).Ok? { assert (log + [call])[..|log|] == log; }
  }

  lemma NothingFound(d: Driver, log: seq<DriverCall>, call: DriverCall)
    requires d(log, call) == Ok(None)
    ensures FoundNothing(d, log + [call])
  {
    assert (log + [call])[..|log|] == log;
  }

  lemma {:induction false} MessagesEndForAReason(d: Driver, log: seq<DriverCall>, conversation: int, messages: seq<Value>)
    ensures var o := WriteMessages(d, log, conversation, messages);
      match o.result case Ok(applied) => applied case Err(e) => FailsForAReason(d, o.log, e)
    decreases |messages|
  {
    if messages != [] {
      var m := messages[0];
      var o := Perform(d, log, MessageCreate(conversation, StringOr(Field(m, "role"), ""),
                                             StringOr(Field(m, "type"), "text"), StringOr(Field(m, "content"), "")));
      if o.result.Ok? { MessagesEndForAReason(d, o.log, conversation, messages[1..]); }
    }
  }

  lemma MessageOpEndsForAReason(host: Host, d: Driver, log: seq<DriverCall>, op: WriteOp)
    requires op.opType == "conversation_message.create"
    ensures EndsForAReason(host, d, op, ExecuteMessages(d, log, op.payload))
  {
    hide FoundNothing;
    var uuid := CoerceId(Field(op.payload, "conversation_id"));
    NoIdHasReason(d, log, SessionCreate(uuid, None, None), "session_create");
    var session := RequireId(d, log, SessionCreate(uuid, None, None), "session_create");
    if session.result.Ok? && Field(op.payload, "messages").Arr? {
      NoIdHasReason(d, session.log, ConversationCreate(session.result.value, 30), "conversation_create");
      var conv := RequireId(d, session.log, ConversationCreate(session.result.value, 30), "conversation_create");
      if conv.result.Ok? { MessagesEndForAReason(d, conv.log, conv.result.value, Field(op.payload, "messages").items); }
    }
  }

  lemma FactOpEndsForAReason(host: Host, d: Driver, log: seq<DriverCall>, op: WriteOp)
    requires op.opType == "entity_fact.create"
    ensures EndsForAReason(host, d, op, ExecuteEntityFacts(host, d, log, op.payload))
  {
    hide FoundNothing, FactEmbeddings, KeptFactsOf;
    var create := EntityCreate(CoerceId(Field(op.payload, "entity_id")));
    NoIdHasReason(d, log, create, "entity_create");
    var entity := RequireId(d, log, create, "entity_create");
    if entity.result.Ok? {
      var call := SessionCreate(CoerceId(Field(op.payload, "conversation_id")), Some(entity.result.value), None);
      NoIdHasReason(d, entity.log, call, "session_create");
    }
  }

  lemma OwnerOpsEndForAReason(host: Host, d: Driver, log: seq<DriverCall>, op: WriteOp)
    requires op.opType in {"knowledge_graph.create", "process_attribute.create", "upsert_fact"}
    ensures EndsForAReason(host, d, op, ExecuteOp(host, d, log, op))
  {
    hide FoundNothing, Attributes;
    NoIdHasReason(d, log, EntityCreate(CoerceId(Field(op.payload, "entity_id"))), "entity_create");
    NoIdHasReason(d, log, ProcessCreate(CoerceId(Field(op.payload, "process_id"))), "process_create");
  }

  lemma UpdateOpEndsForAReason(host: Host, d: Driver, log: seq<DriverCall>, op: WriteOp)
    requires op.opType == "conversation.update"
    ensures EndsForAReason(host, d, op, ExecuteConversationUpdate(d, log, op.payload))
  {
    hide FoundNothing;
    var ask := SessionGetId(CoerceId(Field(op.payload, "conversation_id")));
    if d(log, ask) == Ok(None) { NothingFound(d, log, ask); }
    var session := Perform(d, log, ask);
    if session.result.Ok? && session.result.value.Some? {
      var find := ConversationGetId(session.result.value.value);
      if d(session.log, find) == Ok(None) { NothingFound(d, session.log, find); }
    }
  }

  lemma OperationsEndForAReason(host: Host, d: Driver, log: seq<DriverCall>, op: WriteOp)
    ensures EndsForAReason(host, d, op, ExecuteOp(host, d, log, op))
  {
    if op.opType == "conversation_message.create" {
      MessageOpEndsForAReason(host, d, log, op);
    } else if op.opType == "entity_fact.create" {
      FactOpEndsForAReason(host, d, log, op);
    } else if op.opType == "conversation.update" {
      UpdateOpEndsForAReason(host, d, log, op);
    } else if IsSupported(op) {
      OwnerOpsEndForAReason(host, d, log, op);
    }
  }

  // ---------- a whole batch ----------

  type Carries = (WriteOp, DriverCall) -> bool

  /** As `EndsWell`, for any way to execute and any notion of carrying out. */
  ghost predicate EndsWith(carries: Carries, op: WriteOp, log: seq<DriverCall>, o: Outcome<bool>) {
    && log <= o.log
    && (o.result == Ok(true) ==> |log| < |o.log| && carries(op, o.log[|o.log| - 1]))
  }

  /** The operations of a batch that were counted. */
  function Counted(exec: Executor, log: seq<DriverCall>, ops: seq<WriteOp>): seq<WriteOp>
    decreases |ops|
  {
    if ops == [] then []
    else
      var first := exec(log, ops[0]);
      if first.result.Err? then []
      else (if first.result.value then [ops[0]] else []) + Counted(exec, first.log, ops[1..])
  }

  /** The calls contain, in order, one that carries out each of the operations. */
  ghost predicate CarryOutAll(carries: Carries, ops: seq<WriteOp>, calls: seq<DriverCall>)
    decreases |ops|
  {
    ops == [] || exists i :: 0 <= i < |calls| && carries(ops[0], calls[i]) && CarryOutAll(carries, ops[1..], calls[i + 1..])
  }

  lemma {:induction false} MoreCallsCarryOut(carries: Carries, ops: seq<WriteOp>, before: seq<DriverCall>, calls: seq<DriverCall>)
    requires CarryOutAll(carries, ops, calls)
    ensures CarryOutAll(carries, ops, before + calls)
  {
    if ops != [] {
      var i :| 0 <= i < |calls| && carries(ops[0], calls[i]) && CarryOutAll(carries, ops[1..], calls[i + 1..]);
      var all := before + calls;
      assert all[|before| + i] == calls[i] && all[|before| + i + 1..] == calls[i + 1..];
    }
  }

  /** The last of the first calls carries out the first operation. */
  lemma CarryOutFirst(carries: Carries, op: WriteOp, ops: seq<WriteOp>, before: seq<DriverCall>, calls: seq<DriverCall>)
    requires before != [] && carries(op, before[|before| - 1]) && CarryOutAll(carries, ops, calls)
    ensures CarryOutAll(carries, [op] + ops, before + calls)
  {
    var all, i := before + calls, |before| - 1;
    assert all[i] == before[i] && all[i + 1..] == calls;
    assert ([op] + ops)[0] == op && ([op] + ops)[1..] == ops;
  }

  lemma {:induction false} BatchIsCarriedOut(exec: Executor, carries: Carries, log: seq<DriverCall>, ops: seq<WriteOp>)
    requires forall l, op :: EndsWith(carries, op, l, exec(l, op))
    requires RunOps(exec, log, ops).result.Ok?
    ensures var o := RunOps(exec, log, ops); var counted := Counted(exec, log, ops);
      log <= o.log && o.result.value == |counted| && CarryOutAll(carries, counted, o.log[|log|..])
    decreases |ops|
  {
    if ops != [] {
      var first := exec(log, ops[0]);
      assert EndsWith(carries, ops[0], log, first);
      BatchIsCarriedOut(exec, carries, first.log, ops[1..]);
      var end := RunOps(exec, first.log, ops[1..]).log;
      LogParts(log, first.log, end);
      BatchGrows(carries, first.result.value, ops[0], Counted(exec, first.log, ops[1..]), log, first.log, end);
    }
  }

  /** A log in two parts. */
  lemma LogParts(log: seq<DriverCall>, mid: seq<DriverCall>, end: seq<DriverCall>)
    requires log <= mid <= end
    ensures log <= end && end[|log|..] == mid[|log|..] + end[|mid|..]
  {
  }

  /** One operation more at the front. */
  lemma BatchGrows(carries: Carries, applied: bool, op: WriteOp, rest: seq<WriteOp>,
                   log: seq<DriverCall>, mid: seq<DriverCall>, end: seq<DriverCall>)
    requires log <= mid <= end && CarryOutAll(carries, rest, end[|mid|..])
    requires applied ==> |log| < |mid| && carries(op, mid[|mid| - 1])
    ensures CarryOutAll(carries, (if applied then [op] else []) + rest, end[|log|..])
  {
    LogParts(log, mid, end);
    if applied {
      CarryOutFirst(carries, op, rest, mid[|log|..], end[|mid|..]);
    } else {
      MoreCallsCarryOut(carries, rest, mid[|log|..], end[|mid|..]);
      assert [] + rest == rest;
    }
  }

  /** The number acknowledged for a batch is the number of operations carried out, in the batch's order. */
  lemma AcknowledgedMeansCarriedOut(host: Host, d: Driver, log: seq<DriverCall>, ops: seq<WriteOp>)
    requires RunOps(ExecutorOn(host, d), log, ops).result.Ok?
    ensures var exec := ExecutorOn(host, d); var o := RunOps(exec, log, ops);
      && log <= o.log && o.result.value == |Counted(exec, log, ops)|
      && CarryOutAll((op, c) => CarriesOut(host, op, c), Counted(exec, log, ops), o.log[|log|..])
  {
    var carries: Carries := (op, c) => CarriesOut(host, op, c);
    forall l, op ensures EndsWith(carries, op, l, ExecutorOn(host, d)(l, op)) { CountedMeansCarriedOut(host, d, l, op); }
    BatchIsCarriedOut(ExecutorOn(host, d), carries, log, ops);
  }

  // ---------- what a skipped operation leaves behind ----------

  predicate Creates(c: DriverCall) { c.EntityCreate? || c.ProcessCreate? }

  /** The operation names an owner but has nothing to store for it. */
  predicate HasOwnerButNoContent(host: Host, op: WriteOp) {
    var p := op.payload;
    || (op.opType == "knowledge_graph.create" && CoerceId(Field(p, "entity_id")) != ""
        && (AsArray(Field(p, "semantic_triples")).None? || AsArray(Field(p, "semantic_triples")).value == []))
    || (op.opType == "process_attribute.create" && CoerceId(Field(p, "process_id")) != ""
        && Attributes(host, Field(p, "attributes")) == [])
  }

  /** The owner such an operation names. */
  function OwnerCall(op: WriteOp): DriverCall {
    if op.opType == "knowledge_graph.create" then EntityCreate(CoerceId(Field(op.payload, "entity_id")))
    else ProcessCreate(CoerceId(Field(op.payload, "process_id")))
  }

  predicate HasCreated(calls: seq<DriverCall>) {
    exists i :: 0 <= i < |calls| && Creates(calls[i])
  }

  /**
   A skipped operation has created something exactly if it names an owner but has nothing to store
   for it; then it has created that owner and done nothing else.
   */
  lemma SkippedLeavesItsOwner(host: Host, d: Driver, log: seq<DriverCall>, op: WriteOp)
    requires ExecuteOp(host, d, log, op).result == Ok(false)
    ensures var o := ExecuteOp(host, d, log, op);
      && log <= o.log
      && (HasCreated(o.log[|log|..]) <==> HasOwnerButNoContent(host, op))
      && (HasOwnerButNoContent(host, op) ==> o.log == log + [OwnerCall(op)])
  {
    CountedMeansCarriedOut(host, d, log, op);
    var o := ExecuteOp(host, d, log, op);
    if op.opType == "conversation_message.create" {
      SkippedMessagesSendNothing(d, log, op.payload);
    } else if HasOwnerButNoContent(host, op) {
      assert o.log[|log|..] == [OwnerCall(op)];
      assert Creates(o.log[|log|..][0]);
    }
  }

  lemma SkippedMessagesSendNothing(d: Driver, log: seq<DriverCall>, payload: Value)
    requires ExecuteMessages(d, log, payload).result == Ok(false)
    ensures ExecuteMessages(d, log, payload).log == log
  {
    var messages := AsArray(Field(payload, "messages"));
    if messages.Some? {
      forall l, id ensures WriteMessages(d, l, id, messages.value).result != Ok(false) {
        MessagesAreStoredInOrder(d, l, id, messages.value);
      }
    }
  }

  /** Such an operation: a graph without triples is skipped once its entity has been created. */
  lemma SkippedCanStillCreate(host: Host, id: int)
    ensures var d := (log: seq<DriverCall>, call: DriverCall) => Ok(Some(id));
      var op := WriteOp("knowledge_graph.create", Obj(map["entity_id" := Str("e"), "semantic_triples" := Arr([])]));
      ExecuteOp(host, d, [], op) == Outcome([EntityCreate("e")], Ok(false)) && HasOwnerButNoContent(host, op)
  {
  }
}
