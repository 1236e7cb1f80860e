/**
 The write operations of the Rust storage manager: the pass that computes embeddings before the
 transaction, and the pass that turns each operation into driver calls inside it.
 */
module WriteOps {
  import opened Wrappers
  import opened Text
  import opened Json

  datatype StorageError = StorageError(code: string, message: string)

  datatype WriteOp = WriteOp(opType: string, payload: Value)

  /** A statement the dialect driver runs; the ones that only look something up are listed too. */
  datatype DriverCall =
    | EntityCreate(externalId: string)
    | ProcessCreate(externalId: string)
    | SessionCreate(uuid: string, ofEntity: Option<int>, ofProcess: Option<int>)
    | SessionGetId(uuid: string)
    | ConversationGetId(session: int)
    | ConversationCreate(session: int, timeoutMinutes: int)
    | ConversationUpdate(conversation: int, summary: string)
    | MessageCreate(conversation: int, role: string, kind: string, content: string)
    | EntityFactCreate(entity: int, facts: seq<string>, embeddings: seq<seq<real>>, conversationId: Option<int>)
    | KnowledgeGraphCreate(entity: int, triples: seq<Value>)
    | ProcessAttributeCreate(process: int, attributes: seq<string>)

  /** The driver's answer to a call, given the calls that succeeded earlier in the same transaction. */
  type Driver = (seq<DriverCall>, DriverCall) -> Result<Option<int>, StorageError>

  /** Code the manager calls but does not contain. */
  datatype Host = Host(
    embed: seq<string> -> seq<seq<real>>,
    floatText: real -> string,
    fieldOrder: map<string, Value> -> seq<string>)

  // ---------- facts ----------

  /** The fact a JSON item carries, unless it is blank or no string at all. */
  function FactOf(v: Value): Option<string> {
    if v.Str? && !IsBlank(v.s) then Some(v.s) else None
  }

  function KeptFacts(items: seq<Value>): seq<string> {
    if items == [] then []
    else (if FactOf(items[0]).Some? then [FactOf(items[0]).value] else []) + KeptFacts(items[1..])
  }

  /** The second list's entries at the positions where the first holds a fact that is kept. */
  function KeptAlong(items: seq<Value>, others: seq<Value>): seq<Value>
    requires |items| == |others|
  {
    if items == [] then []
    else (if FactOf(items[0]).Some? then [others[0]] else []) + KeptAlong(items[1..], others[1..])
  }

  predicate HasBlank(items: seq<Value>) {
    exists i :: 0 <= i < |items| && items[i].Str? && IsBlank(items[i].s)
  }

  function StrValues(facts: seq<string>): seq<Value> {
    seq(|facts|, i requires 0 <= i < |facts| => Str(facts[i]))
  }

  function RowValues(rows: seq<seq<real>>): seq<Value> {
    seq(|rows|, i requires 0 <= i < |rows| => RowValue(rows[i]))
  }

  function Rows(items: seq<Value>): seq<seq<real>> {
    seq(|items|, i requires 0 <= i < |items| => Row(items[i]))
  }

  // ---------- the pass before the transaction ----------

  function PrecomputeFacts(host: Host, op: WriteOp): WriteOp {
    var facts := AsArray(Field(op.payload, "facts"));
    var rows := AsArray(Field(op.payload, "fact_embeddings"));
    if facts.None? then op
    else if rows.Some? && |rows.value| == |facts.value| then
      if !HasBlank(facts.value) then op
      else op.(payload :=
        WithField(WithField(op.payload, "facts", Arr(StrValues(KeptFacts(facts.value)))),
                  "fact_embeddings", Arr(KeptAlong(facts.value, rows.value))))
    else if KeptFacts(facts.value) == [] then op
    else op.(payload :=
      WithField(WithField(op.payload, "facts", Arr(StrValues(KeptFacts(facts.value)))),
                "fact_embeddings", Arr(RowValues(host.embed(KeptFacts(facts.value))))))
  }

  function PrecomputeUpsert(host: Host, op: WriteOp): WriteOp {
    var content := AsString(Field(op.payload, "content"));
    if HasField(op.payload, "content_embedding") || content.None? then op
    else
      var rows := host.embed([content.value]);
      op.(payload := WithField(op.payload, "content_embedding", RowValue(if rows == [] then [] else rows[0])))
  }

  function PrecomputeOp(host: Host, op: WriteOp): WriteOp {
    if op.opType == "entity_fact.create" then PrecomputeFacts(host, op)
    else if op.opType == "upsert_fact" then PrecomputeUpsert(host, op)
    else op
  }

  function PrecomputeEmbeddings(host: Host, ops: seq<WriteOp>): seq<WriteOp> {
    seq(|ops|, i requires 0 <= i < |ops| => PrecomputeOp(host, ops[i]))
  }

  // ---------- the pass inside the transaction ----------

  /** The calls that have succeeded, and how it ended. */
  datatype Outcome<+T> = Outcome(log: seq<DriverCall>, result: Result<T, StorageError>)

  function Perform(d: Driver, log: seq<DriverCall>, call: DriverCall): Outcome<Option<int>> {
    match d(log, call)
    case Ok(id) => Outcome(log + [call], Ok(id))
    case Err(e) => Outcome(log, Err(e))
  }

  function NoId(what: string): StorageError {
    StorageError("INTERNAL", what + " returned no id")
  }

  /** A call whose answer must be an identifier. */
  function RequireId(d: Driver, log: seq<DriverCall>, call: DriverCall, what: string): Outcome<int> {
    var o := Perform(d, log, call);
    match o.result
    case Err(e) => Outcome(o.log, Err(e))
    case Ok(None) => Outcome(o.log, Err(NoId(what)))
    case Ok(Some(id)) => Outcome(o.log, Ok(id))
  }

  /** The last call of an operation: its success means the operation was applied. */
  function Finish(d: Driver, log: seq<DriverCall>, call: DriverCall): Outcome<bool> {
    var o := Perform(d, log, call);
    Outcome(o.log, if o.result.Ok? then Ok(true) else Err(o.result.error))
  }

  function Skip(log: seq<DriverCall>): Outcome<bool> { Outcome(log, Ok(false)) }

  const MissingEmbeddings := StorageError("INTERNAL",
    "entity_fact.create: fact_embeddings missing; precompute_embeddings must run before execute_batch_ops")

  /** The embeddings handed to the driver: the stored ones if they line up, else a fresh computation. */
  function FactEmbeddings(host: Host, stored: seq<Value>, facts: seq<string>): seq<seq<real>> {
    if stored != [] && |stored| == |facts| then Rows(stored)
    else if |host.embed(facts)| == |facts| then host.embed(facts)
    else []
  }

  function OptionalConversation(d: Driver, log: seq<DriverCall>, uuid: string, entity: int): Outcome<Option<int>> {
    if uuid == "" then Outcome(log, Ok(None))
    else
      var session := RequireId(d, log, SessionCreate(uuid, Some(entity), None), "session_create");
      match session.result
      case Err(e) => Outcome(session.log, Err(e))
      case Ok(id) => Perform(d, session.log, ConversationCreate(id, 30))
  }

  function KeptFactsOf(payload: Value): seq<string> {
    var items := AsArray(Field(payload, "facts"));
    if items.Some? then KeptFacts(items.value) else []
  }

  function ExecuteEntityFacts(host: Host, d: Driver, log: seq<DriverCall>, payload: Value): Outcome<bool> {
    var entityId := CoerceId(Field(payload, "entity_id"));
    var facts := KeptFactsOf(payload);
    if entityId == "" || facts == [] then Skip(log)
    else
      var entity := RequireId(d, log, EntityCreate(entityId), "entity_create");
      match entity.result
      case Err(e) => Outcome(entity.log, Err(e))
      case Ok(id) =>
        var stored := AsArray(Field(payload, "fact_embeddings"));
        if stored.None? then Outcome(entity.log, Err(MissingEmbeddings))
        else
          var conv := OptionalConversation(d, entity.log, CoerceId(Field(payload, "conversation_id")), id);
          match conv.result
          case Err(e) => Outcome(conv.log, Err(e))
          case Ok(convId) =>
            Finish(d, conv.log, EntityFactCreate(id, facts, FactEmbeddings(host, stored.value, facts), convId))
  }

  function ExecuteUpsert(d: Driver, log: seq<DriverCall>, payload: Value): Outcome<bool> {
    var entityId := CoerceId(Field(payload, "entity_id"));
    var content := FactOf(Field(payload, "content"));
    if entityId == "" || content.None? then Skip(log)
    else
      var entity := RequireId(d, log, EntityCreate(entityId), "entity_create");
      match entity.result
      case Err(e) => Outcome(entity.log, Err(e))
      case Ok(id) =>
        var row := Row(Field(payload, "content_embedding"));
        Finish(d, entity.log, EntityFactCreate(id, [content.value], if row == [] then [] else [row], None))
  }

  function ExecuteKnowledgeGraph(d: Driver, log: seq<DriverCall>, payload: Value): Outcome<bool> {
    var entityId := CoerceId(Field(payload, "entity_id"));
    if entityId == "" then Skip(log)
    else
      var entity := RequireId(d, log, EntityCreate(entityId), "entity_create");
      match entity.result
      case Err(e) => Outcome(entity.log, Err(e))
      case Ok(id) =>
        var triples := AsArray(Field(payload, "semantic_triples"));
        if triples.None? || triples.value == [] then Skip(entity.log)
        else Finish(d, entity.log, KnowledgeGraphCreate(id, triples.value))
  }

  function ScalarText(host: Host, v: Value): Option<string> {
    match v
    case Str(s) => Some(s)
    case Int(n) => Some(Decimal(n))
    case Float(r) => Some(host.floatText(r))
    case Bool(b) => Some(if b then "true" else "false")
    case _ => None
  }

  function ListedAttributes(host: Host, items: seq<Value>): seq<string> {
    if items == [] then []
    else
      var text := ScalarText(host, items[0]);
      (if text.Some? && !IsBlank(text.value) then [text.value] else []) + ListedAttributes(host, items[1..])
  }

  function NamedAttributes(host: Host, fields: map<string, Value>, keys: seq<string>): seq<string> {
    if keys == [] then []
    else
      var text := if keys[0] in fields then ScalarText(host, fields[keys[0]]) else None;
      (if text.Some? then [keys[0] + ":" + text.value] else []) + NamedAttributes(host, fields, keys[1..])
  }

  function Attributes(host: Host, v: Value): seq<string> {
    match v
    case Arr(items) => ListedAttributes(host, items)
    case Obj(fields) => NamedAttributes(host, fields, host.fieldOrder(fields))
    case _ => []
  }

  function ExecuteProcessAttributes(host: Host, d: Driver, log: seq<DriverCall>, payload: Value): Outcome<bool> {
    var processId := CoerceId(Field(payload, "process_id"));
    if processId == "" then Skip(log)
    else
      var process := RequireId(d, log, ProcessCreate(processId), "process_create");
      match process.result
      case Err(e) => Outcome(process.log, Err(e))
      case Ok(id) =>
        var attributes := Attributes(host, Field(payload, "attributes"));
        if attributes == [] then Skip(process.log)
        else Finish(d, process.log, ProcessAttributeCreate(id, attributes))
  }

  function ExecuteConversationUpdate(d: Driver, log: seq<DriverCall>, payload: Value): Outcome<bool> {
    var uuid := CoerceId(Field(payload, "conversation_id"));
    var summary := StringOr(Field(payload, "summary"), "");
    if uuid == "" || summary == "" then Skip(log)
    else
      var session := Perform(d, log, SessionGetId(uuid));
      match session.result
      case Err(e) => Outcome(session.log, Err(e))
      case Ok(None) => Skip(session.log)
      case Ok(Some(sessionId)) =>
        var conv := Perform(d, session.log, ConversationGetId(sessionId));
        match conv.result
        case Err(e) => Outcome(conv.log, Err(e))
        case Ok(None) => Skip(conv.log)
        case Ok(Some(convId)) => Finish(d, conv.log, ConversationUpdate(convId, summary))
  }

  function WriteMessages(d: Driver, log: seq<DriverCall>, conversation: int, messages: seq<Value>): Outcome<bool>
    decreases |messages|
  {
    if messages == [] then Outcome(log, Ok(true))
    else
      var m := messages[0];
      var o := Perform(d, log, MessageCreate(conversation, StringOr(Field(m, "role"), ""),
                                             StringOr(Field(m, "type"), "text"), StringOr(Field(m, "content"), "")));
      match o.result
      case Err(e) => Outcome(o.log, Err(e))
      case Ok(_) => WriteMessages(d, o.log, conversation, messages[1..])
  }

  function ExecuteMessages(d: Driver, log: seq<DriverCall>, payload: Value): Outcome<bool> {
    var uuid := CoerceId(Field(payload, "conversation_id"));
    var messages := AsArray(Field(payload, "messages"));
    if uuid == "" || messages.None? || messages.value == [] then Skip(log)
    else
      var session := RequireId(d, log, SessionCreate(uuid, None, None), "session_create");
      match session.result
      case Err(e) => Outcome(session.log, Err(e))
      case Ok(sessionId) =>
        var conv := RequireId(d, session.log, ConversationCreate(sessionId, 30), "conversation_create");
        match conv.result
        case Err(e) => Outcome(conv.log, Err(e))
        case Ok(convId) => WriteMessages(d, conv.log, convId, messages.value)
  }

  /** One operation. `Ok(false)` is an operation that was skipped. */
  function ExecuteOp(host: Host, d: Driver, log: seq<DriverCall>, op: WriteOp): Outcome<bool> {
    if op.opType == "conversation_message.create" then ExecuteMessages(d, log, op.payload)
    else if op.opType == "entity_fact.create" then ExecuteEntityFacts(host, d, log, op.payload)
    else if op.opType == "knowledge_graph.create" then ExecuteKnowledgeGraph(d, log, op.payload)
    else if op.opType == "process_attribute.create" then ExecuteProcessAttributes(host, d, log, op.payload)
    else if op.opType == "conversation.update" then ExecuteConversationUpdate(d, log, op.payload)
    else if op.opType == "upsert_fact" then ExecuteUpsert(d, log, op.payload)
    else Outcome(log, Err(StorageError("UNSUPPORTED_OP", "unsupported write op type: " + op.opType)))
  }

  /** One operation's part of a transaction: the log before it, and the operation. */
  type Executor = (seq<DriverCall>, WriteOp) -> Outcome<bool>

  /** All operations in order, up to the first error; the value is the number applied. */
  function RunOps(exec: Executor, log: seq<DriverCall>, ops: seq<WriteOp>): Outcome<nat>
    decreases |ops|
  {
    if ops == [] then Outcome(log, Ok(0))
    else
      var first := exec(log, ops[0]);
      match first.result
      case Err(e) => Outcome(first.log, Err(e))
      case Ok(applied) =>
        var rest := RunOps(exec, first.log, ops[1..]);
        match rest.result
        case Err(e) => rest
        case Ok(n) => Outcome(rest.log, Ok(n + if applied then 1 else 0))
  }

  function ExecutorOn(host: Host, d: Driver): Executor {
    (log, op) => ExecuteOp(host, d, log, op)
  }
}
