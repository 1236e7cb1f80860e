/**
 A connection of the Rust storage manager, with the transaction that may be open on it, and the
 execution of a batch's operations on it, call by call.
 */
module WriteConnection {
  import opened Wrappers
  import opened Json
  import opened WriteOps
  import opened OperationIds

  /** A committed statement: one of ours, or another client's. */
  datatype Statement = Ours(call: DriverCall) | Foreign(id: nat)

  type Store = seq<Statement>

  function Foreigns(ids: seq<nat>): Store {
    seq(|ids|, i requires 0 <= i < |ids| => Foreign(ids[i]))
  }

  function OwnStatements(calls: seq<DriverCall>): Store {
    seq(|calls|, i requires 0 <= i < |calls| => Ours(calls[i]))
  }

  /** What was asked of a connection, besides its statements. */
  datatype Event = BeginTried(ok: bool) | CommitTried(ok: bool) | RollbackTried | Closed

  /** Has a begun transaction seen neither a successful commit nor an attempt to roll it back? */
  function LeftOpen(trace: seq<Event>): bool {
    if trace == [] then false
    else match trace[|trace| - 1]
      case BeginTried(ok) => ok || LeftOpen(trace[..|trace| - 1])
      case CommitTried(ok) => !ok && LeftOpen(trace[..|trace| - 1])
      case RollbackTried => false
      case Closed => false
  }

  /** Closed once, as the last thing, and not over an open transaction. */
  predicate IsProper(trace: seq<Event>) {
    && trace != [] && trace[|trace| - 1].Closed?
    && !LeftOpen(trace[..|trace| - 1])
    && forall i :: 0 <= i < |trace| - 1 ==> !trace[i].Closed?
  }

  /** What has been committed. */
  class Database {
    var store: Store

    constructor (store: Store)
      ensures this.store == store
    {
      this.store := store;
    }
  }

  /** How the outside treats one connection. */
  datatype Fate = Fate(
    beginError: Option<StorageError>,
    others: seq<nat>,               // committed by others before the transaction begins
    driver: Store -> Driver,        // how the driver answers on the store the transaction sees
    commitError: Option<StorageError>,
    closePublishes: bool)           // closing over an open transaction may commit it

  class Connection {
    const db: Database
    const fate: Fate
    var driver: Driver
    var open: bool
    var log: seq<DriverCall>        // the open transaction's statements
    var trace: seq<Event>

    constructor (db: Database, fate: Fate)
      ensures this.db == db && this.fate == fate && !open && trace == []
    {
      this.db, this.fate, driver, open, log, trace := db, fate, fate.driver([]), false, [], [];
    }

    method Begin() returns (error: Option<StorageError>)
      requires !open
      modifies this, db
      ensures error == fate.beginError
      ensures error.Some? ==> !open && db.store == old(db.store)
      ensures error.None? ==>
        open && log == [] && db.store == old(db.store) + Foreigns(fate.others) && driver == fate.driver(db.store)
      ensures trace == old(trace) + [BeginTried(error.None?)]
    {
      error := fate.beginError;
      trace := trace + [BeginTried(error.None?)];
      if error.None? {
        db.store := db.store + Foreigns(fate.others);
        open, log, driver := true, [], fate.driver(db.store);
      }
    }

    /** A statement; outside a transaction it takes effect at once. */
    method Execute(call: DriverCall) returns (r: Result<Option<int>, StorageError>)
      modifies this, db
      ensures open == old(open) && driver == old(driver) && trace == old(trace)
      ensures Outcome(log, r) == Perform(driver, old(log), call)
      ensures db.store == if open || r.Err? then old(db.store) else old(db.store) + [Ours(call)]
    {
      r := driver(log, call);
      if r.Ok? {
        log := log + [call];
        if !open {
          db.store := db.store + [Ours(call)];
        }
      }
    }

    /** A commit that fails leaves the transaction open. */
    method Commit() returns (error: Option<StorageError>)
      modifies this, db
      ensures error == fate.commitError
      ensures error.Some? ==> open == old(open) && db.store == old(db.store)
      ensures error.None? ==> !open && db.store == if old(open) then old(db.store) + OwnStatements(old(log)) else old(db.store)
      ensures trace == old(trace) + [CommitTried(error.None?)]
    {
      error := fate.commitError;
      trace := trace + [CommitTried(error.None?)];
      if error.None? {
        if open {
          db.store := db.store + OwnStatements(log);
        }
        open := false;
      }
    }

    /** Its own result is ignored: where a rollback fails the server drops the transaction. */
    method Rollback()
      modifies this
      ensures !open && trace == old(trace) + [RollbackTried]
    {
      open := false;
      trace := trace + [RollbackTried];
    }

    method Close()
      modifies this, db
      ensures !open && trace == old(trace) + [Closed]
      ensures db.store == if old(open) && fate.closePublishes then old(db.store) + OwnStatements(old(log)) else old(db.store)
    {
      trace := trace + [Closed];
      if open && fate.closePublishes {
        db.store := db.store + OwnStatements(log);
      }
      open := false;
    }

    // ---------- the operations ----------

    /** The transaction is still open, and only its own statements may have become more. */
    twostate predicate Kept()
      reads this, db
    {
      open && driver == old(driver) && trace == old(trace) && db.store == old(db.store)
    }

    method RequireId(call: DriverCall, what: string) returns (r: Result<int, StorageError>)
      requires open
      modifies this, db
      ensures Kept()
      ensures Outcome(log, r) == WriteOps.RequireId(driver, old(log), call, what)
    {
      var answer := Execute(call);
      match answer {
        case Err(e) => r := Err(e);
        case Ok(None) => r := Err(NoId(what));
        case Ok(Some(id)) => r := Ok(id);
      }
    }

    method Finish(call: DriverCall) returns (r: Result<bool, StorageError>)
      requires open
      modifies this, db
      ensures Kept()
      ensures Outcome(log, r) == WriteOps.Finish(driver, old(log), call)
    {
      var answer := Execute(call);
      r := if answer.Ok? then Ok(true) else Err(answer.error);
    }

    method ExecuteMessages(payload: Value) returns (r: Result<bool, StorageError>)
      requires open
      modifies this, db
      ensures Kept()
      ensures Outcome(log, r) == WriteOps.ExecuteMessages(driver, old(log), payload)
    {
      var uuid := CoerceId(Field(payload, "conversation_id"));
      var messages := AsArray(Field(payload, "messages"));
      if uuid == "" || messages.None? || messages.value == [] {
        return Ok(false);
      }
      var session := RequireId(SessionCreate(uuid, None, None), "session_create");
      if session.Err? {
        return Err(session.error);
      }
      var conversation := RequireId(ConversationCreate(session.value, 30), "conversation_create");
      if conversation.Err? {
        return Err(conversation.error);
      }
      r := WriteMessages(conversation.value, messages.value);
    }

    method WriteMessages(conversation: int, messages: seq<Value>) returns (r: Result<bool, StorageError>)
      requires open
      modifies this, db
      ensures Kept()
      ensures Outcome(log, r) == WriteOps.WriteMessages(driver, old(log), conversation, messages)
    {
      for i := 0 to |messages|
        invariant Kept()
        invariant WriteOps.WriteMessages(driver, log, conversation, messages[i..])
               == WriteOps.WriteMessages(driver, old(log), conversation, messages)
      {
        var m := messages[i];
        assert messages[i..][0] == m && messages[i..][1..] == messages[i + 1..];
        var stored := Execute(MessageCreate(conversation, StringOr(Field(m, "role"), ""),
                                            StringOr(Field(m, "type"), "text"), StringOr(Field(m, "content"), "")));
        if stored.Err? {
          return Err(stored.error);
        }
      }
      r := Ok(true);
    }

    method FindConversation(uuid: string, entity: int) returns (r: Result<Option<int>, StorageError>)
      requires open
      modifies this, db
      ensures Kept()
      ensures Outcome(log, r) == OptionalConversation(driver, old(log), uuid, entity)
    {
      if uuid == "" {
        return Ok(None);
      }
      var session := RequireId(SessionCreate(uuid, Some(entity), None), "session_create");
      if session.Err? {
        return Err(session.error);
      }
      r := Execute(ConversationCreate(session.value, 30));
    }

    method ExecuteEntityFacts(host: Host, payload: Value) returns (r: Result<bool, StorageError>)
      requires open
      modifies this, db
      ensures Kept()
      ensures Outcome(log, r) == WriteOps.ExecuteEntityFacts(host, driver, old(log), payload)
    {
      var entityId := CoerceId(Field(payload, "entity_id"));
      var facts := KeptFactsOf(payload);
      if entityId == "" || facts == [] {
        return Ok(false);
      }
      var entity := RequireId(EntityCreate(entityId), "entity_create");
      if entity.Err? {
        return Err(entity.error);
      }
      var stored := AsArray(Field(payload, "fact_embeddings"));
      if stored.None? {
        return Err(MissingEmbeddings);
      }
      var embeddings := FactEmbeddings(host, stored.value, facts);
      var conversation := FindConversation(CoerceId(Field(payload, "conversation_id")), entity.value);
      if conversation.Err? {
        return Err(conversation.error);
      }
      r := Finish(EntityFactCreate(entity.value, facts, embeddings, conversation.value));
    }

    method ExecuteUpsert(payload: Value) returns (r: Result<bool, StorageError>)
      requires open
      modifies this, db
      ensures Kept()
      ensures Outcome(log, r) == WriteOps.ExecuteUpsert(driver, old(log), payload)
    {
      var entityId := CoerceId(Field(payload, "entity_id"));
      var content := FactOf(Field(payload, "content"));
      if entityId == "" || content.None? {
        return Ok(false);
      }
      var entity := RequireId(EntityCreate(entityId), "entity_create");
      if entity.Err? {
        return Err(entity.error);
      }
      var row := Row(Field(payload, "content_embedding"));
      r := Finish(EntityFactCreate(entity.value, [content.value], if row == [] then [] else [row], None));
    }

    method ExecuteKnowledgeGraph(payload: Value) returns (r: Result<bool, StorageError>)
      requires open
      modifies this, db
      ensures Kept()
      ensures Outcome(log, r) == WriteOps.ExecuteKnowledgeGraph(driver, old(log), payload)
    {
      var entityId := CoerceId(Field(payload, "entity_id"));
      if entityId == "" {
        return Ok(false);
      }
      var entity := RequireId(EntityCreate(entityId), "entity_create");
      if entity.Err? {
        return Err(entity.error);
      }
      var triples := AsArray(Field(payload, "semantic_triples"));
      if triples.None? || triples.value == [] {
        return Ok(false);
      }
      r := Finish(KnowledgeGraphCreate(entity.value, triples.value));
    }

    method ExecuteProcessAttributes(host: Host, payload: Value) returns (r: Result<bool, StorageError>)
      requires open
      modifies this, db
      ensures Kept()
      ensures Outcome(log, r) == WriteOps.ExecuteProcessAttributes(host, driver, old(log), payload)
    {
      var processId := CoerceId(Field(payload, "process_id"));
      if processId == "" {
        return Ok(false);
      }
      var process := RequireId(ProcessCreate(processId), "process_create");
      if process.Err? {
        return Err(process.error);
      }
      var attributes := Attributes(host, Field(payload, "attributes"));
      if attributes == [] {
        return Ok(false);
      }
      r := Finish(ProcessAttributeCreate(process.value, attributes));
    }

    method ExecuteConversationUpdate(payload: Value) returns (r: Result<bool, StorageError>)
      requires open
      modifies this, db
      ensures Kept()
      ensures Outcome(log, r) == WriteOps.ExecuteConversationUpdate(driver, old(log), payload)
    {
      var uuid := CoerceId(Field(payload, "conversation_id"));
      var summary := StringOr(Field(payload, "summary"), "");
      if uuid == "" || summary == "" {
        return Ok(false);
      }
      var session := Execute(SessionGetId(uuid));
      if session.Err? {
        return Err(session.error);
      }
      if session.value.None? {
        return Ok(false);
      }
      var conversation := Execute(ConversationGetId(session.value.value));
      if conversation.Err? {
        return Err(conversation.error);
      }
      if conversation.value.None? {
        return Ok(false);
      }
      r := Finish(ConversationUpdate(conversation.value.value, summary));
    }

    /** One operation. However it ends, the identifiers in its statements are the driver's answers to its own earlier ones. */
    method ExecuteOp(host: Host, op: WriteOp) returns (r: Result<bool, StorageError>)
      requires open
      modifies this, db
      ensures Kept()
      ensures Outcome(log, r) == WriteOps.ExecuteOp(host, driver, old(log), op)
      ensures AllRefer(driver, old(log), log, op)
    {
      EveryIdIsAnswered(host, driver, log, op);
      match op.opType {
        case "conversation_message.create" => r := ExecuteMessages(op.payload);
        case "entity_fact.create" => r := ExecuteEntityFacts(host, op.payload);
        case "knowledge_graph.create" => r := ExecuteKnowledgeGraph(op.payload);
        case "process_attribute.create" => r := ExecuteProcessAttributes(host, op.payload);
        case "conversation.update" => r := ExecuteConversationUpdate(op.payload);
        case "upsert_fact" => r := ExecuteUpsert(op.payload);
        case _ => r := Err(StorageError("UNSUPPORTED_OP", "unsupported write op type: " + op.opType));
      }
    }

    /** Runs the operations in order and counts those that were applied. */
    method ExecuteBatchOps(host: Host, batch: seq<WriteOp>, ghost exec: Executor) returns (r: Result<nat, StorageError>)
      requires open && exec == ExecutorOn(host, driver)
      modifies this, db
      ensures Kept()
      ensures Outcome(log, r) == RunOps(exec, old(log), batch)
    {
      var applied := 0;
      for i := 0 to |batch|
        invariant Kept()
        invariant RunOps(exec, old(log), batch) == Continue(applied, RunOps(exec, log, batch[i..]))
      {
        ghost var before := log;
        var step := ExecuteNext(host, batch[i], exec);
        OneStep(exec, before, batch[i..], Outcome(log, step), applied);
        assert batch[i..][1..] == batch[i + 1..];
        if step.Err? {
          return Err(step.error);
        }
        if step.value {
          applied := applied + 1;
        }
      }
      r := Ok(applied);
    }

    method ExecuteNext(host: Host, op: WriteOp, ghost exec: Executor) returns (r: Result<bool, StorageError>)
      requires open && exec == ExecutorOn(host, driver)
      modifies this, db
      ensures Kept()
      ensures Outcome(log, r) == exec(old(log), op)
    {
      r := ExecuteOp(host, op);
    }
  }

  /** What one operation contributes to the run of a batch. */
  lemma OneStep(exec: Executor, log: seq<DriverCall>, ops: seq<WriteOp>, o: Outcome<bool>, applied: nat)
    requires ops != [] && o == exec(log, ops[0])
    ensures Continue(applied, RunOps(exec, log, ops)) ==
      match o.result
      case Err(e) => Outcome(o.log, Err(e))
      case Ok(counted) => Continue(applied + if counted then 1 else 0, RunOps(exec, o.log, ops[1..]))
  {
  }

  function Continue(applied: nat, rest: Outcome<nat>): Outcome<nat> {
    if rest.result.Ok? then Outcome(rest.log, Ok(applied + rest.result.value)) else rest
  }
}
