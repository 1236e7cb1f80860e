/**
 Where the identifiers in a batch's statements come from. Every identifier a statement carries is the
 driver's own answer to an earlier statement of the same operation, the one that made or found the
 entity, process, session or conversation which the operation's payload names.
 */
module OperationIds {
  import opened Wrappers
  import opened Json
  import opened WriteOps

  /** Between places `from` and `to` of the log the driver was asked `call` and answered `id`. */
  ghost predicate Answered(d: Driver, all: seq<DriverCall>, from: nat, to: nat, call: DriverCall, id: Option<int>)
    requires to <= |all|
  {
    exists i :: from <= i < to && AnsweredAt(d, all, i, call, id)
  }

  predicate AnsweredAt(d: Driver, all: seq<DriverCall>, i: nat, call: DriverCall, id: Option<int>)
    requires i < |all|
  {
    all[i] == call && d(all[..i], call) == Ok(id)
  }

  function PayloadId(op: WriteOp, key: string): string { CoerceId(Field(op.payload, key)) }

  ghost predicate IsEntity(d: Driver, all: seq<DriverCall>, from: nat, to: nat, op: WriteOp, id: int)
    requires to <= |all|
  {
    Answered(d, all, from, to, EntityCreate(PayloadId(op, "entity_id")), Some(id))
  }

  ghost predicate IsProcess(d: Driver, all: seq<DriverCall>, from: nat, to: nat, op: WriteOp, id: int)
    requires to <= |all|
  {
    Answered(d, all, from, to, ProcessCreate(PayloadId(op, "process_id")), Some(id))
  }

  /** Messages belong to a session of nobody's, facts to a session of their entity. */
  ghost predicate IsOwner(d: Driver, all: seq<DriverCall>, from: nat, to: nat, op: WriteOp, owner: Option<int>)
    requires to <= |all|
  {
    if op.opType == "conversation_message.create" then owner.None?
    else owner.Some? && IsEntity(d, all, from, to, op, owner.value)
  }

  ghost predicate IsSession(d: Driver, all: seq<DriverCall>, from: nat, to: nat, op: WriteOp, id: int)
    requires to <= |all|
  {
    exists owner :: IsOwner(d, all, from, to, op, owner)
      && Answered(d, all, from, to, SessionCreate(PayloadId(op, "conversation_id"), owner, None), Some(id))
  }

  ghost predicate IsConversation(d: Driver, all: seq<DriverCall>, from: nat, to: nat, op: WriteOp, id: Option<int>)
    requires to <= |all|
  {
    exists session :: IsSession(d, all, from, to, op, session)
      && Answered(d, all, from, to, ConversationCreate(session, 30), id)
  }

  /** The statement at place `k`, in the part of the log that starts at `from`, names only what `op` names. */
  ghost predicate Refers(d: Driver, all: seq<DriverCall>, from: nat, k: nat, op: WriteOp)
    requires k < |all|
  {
    match all[k]
    case EntityCreate(id) => id == PayloadId(op, "entity_id")
    case ProcessCreate(id) => id == PayloadId(op, "process_id")
    case SessionCreate(uuid, owner, process) =>
      uuid == PayloadId(op, "conversation_id") && IsOwner(d, all, from, k, op, owner) && process.None?
    case ConversationCreate(session, timeout) => IsSession(d, all, from, k, op, session) && timeout == 30
    case MessageCreate(conversation, _, _, _) => IsConversation(d, all, from, k, op, Some(conversation))
    case EntityFactCreate(entity, _, _, conversation) =>
      && IsEntity(d, all, from, k, op, entity)
      && if op.opType == "upsert_fact" || PayloadId(op, "conversation_id") == "" then conversation.None?
         else IsConversation(d, all, from, k, op, conversation)
    case KnowledgeGraphCreate(entity, _) => IsEntity(d, all, from, k, op, entity)
    case ProcessAttributeCreate(process, _) => IsProcess(d, all, from, k, op, process)
    case SessionGetId(uuid) => uuid == PayloadId(op, "conversation_id")
    case ConversationGetId(session) => Answered(d, all, from, k, SessionGetId(PayloadId(op, "conversation_id")), Some(session))
    case ConversationUpdate(conversation, _) =>
      exists session :: Answered(d, all, from, k, SessionGetId(PayloadId(op, "conversation_id")), Some(session))
        && Answered(d, all, from, k, ConversationGetId(session), Some(conversation))
  }

  /** All that an operation has added to `log`. */
  ghost predicate AllRefer(d: Driver, log: seq<DriverCall>, all: seq<DriverCall>, op: WriteOp) {
    log <= all && forall k :: |log| <= k < |all| ==> Refers(d, all, |log|, k, op)
  }

  // ---------- logs that grow ----------

  lemma AnsweredLater(d: Driver, all: seq<DriverCall>, more: seq<DriverCall>, from: nat, to: nat, call: DriverCall, id: Option<int>)
    requires to <= |all| && all <= more
    ensures Answered(d, all, from, to, call, id) <==> Answered(d, more, from, to, call, id)
  {
    forall i | from <= i < to ensures AnsweredAt(d, all, i, call, id) <==> AnsweredAt(d, more, i, call, id) {
      assert all[..i] == more[..i];
    }
  }

  lemma RefersLater(d: Driver, all: seq<DriverCall>, more: seq<DriverCall>, from: nat, k: nat, op: WriteOp)
    requires k < |all| && all <= more && Refers(d, all, from, k, op)
    ensures Refers(d, more, from, k, op)
  {
    hide Answered, PayloadId;
    forall call, id ensures Answered(d, all, from, k, call, id) <==> Answered(d, more, from, k, call, id) {
      AnsweredLater(d, all, more, from, k, call, id);
    }
  }

  /** One more statement that refers to what has been answered before. */
  lemma OneMoreRefers(d: Driver, log: seq<DriverCall>, all: seq<DriverCall>, call: DriverCall, op: WriteOp)
    requires AllRefer(d, log, all, op) && Refers(d, all + [call], |log|, |all|, op)
    ensures AllRefer(d, log, all + [call], op)
  {
    hide Refers;
    var more := all + [call];
    forall k | |log| <= k < |more| ensures Refers(d, more, |log|, k, op) {
      if k < |all| { RefersLater(d, all, more, |log|, k, op); }
    }
  }

  // ---------- one statement ----------

  lemma AnsweredStays(d: Driver, all: seq<DriverCall>, more: seq<DriverCall>, from: nat, to: nat, call: DriverCall, id: Option<int>)
    requires all <= more && |all| <= to <= |more| && Answered(d, all, from, |all|, call, id)
    ensures Answered(d, more, from, to, call, id)
  {
    AnsweredLater(d, all, more, from, |all|, call, id);
    var i :| from <= i < |all| && AnsweredAt(d, more, i, call, id);
  }

  lemma OwnerStays(d: Driver, all: seq<DriverCall>, more: seq<DriverCall>, from: nat, to: nat, op: WriteOp, owner: Option<int>)
    requires all <= more && |all| <= to <= |more| && IsOwner(d, all, from, |all|, op, owner)
    ensures IsOwner(d, more, from, to, op, owner)
  {
    if op.opType != "conversation_message.create" {
      AnsweredStays(d, all, more, from, to, EntityCreate(PayloadId(op, "entity_id")), owner);
    }
  }

  lemma SessionStays(d: Driver, all: seq<DriverCall>, more: seq<DriverCall>, from: nat, to: nat, op: WriteOp, id: int)
    requires all <= more && |all| <= to <= |more| && IsSession(d, all, from, |all|, op, id)
    ensures IsSession(d, more, from, to, op, id)
  {
    hide Answered, IsOwner, PayloadId;
    var owner :| IsOwner(d, all, from, |all|, op, owner)
      && Answered(d, all, from, |all|, SessionCreate(PayloadId(op, "conversation_id"), owner, None), Some(id));
    OwnerStays(d, all, more, from, to, op, owner);
    AnsweredStays(d, all, more, from, to, SessionCreate(PayloadId(op, "conversation_id"), owner, None), Some(id));
  }

  lemma ConversationStays(d: Driver, all: seq<DriverCall>, more: seq<DriverCall>, from: nat, to: nat, op: WriteOp, id: Option<int>)
    requires all <= more && |all| <= to <= |more| && IsConversation(d, all, from, |all|, op, id)
    ensures IsConversation(d, more, from, to, op, id)
  {
    hide Answered, IsSession;
    var session :| IsSession(d, all, from, |all|, op, session)
      && Answered(d, all, from, |all|, ConversationCreate(session, 30), id);
    SessionStays(d, all, more, from, to, op, session);
    AnsweredStays(d, all, more, from, to, ConversationCreate(session, 30), id);
  }

  /** A statement that refers well leaves a log that does, and its answer can be referred to. */
  lemma PerformRefers(d: Driver, log: seq<DriverCall>, all: seq<DriverCall>, call: DriverCall, op: WriteOp)
    requires AllRefer(d, log, all, op) && Refers(d, all + [call], |log|, |all|, op)
    ensures var o := Perform(d, all, call);
      && AllRefer(d, log, o.log, op) && all <= o.log
      && (o.result.Ok? ==> Answered(d, o.log, |log|, |o.log|, call, o.result.value))
  {
    hide Refers;
    OneMoreRefers(d, log, all, call, op);
    var more := all + [call];
    assert more[..|all|] == all && more[|all|] == call;
    if d(all, call).Ok? { assert AnsweredAt(d, more, |all|, call, d(all, call).value); }
  }

  lemma EntityRefers(d: Driver, log: seq<DriverCall>, op: WriteOp)
    ensures var o := RequireId(d, log, EntityCreate(PayloadId(op, "entity_id")), "entity_create");
      && AllRefer(d, log, o.log, op)
      && (o.result.Ok? ==> IsEntity(d, o.log, |log|, |o.log|, op, o.result.value))
  {
    hide Answered, PayloadId;
    PerformRefers(d, log, log, EntityCreate(PayloadId(op, "entity_id")), op);
  }

  lemma ProcessRefers(d: Driver, log: seq<DriverCall>, op: WriteOp)
    ensures var o := RequireId(d, log, ProcessCreate(PayloadId(op, "process_id")), "process_create");
      && AllRefer(d, log, o.log, op)
      && (o.result.Ok? ==> IsProcess(d, o.log, |log|, |o.log|, op, o.result.value))
  {
    hide Answered, PayloadId;
    PerformRefers(d, log, log, ProcessCreate(PayloadId(op, "process_id")), op);
  }

  lemma SessionRefers(d: Driver, log: seq<DriverCall>, all: seq<DriverCall>, op: WriteOp, owner: Option<int>)
    requires AllRefer(d, log, all, op) && IsOwner(d, all, |log|, |all|, op, owner)
    ensures var o := RequireId(d, all, SessionCreate(PayloadId(op, "conversation_id"), owner, None), "session_create");
      && AllRefer(d, log, o.log, op) && all <= o.log
      && (o.result.Ok? ==> IsSession(d, o.log, |log|, |o.log|, op, o.result.value))
  {
    hide Answered, PayloadId, IsOwner, AllRefer;
    var call := SessionCreate(PayloadId(op, "conversation_id"), owner, None);
    OwnerStays(d, all, all + [call], |log|, |all|, op, owner);
    PerformRefers(d, log, all, call, op);
    OwnerStays(d, all, Perform(d, all, call).log, |log|, |Perform(d, all, call).log|, op, owner);
  }

  lemma ConversationRefers(d: Driver, log: seq<DriverCall>, all: seq<DriverCall>, op: WriteOp, session: int)
    requires AllRefer(d, log, all, op) && IsSession(d, all, |log|, |all|, op, session)
    ensures var o := Perform(d, all, ConversationCreate(session, 30));
      && AllRefer(d, log, o.log, op) && all <= o.log
      && (o.result.Ok? ==> IsConversation(d, o.log, |log|, |o.log|, op, o.result.value))
  {
    hide Answered, PayloadId, IsSession, AllRefer;
    var call := ConversationCreate(session, 30);
    SessionStays(d, all, all + [call], |log|, |all|, op, session);
    PerformRefers(d, log, all, call, op);
    SessionStays(d, all, Perform(d, all, call).log, |log|, |Perform(d, all, call).log|, op, session);
  }

  // ---------- the operations ----------

  lemma {:induction false} MessagesRefer(d: Driver, log: seq<DriverCall>, all: seq<DriverCall>, op: WriteOp, conversation: int,
                                         messages: seq<Value>)
    requires AllRefer(d, log, all, op) && IsConversation(d, all, |log|, |all|, op, Some(conversation))
    ensures AllRefer(d, log, WriteMessages(d, all, conversation, messages).log, op)
    decreases |messages|
  {
    hide Answered, PayloadId, IsConversation, AllRefer;
    if messages != [] {
      var m := messages[0];
      var call := MessageCreate(conversation, StringOr(Field(m, "role"), ""),
                                StringOr(Field(m, "type"), "text"), StringOr(Field(m, "content"), ""));
      ConversationStays(d, all, all + [call], |log|, |all|, op, Some(conversation));
      PerformRefers(d, log, all, call, op);
      var o := Perform(d, all, call);
      if o.result.Ok? {
        ConversationStays(d, all, o.log, |log|, |o.log|, op, Some(conversation));
        MessagesRefer(d, log, o.log, op, conversation, messages[1..]);
      }
    }
  }

  lemma NothingRefers(d: Driver, log: seq<DriverCall>, op: WriteOp)
    ensures AllRefer(d, log, log, op)
  {
  }

  lemma MessageOpRefers(d: Driver, log: seq<DriverCall>, op: WriteOp)
    requires op.opType == "conversation_message.create"
    ensures AllRefer(d, log, ExecuteMessages(d, log, op.payload).log, op)
  {
    hide AllRefer, Answered, IsSession, IsConversation;
    NothingRefers(d, log, op);
    SessionRefers(d, log, log, op, None);
    var session := RequireId(d, log, SessionCreate(PayloadId(op, "conversation_id"), None, None), "session_create");
    var messages := AsArray(Field(op.payload, "messages"));
    if session.result.Ok? && messages.Some? {
      ConversationRefers(d, log, session.log, op, session.result.value);
      var conv := Perform(d, session.log, ConversationCreate(session.result.value, 30));
      if conv.result.Ok? && conv.result.value.Some? {
        MessagesRefer(d, log, conv.log, op, conv.result.value.value, messages.value);
      }
    }
  }

  lemma OptionalConversationRefers(d: Driver, log: seq<DriverCall>, all: seq<DriverCall>, op: WriteOp, entity: int)
    requires AllRefer(d, log, all, op) && op.opType == "entity_fact.create" && IsEntity(d, all, |log|, |all|, op, entity)
    ensures var o := OptionalConversation(d, all, PayloadId(op, "conversation_id"), entity);
      && AllRefer(d, log, o.log, op) && all <= o.log
      && (o.result.Ok? ==>
            if PayloadId(op, "conversation_id") == "" then o.result.value.None?
            else IsConversation(d, o.log, |log|, |o.log|, op, o.result.value))
  {
    hide AllRefer, Answered, IsSession, IsConversation, PayloadId, IsEntity;
    if PayloadId(op, "conversation_id") != "" {
      SessionRefers(d, log, all, op, Some(entity));
      var session := RequireId(d, all, SessionCreate(PayloadId(op, "conversation_id"), Some(entity), None), "session_create");
      if session.result.Ok? { ConversationRefers(d, log, session.log, op, session.result.value); }
    }
  }

  /** A fact statement by the given entity and in the given conversation. */
  lemma FactRefers(d: Driver, log: seq<DriverCall>, early: seq<DriverCall>, all: seq<DriverCall>, call: DriverCall, op: WriteOp)
    requires AllRefer(d, log, all, op) && early <= all && call.EntityFactCreate?
    requires IsEntity(d, early, |log|, |early|, op, call.entity)
    requires if op.opType == "upsert_fact" || PayloadId(op, "conversation_id") == "" then call.conversationId.None?
             else IsConversation(d, all, |log|, |all|, op, call.conversationId)
    ensures AllRefer(d, log, Finish(d, all, call).log, op)
  {
    hide AllRefer, Answered, IsConversation, PayloadId;
    AnsweredStays(d, early, all + [call], |log|, |all|, EntityCreate(PayloadId(op, "entity_id")), Some(call.entity));
    if !(op.opType == "upsert_fact" || PayloadId(op, "conversation_id") == "") {
      ConversationStays(d, all, all + [call], |log|, |all|, op, call.conversationId);
    }
    PerformRefers(d, log, all, call, op);
  }

  lemma FactOpRefers(host: Host, d: Driver, log: seq<DriverCall>, op: WriteOp)
    requires op.opType == "entity_fact.create"
    ensures AllRefer(d, log, ExecuteEntityFacts(host, d, log, op.payload).log, op)
  {
    hide AllRefer, Answered, IsConversation, IsEntity, FactEmbeddings, KeptFactsOf;
    NothingRefers(d, log, op);
    EntityRefers(d, log, op);
    var entity := RequireId(d, log, EntityCreate(PayloadId(op, "entity_id")), "entity_create");
    var stored := AsArray(Field(op.payload, "fact_embeddings"));
    if entity.result.Ok? && stored.Some? {
      var facts := KeptFactsOf(op.payload);
      OptionalConversationRefers(d, log, entity.log, op, entity.result.value);
      var conv := OptionalConversation(d, entity.log, PayloadId(op, "conversation_id"), entity.result.value);
      if conv.result.Ok? {
        FactRefers(d, log, entity.log, conv.log,
                   EntityFactCreate(entity.result.value, facts, FactEmbeddings(host, stored.value, facts), conv.result.value), op);
      }
    }
  }

  lemma UpsertOpRefers(d: Driver, log: seq<DriverCall>, op: WriteOp)
    requires op.opType == "upsert_fact"
    ensures AllRefer(d, log, ExecuteUpsert(d, log, op.payload).log, op)
  {
    hide AllRefer, Answered, IsEntity;
    NothingRefers(d, log, op);
    EntityRefers(d, log, op);
    var entity := RequireId(d, log, EntityCreate(PayloadId(op, "entity_id")), "entity_create");
    var content := FactOf(Field(op.payload, "content"));
    if entity.result.Ok? && content.Some? {
      var row := Row(Field(op.payload, "content_embedding"));
      FactRefers(d, log, entity.log, entity.log,
                 EntityFactCreate(entity.result.value, [content.value], if row == [] then [] else [row], None), op);
    }
  }

  lemma GraphOpRefers(d: Driver, log: seq<DriverCall>, op: WriteOp)
    ensures AllRefer(d, log, ExecuteKnowledgeGraph(d, log, op.payload).log, op)
  {
    hide AllRefer, Answered;
    NothingRefers(d, log, op);
    EntityRefers(d, log, op);
    var entity := RequireId(d, log, EntityCreate(PayloadId(op, "entity_id")), "entity_create");
    var triples := AsArray(Field(op.payload, "semantic_triples"));
    if entity.result.Ok? && triples.Some? {
      var call := KnowledgeGraphCreate(entity.result.value, triples.value);
      AnsweredStays(d, entity.log, entity.log + [call], |log|, |entity.log|, EntityCreate(PayloadId(op, "entity_id")),
                    Some(entity.result.value));
      PerformRefers(d, log, entity.log, call, op);
    }
  }

  lemma AttributeOpRefers(host: Host, d: Driver, log: seq<DriverCall>, op: WriteOp)
    ensures AllRefer(d, log, ExecuteProcessAttributes(host, d, log, op.payload).log, op)
  {
    hide AllRefer, Answered, Attributes;
    NothingRefers(d, log, op);
    ProcessRefers(d, log, op);
    var process := RequireId(d, log, ProcessCreate(PayloadId(op, "process_id")), "process_create");
    if process.result.Ok? {
      var call := ProcessAttributeCreate(process.result.value, Attributes(host, Field(op.payload, "attributes")));
      AnsweredStays(d, process.log, process.log + [call], |log|, |process.log|, ProcessCreate(PayloadId(op, "process_id")),
                    Some(process.result.value));
      PerformRefers(d, log, process.log, call, op);
    }
  }

  lemma UpdateOpRefers(d: Driver, log: seq<DriverCall>, op: WriteOp)
    ensures AllRefer(d, log, ExecuteConversationUpdate(d, log, op.payload).log, op)
  {
    hide AllRefer, Answered;
    NothingRefers(d, log, op);
    var ask := SessionGetId(PayloadId(op, "conversation_id"));
    PerformRefers(d, log, log, ask, op);
    var session := Perform(d, log, ask);
    if session.result.Ok? && session.result.value.Some? {
      var find := ConversationGetId(session.result.value.value);
      AnsweredStays(d, session.log, session.log + [find], |log|, |session.log|, ask, session.result.value);
      PerformRefers(d, log, session.log, find, op);
      var conv := Perform(d, session.log, find);
      if conv.result.Ok? && conv.result.value.Some? {
        var call := ConversationUpdate(conv.result.value.value, StringOr(Field(op.payload, "summary"), ""));
        AnsweredStays(d, session.log, conv.log + [call], |log|, |conv.log|, ask, session.result.value);
        AnsweredStays(d, conv.log, conv.log + [call], |log|, |conv.log|, find, conv.result.value);
        PerformRefers(d, log, conv.log, call, op);
      }
    }
  }

  /** However an operation ends, every statement it has made carries the driver's own identifiers for what its payload names. */
  lemma EveryIdIsAnswered(host: Host, d: Driver, log: seq<DriverCall>, op: WriteOp)
    ensures AllRefer(d, log, ExecuteOp(host, d, log, op).log, op)
  {
    hide AllRefer;
    NothingRefers(d, log, op);
    match op.opType
    case "conversation_message.create" => MessageOpRefers(d, log, op);
    case "entity_fact.create" => FactOpRefers(host, d, log, op);
    case "knowledge_graph.create" => GraphOpRefers(d, log, op);
    case "process_attribute.create" => AttributeOpRefers(host, d, log, op);
    case "conversation.update" => UpdateOpRefers(d, log, op);
    case "upsert_fact" => UpsertOpRefers(d, log, op);
    case _ =>
  }

  // ---------- a whole batch ----------

  /** The log from `from` on falls into one part for each operation, in order, and each part refers to its own operation. */
  ghost predicate PartsRefer(d: Driver, all: seq<DriverCall>, from: nat, ops: seq<WriteOp>)
    requires from <= |all|
    decreases |ops|
  {
    if ops == [] then from == |all|
    else exists to: nat :: from <= to <= |all| && AllRefer(d, all[..from], all[..to], ops[0]) && PartsRefer(d, all, to, ops[1..])
  }

  /** Operations that have not been reached have empty parts. */
  lemma {:induction false} NoPartsRefer(d: Driver, all: seq<DriverCall>, ops: seq<WriteOp>)
    ensures PartsRefer(d, all, |all|, ops)
    decreases |ops|
  {
    if ops != [] {
      NoPartsRefer(d, all, ops[1..]);
      NothingRefers(d, all, ops[0]);
      assert all[..|all|] == all;
    }
  }

  lemma OnePartMore(d: Driver, log: seq<DriverCall>, mid: seq<DriverCall>, all: seq<DriverCall>, ops: seq<WriteOp>)
    requires ops != [] && AllRefer(d, log, mid, ops[0]) && mid <= all && PartsRefer(d, all, |mid|, ops[1..])
    ensures log <= all && PartsRefer(d, all, |log|, ops)
  {
    assert all[..|log|] == log && all[..|mid|] == mid;
  }

  /** In a batch, too, up to where it got: no statement refers to what another operation has made. */
  lemma {:induction false} BatchRefers(host: Host, d: Driver, log: seq<DriverCall>, ops: seq<WriteOp>)
    ensures var all := RunOps(ExecutorOn(host, d), log, ops).log; log <= all && PartsRefer(d, all, |log|, ops)
    decreases |ops|
  {
    hide AllRefer, ExecuteOp, PartsRefer;
    if ops == [] {
      NoPartsRefer(d, log, ops);
    } else {
      var first := ExecuteOp(host, d, log, ops[0]);
      EveryIdIsAnswered(host, d, log, ops[0]);
      if first.result.Ok? {
        BatchRefers(host, d, first.log, ops[1..]);
      } else {
        NoPartsRefer(d, first.log, ops[1..]);
      }
      OnePartMore(d, log, first.log, RunOps(ExecutorOn(host, d), log, ops).log, ops);
    }
  }
}
