/**
 The injection as the program does it, on the arguments of a call and on the object that wraps the
 client, and what a whole session of calls leaves in the transcript.
 */
module HistoryInjection {
  import opened Wrappers
  import opened History
  import opened HistoryRecovery
  import opened HistoryPrefix

  /** The keyword arguments of a call, changed in place. */
  class Arguments {
    var messages: Given<seq<Message>>
    var input: Option<InputValue>
    var instructions: Option<string>
    var contents: Given<Contents>
    var systemParts: seq<string>

    constructor (r: Request)
      ensures Value() == r
    {
      messages, input, instructions := r.messages, r.input, r.instructions;
      contents, systemParts := r.contents, r.systemParts;
    }

    function Value(): Request
      reads this
    {
      Request(messages, input, instructions, contents, systemParts)
    }
  }

  // ---------- building the prefix ----------

  method SanitizeHistory(history: seq<Message>) returns (cleaned: seq<Message>)
    ensures cleaned == Sanitize(history)
  {
    cleaned := [];
    for i := 0 to |history|
      invariant cleaned == Sanitize(history[..i])
    {
      SanitizeAppend(history[..i], history[i]);
      assert history[..i + 1] == history[..i] + [history[i]];
      assert [history[i]][1..] == [];
      var role := history[i].role;
      if role == Tool || (role == Assistant && Strip(history[i].content) == "") {
        continue;
      }
      if role == Model {
        role := Assistant;
      }
      cleaned := cleaned + [Message(role, history[i].content)];
    }
    assert history[..|history|] == history;
  }

  method XaiHistory(history: seq<Message>) returns (r: seq<Message>)
    ensures r == UserAndAssistant(history)
  {
    r := [];
    for i := 0 to |history|
      invariant r == UserAndAssistant(history[..i])
    {
      UserAndAssistantAppend(history[..i], history[i]);
      assert history[..i + 1] == history[..i] + [history[i]];
      assert [history[i]][1..] == [];
      if history[i].role == User || history[i].role == Assistant {
        r := r + [history[i]];
      }
    }
    assert history[..|history|] == history;
  }

  method GoogleHistory(history: seq<Message>) returns (r: seq<Entry>)
    ensures r == ToEntries(history)
  {
    r := [];
    for i := 0 to |history|
      invariant r == ToEntries(history)[..i]
    {
      var role := history[i].role;
      if role == Assistant {
        role := Model;
      }
      r := r + [Parts([DictPart(history[i].content)], Some(role))];
    }
  }

  /** Puts the history in front of the caller's messages, wherever this shape of request keeps them. */
  method InjectMessagesByProvider(provider: Provider, args: Arguments, history: seq<Message>)
    returns (count: Result<nat, InjectError>)
    modifies args
    ensures var want := Injected(provider, old(args.Value()), history);
      if want.Ok? then args.Value() == want.value.0 && count == Ok(want.value.1)
      else args.Value() == old(args.Value()) && count == Err(want.error)
    ensures count.Ok? ==> exists picks :: Arrives(provider, old(args.Value()), history, args.Value(), picks) && count.value == |picks|
  {
    if Injected(provider, args.Value(), history).Ok? {
      ghost var picks := HistoryArrives(provider, args.Value(), history);
    }
    if (args.input.Some? || args.instructions.Some?) && args.messages.Absent? {
      var sanitized := SanitizeHistory(history);
      var prefix := NonSystem(sanitized);
      args.input := Some(Items(ToItems(prefix) + InputItems(args.input)));
      return Ok(|prefix|);
    }
    match provider {
      case OtherProvider =>
        return Err(UnknownProvider);
      case Google =>
        var entries := GoogleHistory(history);
        if args.contents.Null? {
          return Err(NullIsNoList);
        }
        args.contents := Given(Entries(entries + NormalizedEntries(args.contents)));
        return Ok(|entries|);
      case _ =>
    }
    if args.messages.Absent? {
      return Err(MissingMessages);
    }
    var prefix;
    if provider == Xai {
      prefix := XaiHistory(history);
    } else {
      prefix := SanitizeHistory(history);
      if provider == Anthropic {
        prefix := NonSystem(prefix);
      }
    }
    if args.messages.Null? {
      return Err(NullIsNoList);
    }
    args.messages := Given(prefix + args.messages.value);
    count := Ok(|prefix|);
  }

  // ---------- one call ----------

  /** What a call stores, and the count it leaves behind. */
  datatype Effect = Effect(stored: seq<Message>, count: nat)

  /** Without history nothing is injected, and the count stays what it was. */
  function CallEffect(provider: Provider, r: Request, history: seq<Message>, stale: nat): Result<Effect, InjectError> {
    if history == [] then Ok(Effect(StoredOf(provider, r, stale), stale))
    else
      var sent := Injected(provider, r, history);
      if sent.Err? then Err(sent.error) else Ok(Effect(StoredAfter(provider, r, history), sent.value.1))
  }

  /** The messages stored for one conversation. */
  class Conversation {
    var transcript: seq<Message>

    constructor ()
      ensures transcript == []
    {
      transcript := [];
    }
  }

  /** The wrapper around a client's call; it outlives conversations. */
  class Invoke {
    const provider: Provider
    var injectedCount: nat

    constructor (provider: Provider)
      ensures this.provider == provider && injectedCount == 0
    {
      this.provider, injectedCount := provider, 0;
    }

    /** With history from the cloud: an empty history resets the count. */
    method InjectCloudMessages(args: Arguments, history: seq<Message>) returns (error: Option<InjectError>)
      modifies this`injectedCount, args
      ensures history == [] ==> error.None? && injectedCount == 0 && args.Value() == old(args.Value())
      ensures history != [] ==>
        var want := Injected(provider, old(args.Value()), history);
        if want.Ok? then error.None? && args.Value() == want.value.0 && injectedCount == want.value.1
        else error == Some(want.error)
    {
      if history == [] {
        injectedCount := 0;
        return None;
      }
      error := Inject(args, history);
    }

    /** With history from storage: an empty history leaves the count alone. */
    method InjectStoredMessages(args: Arguments, history: seq<Message>) returns (error: Option<InjectError>)
      modifies this`injectedCount, args
      ensures history == [] ==> error.None? && injectedCount == old(injectedCount) && args.Value() == old(args.Value())
      ensures history != [] ==>
        var want := Injected(provider, old(args.Value()), history);
        if want.Ok? then error.None? && args.Value() == want.value.0 && injectedCount == want.value.1
        else error == Some(want.error) && injectedCount == old(injectedCount)
    {
      if history == [] {
        return None;
      }
      error := Inject(args, history);
    }

    method Inject(args: Arguments, history: seq<Message>) returns (error: Option<InjectError>)
      modifies this`injectedCount, args
      ensures var want := Injected(provider, old(args.Value()), history);
        if want.Ok? then error.None? && args.Value() == want.value.0 && injectedCount == want.value.1
        else error == Some(want.error) && injectedCount == old(injectedCount)
    {
      var count := InjectMessagesByProvider(provider, args, history);
      match count {
        case Ok(n) =>
          injectedCount := n;
          error := None;
        case Err(e) =>
          error := Some(e);
      }
    }

    /** Stores the adapter's messages behind the count and the reply, without system messages. */
    method HandlePostResponse(args: Arguments, reply: seq<Message>, conversation: Conversation)
      modifies conversation
      ensures conversation.transcript
        == old(conversation.transcript) + StoredOf(provider, args.Value(), injectedCount) + NonSystem(reply)
    {
      NonSystemConcat(Drop(Formatted(provider, args.Value()), injectedCount), reply);
      var messages := Drop(Formatted(provider, args.Value()), injectedCount) + reply;
      conversation.transcript := conversation.transcript + NonSystem(messages);
    }

    /** One call: the history is read and put in front, the client answers, the turn is stored. */
    method Call(args: Arguments, reply: seq<Message>, conversation: Conversation) returns (error: Option<InjectError>)
      modifies this`injectedCount, args, conversation
      ensures var effect := CallEffect(provider, old(args.Value()), old(conversation.transcript), old(injectedCount));
        if effect.Ok? then
          && error.None? && injectedCount == effect.value.count
          && conversation.transcript == old(conversation.transcript) + effect.value.stored + NonSystem(reply)
        else error == Some(effect.error) && conversation.transcript == old(conversation.transcript)
             && injectedCount == old(injectedCount)
    {
      error := InjectStoredMessages(args, conversation.transcript);
      if error.Some? {
        return;
      }
      HandlePostResponse(args, reply, conversation);
    }
  }

  // ---------- a session ----------

  datatype Turn = Turn(request: Request, reply: seq<Message>)

  predicate AllSpoken(messages: seq<Message>) { forall m :: m in messages ==> m.role != System }

  /** The transcript and the count after one more turn; a call that fails leaves both alone. */
  datatype Session = Session(transcript: seq<Message>, count: nat)

  function AfterTurn(provider: Provider, turn: Turn, s: Session): Session {
    var effect := CallEffect(provider, turn.request, s.transcript, s.count);
    if effect.Err? then s
    else Session(s.transcript + effect.value.stored + NonSystem(turn.reply), effect.value.count)
  }

  function AfterTurns(provider: Provider, turns: seq<Turn>, s: Session): Session
    decreases |turns|
  {
    if turns == [] then s else AfterTurns(provider, turns[1..], AfterTurn(provider, turns[0], s))
  }

  /** What a turn should add to the transcript: the caller's own messages and the reply. */
  function TurnMessages(provider: Provider, turn: Turn): seq<Message> {
    OwnMessages(provider, turn.request) + NonSystem(turn.reply)
  }

  function Recorded(provider: Provider, turns: seq<Turn>): seq<Message> {
    if turns == [] then [] else TurnMessages(provider, turns[0]) + Recorded(provider, turns[1..])
  }

  /** Can it be read off the request, the transcript and the count that the turn will be stored right? */
  predicate IsFaithful(provider: Provider, turn: Turn, s: Session) {
    if s.transcript == [] then NonSystem(CutOff(Formatted(provider, turn.request), s.count)) == []
    else Injected(provider, turn.request, s.transcript).Ok? && IsExact(provider, turn.request, s.transcript)
  }

  /** A call stores the caller's own messages exactly if the turn is faithful; all else it keeps. */
  lemma FaithfulTurn(provider: Provider, turn: Turn, s: Session)
    requires AllSpoken(s.transcript)
    ensures var effect := CallEffect(provider, turn.request, s.transcript, s.count);
      effect.Ok? && effect.value.stored == OwnMessages(provider, turn.request) <==> IsFaithful(provider, turn, s)
    ensures AllSpoken(AfterTurn(provider, turn, s).transcript)
  {
    if s.transcript == [] {
      StaleCountLosesMessages(provider, turn.request, s.count);
    } else if Injected(provider, turn.request, s.transcript).Ok? {
      TurnIsExact(provider, turn.request, s.transcript);
    }
  }

  /** Every turn is faithful when its time comes. */
  predicate AllFaithful(provider: Provider, turns: seq<Turn>, s: Session)
    decreases |turns|
  {
    turns == [] ||
    (IsFaithful(provider, turns[0], s) && AllFaithful(provider, turns[1..], AfterTurn(provider, turns[0], s)))
  }

  /** Every call succeeds, and each leaves the transcript with what its turn should add and nothing else. */
  predicate StaysRight(provider: Provider, turns: seq<Turn>, s: Session)
    decreases |turns|
  {
    turns == [] ||
    (CallEffect(provider, turns[0].request, s.transcript, s.count).Ok?
     && AfterTurn(provider, turns[0], s).transcript == s.transcript + TurnMessages(provider, turns[0])
     && StaysRight(provider, turns[1..], AfterTurn(provider, turns[0], s)))
  }

  lemma SameMiddle(front: seq<Message>, a: seq<Message>, b: seq<Message>, back: seq<Message>)
    ensures front + a + back == front + (b + back) <==> a == b
  {
    assert front + a + back == front + (a + back);
    if front + a + back == front + (b + back) {
      assert |a| == |b|;
      assert a == (front + a + back)[|front|..|front| + |a|];
      assert b == (front + (b + back))[|front|..|front| + |b|];
    }
  }

  /** A session of turns of any shape keeps the transcript right exactly if all its turns are faithful. */
  lemma {:induction false} SessionIsRightExactly(provider: Provider, turns: seq<Turn>, s: Session)
    requires AllSpoken(s.transcript)
    ensures StaysRight(provider, turns, s) <==> AllFaithful(provider, turns, s)
    decreases |turns|
  {
    if turns != [] {
      FaithfulTurn(provider, turns[0], s);
      var effect := CallEffect(provider, turns[0].request, s.transcript, s.count);
      if effect.Ok? {
        SameMiddle(s.transcript, effect.value.stored, OwnMessages(provider, turns[0].request), NonSystem(turns[0].reply));
      }
      SessionIsRightExactly(provider, turns[1..], AfterTurn(provider, turns[0], s));
    }
  }

  /** Then the transcript ends with all turns' messages, in order. */
  lemma {:induction false} RightSessionIsRecorded(provider: Provider, turns: seq<Turn>, s: Session)
    requires StaysRight(provider, turns, s)
    ensures AfterTurns(provider, turns, s).transcript == s.transcript + Recorded(provider, turns)
    decreases |turns|
  {
    if turns == [] {
      assert s.transcript + [] == s.transcript;
    } else {
      var next := AfterTurn(provider, turns[0], s);
      RightSessionIsRecorded(provider, turns[1..], next);
      Regroup(s.transcript, TurnMessages(provider, turns[0]), Recorded(provider, turns[1..]));
    }
  }

  lemma {:induction false} TurnsAppend(provider: Provider, turns: seq<Turn>, turn: Turn, s: Session)
    ensures AfterTurns(provider, turns + [turn], s) == AfterTurn(provider, turn, AfterTurns(provider, turns, s))
    decreases |turns|
  {
    if turns == [] {
      assert turns + [turn] == [turn] && [turn][1..] == [];
    } else {
      assert (turns + [turn])[1..] == turns[1..] + [turn];
      TurnsAppend(provider, turns[1..], turn, AfterTurn(provider, turns[0], s));
    }
  }

  method RunTurn(invoke: Invoke, conversation: Conversation, turn: Turn)
    modifies invoke, conversation
    ensures Session(conversation.transcript, invoke.injectedCount)
      == AfterTurn(invoke.provider, turn, old(Session(conversation.transcript, invoke.injectedCount)))
  {
    var args := new Arguments(turn.request);
    var error := invoke.Call(args, turn.reply, conversation);
  }

  /** A session's calls on one conversation. */
  method RunSession(invoke: Invoke, conversation: Conversation, turns: seq<Turn>)
    requires AllSpoken(conversation.transcript)
    modifies invoke, conversation
    ensures var s := old(Session(conversation.transcript, invoke.injectedCount));
      && Session(conversation.transcript, invoke.injectedCount) == AfterTurns(invoke.provider, turns, s)
      && (AllFaithful(invoke.provider, turns, s) ==>
            conversation.transcript == old(conversation.transcript) + Recorded(invoke.provider, turns))
  {
    ghost var s := Session(conversation.transcript, invoke.injectedCount);
    for i := 0 to |turns|
      invariant Session(conversation.transcript, invoke.injectedCount) == AfterTurns(invoke.provider, turns[..i], s)
    {
      TurnsAppend(invoke.provider, turns[..i], turns[i], s);
      assert turns[..i + 1] == turns[..i] + [turns[i]];
      RunTurn(invoke, conversation, turns[i]);
    }
    assert turns[..|turns|] == turns;
    SessionIsRightExactly(invoke.provider, turns, s);
    if StaysRight(invoke.provider, turns, s) { RightSessionIsRecorded(invoke.provider, turns, s); }
  }

  // ---------- shapes that are always faithful ----------

  /** A chat request, an input without instructions, or contents with text and no system instruction. */
  predicate IsPlain(provider: Provider, turn: Turn) {
    || IsChat(provider, turn.request)
    || (IsInput(provider, turn.request) && CleanInstructions(turn.request.instructions) == "")
    || (provider == Google && !UsesInput(turn.request) && !turn.request.contents.Null?
        && GoogleSystem(turn.request) == [] && AllHaveText(OwnMessages(Google, turn.request)) && AllHaveText(turn.reply))
  }

  lemma {:induction false} NoEmptyTexts(history: seq<Message>)
    requires AllHaveText(history)
    ensures EmptyTexts(history) == 0
    decreases |history|
  {
    if history != [] {
      assert history[0] in history && forall m :: m in history[1..] ==> m in history;
      NoEmptyTexts(history[1..]);
    }
  }

  /** What holds between the calls of a session of plain turns. */
  predicate IsBetweenCalls(provider: Provider, s: Session) {
    && AllSpoken(s.transcript) && (s.transcript == [] ==> s.count == 0)
    && (provider == Google ==> AllHaveText(s.transcript))
  }

  lemma PlainTurnIsFaithful(provider: Provider, turn: Turn, s: Session)
    requires IsPlain(provider, turn) && IsBetweenCalls(provider, s)
    ensures IsFaithful(provider, turn, s)
  {
    if provider == Google {
      NoEmptyTexts(s.transcript);
      NoEmptyStrings(turn.request);
    }
    assert CutOff(GoogleOwn(turn.request), 0) == [] && CutOff(Formatted(provider, turn.request), 0) == [];
  }

  lemma PlainTurnKeepsSession(provider: Provider, turn: Turn, s: Session)
    requires IsPlain(provider, turn) && IsBetweenCalls(provider, s)
    ensures IsBetweenCalls(provider, AfterTurn(provider, turn, s))
  {
    PlainTurnIsFaithful(provider, turn, s);
    FaithfulTurn(provider, turn, s);
  }

  /** From a fresh wrapper and an empty conversation on, plain turns are recorded in full, in any number. */
  lemma {:induction false} PlainSessionsAreFaithful(provider: Provider, turns: seq<Turn>, s: Session)
    requires IsBetweenCalls(provider, s) && forall t :: t in turns ==> IsPlain(provider, t)
    ensures AllFaithful(provider, turns, s)
    decreases |turns|
  {
    if turns != [] {
      PlainTurnIsFaithful(provider, turns[0], s);
      PlainTurnKeepsSession(provider, turns[0], s);
      PlainSessionsAreFaithful(provider, turns[1..], AfterTurn(provider, turns[0], s));
    }
  }

  /**
   The first call of a new session finds no history, but the count of the last session. It stores the
   caller's messages exactly if none of those cut off was said by either side.
   */
  lemma NewSessionLosesMessages(provider: Provider, r: Request, stale: nat)
    ensures CallEffect(provider, r, [], stale).Ok?
    ensures CallEffect(provider, r, [], stale).value.stored == OwnMessages(provider, r)
      <==> NonSystem(CutOff(Formatted(provider, r), stale)) == []
  {
    StaleCountLosesMessages(provider, r, stale);
  }

  lemma TwoAreCounted(text: string)
    ensures var history := [Message(User, "Hello")] + [Message(Assistant, "Hi")];
      var effect := CallEffect(OpenAi, Chat(text), history, 0); effect.Ok? && effect.value.count == 2
  {
    var hello, hi := Message(User, "Hello"), Message(Assistant, "Hi");
    SanitizeAppend([hello], hi);
    SpokenIsKept(hello);
    SpokenIsKept(hi);
  }

  lemma TwoAreCutOff(text: string)
    ensures CallEffect(OpenAi, Chat(text), [], 2) == Ok(Effect([], 2))
    ensures OwnMessages(OpenAi, Chat(text)) == [Message(User, text)]
  {
    KeepsSpoken(Message(User, text));
  }

  /** A call with two messages in front leaves a count of two, with which the next session's question is lost. */
  lemma FirstQuestionIsLost()
    ensures var history := [Message(User, "Hello")] + [Message(Assistant, "Hi")];
      CallEffect(OpenAi, Chat("And?"), history, 0).Ok? && CallEffect(OpenAi, Chat("And?"), history, 0).value.count == 2
    ensures CallEffect(OpenAi, Chat("Remember me?"), [], 2) == Ok(Effect([], 2))
    ensures OwnMessages(OpenAi, Chat("Remember me?")) == [Message(User, "Remember me?")]
  {
    TwoAreCounted("And?");
    TwoAreCutOff("Remember me?");
  }

  lemma SpokenIsKept(m: Message)
    requires (m.role == User || m.role == Assistant) && Strip(m.content) != ""
    ensures Sanitize([m]) == [m]
  {
    assert [m][1..] == [];
  }

  function Chat(text: string): Request {
    Request(Given([Message(User, text)]), None, None, Absent, [])
  }
}
