/**
 When cutting off the injected messages leaves exactly the caller's own: always for chat requests,
 and for the other shapes exactly under conditions that can be read off the request and the history.
 */
module HistoryRecovery {
  import opened Wrappers
  import opened History

  lemma Regroup(a: seq<Message>, b: seq<Message>, c: seq<Message>)
    ensures a + (b + c) == a + b + c
  {
  }

  lemma {:induction false} NonSystemConcat(a: seq<Message>, b: seq<Message>)
    ensures NonSystem(a + b) == NonSystem(a) + NonSystem(b)
    decreases |a|
  {
    if a == [] {
      assert a + b == b;
    } else {
      assert (a + b)[1..] == a[1..] + b;
      NonSystemConcat(a[1..], b);
      Regroup(if a[0].role != System then [a[0]] else [], NonSystem(a[1..]), NonSystem(b));
    }
  }

  lemma {:induction false} ItemMessagesConcat(a: seq<Item>, b: seq<Item>)
    ensures ItemMessages(a + b) == ItemMessages(a) + ItemMessages(b)
    decreases |a|
  {
    if a == [] {
      assert a + b == b;
    } else {
      assert (a + b)[1..] == a[1..] + b;
      ItemMessagesConcat(a[1..], b);
      Regroup(ItemMessage(a[0]), ItemMessages(a[1..]), ItemMessages(b));
    }
  }

  lemma {:induction false} EntryMessagesConcat(a: seq<Entry>, b: seq<Entry>)
    ensures EntryMessages(a + b) == EntryMessages(a) + EntryMessages(b)
    decreases |a|
  {
    if a == [] {
      assert a + b == b;
    } else {
      assert (a + b)[1..] == a[1..] + b;
      EntryMessagesConcat(a[1..], b);
      Regroup(EntryMessage(a[0]), EntryMessages(a[1..]), EntryMessages(b));
    }
  }

  lemma {:induction false} XaiMessagesConcat(a: seq<Message>, b: seq<Message>)
    ensures XaiMessages(a + b) == XaiMessages(a) + XaiMessages(b)
    decreases |a|
  {
    if a == [] {
      assert a + b == b;
    } else {
      var first := if XaiRole(a[0].role).Some? then [Message(XaiRole(a[0].role).value, a[0].content)] else [];
      assert (a + b)[1..] == a[1..] + b;
      XaiMessagesConcat(a[1..], b);
      Regroup(first, XaiMessages(a[1..]), XaiMessages(b));
    }
  }

  lemma {:induction false} SanitizeAppend(a: seq<Message>, m: Message)
    ensures Sanitize(a + [m]) == Sanitize(a) + Sanitize([m])
    decreases |a|
  {
    if a == [] {
      assert a + [m] == [m];
    } else {
      assert (a + [m])[1..] == a[1..] + [m];
      SanitizeAppend(a[1..], m);
      var first := if a[0].role == Tool || (a[0].role == Assistant && Strip(a[0].content) == "") then []
        else [Message(if a[0].role == Model then Assistant else a[0].role, a[0].content)];
      Regroup(first, Sanitize(a[1..]), Sanitize([m]));
    }
  }

  lemma {:induction false} UserAndAssistantAppend(a: seq<Message>, m: Message)
    ensures UserAndAssistant(a + [m]) == UserAndAssistant(a) + UserAndAssistant([m])
    decreases |a|
  {
    if a == [] {
      assert a + [m] == [m];
    } else {
      assert (a + [m])[1..] == a[1..] + [m];
      UserAndAssistantAppend(a[1..], m);
      var said := a[0].role == User || a[0].role == Assistant;
      Regroup(if said then [a[0]] else [], UserAndAssistant(a[1..]), UserAndAssistant([m]));
    }
  }

  // ---------- injecting ----------

  /**
   On every branch exactly one list of the request changes: behind the first `count` entries it is
   the caller's own, a lone text having become a list of one.
   */
  lemma InjectionIsAPrefix(provider: Provider, r: Request, history: seq<Message>)
    requires Injected(provider, r, history).Ok?
    ensures var (sent, count) := Injected(provider, r, history).value;
      && count <= |history|
      && sent.instructions == r.instructions && sent.systemParts == r.systemParts
      && (if UsesInput(r) then
            && sent.input.Some? && sent.input.value.Items? && count <= |sent.input.value.items|
            && sent.input.value.items[count..] == InputItems(r.input)
            && sent.messages == r.messages && sent.contents == r.contents
          else if provider.Google? then
            && sent.contents.Given? && sent.contents.value.Entries? && count <= |sent.contents.value.entries|
            && sent.contents.value.entries[count..] == NormalizedEntries(r.contents)
            && sent.messages == r.messages && sent.input == r.input
          else
            && sent.messages.Given? && r.messages.Given? && count <= |sent.messages.value|
            && sent.messages.value[count..] == r.messages.value
            && sent.input == r.input && sent.contents == r.contents)
  {
    ShorterThanHistory(history);
  }

  lemma ShorterThanHistory(history: seq<Message>)
    ensures |NonSystem(Sanitize(history))| <= |Sanitize(history)| <= |history|
    ensures |UserAndAssistant(history)| <= |history|
  {
    if history != [] { ShorterThanHistory(history[1..]); }
  }

  /** A failure to inject is one of two: no list to put the history in front of, or no such provider. */
  lemma InjectionFails(provider: Provider, r: Request, history: seq<Message>)
    ensures Injected(provider, r, history).Err? <==>
      !UsesInput(r) && if provider.Google? then r.contents.Null? else provider.OtherProvider? || !r.messages.Given?
  {
  }

  /** What is stored of a request that was sent with this history in front. */
  function StoredAfter(provider: Provider, r: Request, history: seq<Message>): seq<Message>
    requires Injected(provider, r, history).Ok?
  {
    var sent := Injected(provider, r, history).value;
    StoredOf(provider, sent.0, sent.1)
  }

  // ---------- cutting ----------

  /** What `Drop` takes away. */
  function CutOff(messages: seq<Message>, count: nat): seq<Message> {
    if count <= |messages| then messages[..count] else messages
  }

  lemma KeepsSpoken(m: Message)
    requires m.role != System
    ensures NonSystem([m]) == [m]
  {
    assert [m][1..] == [];
  }

  /** Cutting off the front changes what was said unless nothing was said there. */
  lemma DropKeepsSpoken(messages: seq<Message>, count: nat)
    ensures var cut := CutOff(messages, count);
      && NonSystem(messages) == NonSystem(cut) + NonSystem(Drop(messages, count))
      && (NonSystem(Drop(messages, count)) == NonSystem(messages) <==> NonSystem(cut) == [])
  {
    assert messages == CutOff(messages, count) + Drop(messages, count);
    NonSystemConcat(CutOff(messages, count), Drop(messages, count));
  }

  /** Cutting across three pieces. */
  lemma CutAcross(system: seq<Message>, injected: seq<Message>, own: seq<Message>, count: nat)
    requires |system| <= 1 && |injected| <= count
    ensures var all := system + (injected + own);
      Drop(all, count) == if count == 0 then system + own
                          else if |system| + |injected| > count then [injected[|injected| - 1]] + own
                          else Drop(own, count - |injected| - |system|)
  {
    var all := system + (injected + own);
    if count == 0 {
      assert all == system + own;
    } else if |system| + |injected| > count {
      assert all[count..] == [injected[|injected| - 1]] + own;
    } else if count <= |all| {
      assert all[count..] == own[count - |injected| - |system|..];
    }
  }

  /**
   `stored` is what is left, as said by either side, if `count` messages are cut off a list that
   starts with a possible system message and the injected messages.
   */
  ghost predicate IsCut(stored: seq<Message>, wanted: seq<Message>, system: seq<Message>, injected: seq<Message>,
                        own: seq<Message>, count: nat) {
    && |system| <= 1 && NonSystem(system) == [] && |injected| <= count
    && (forall m :: m in injected ==> m.role != System)
    && stored == NonSystem(Drop(system + (injected + own), count))
    && wanted == NonSystem(own)
  }

  /** How far the cut misses the caller's own messages. */
  lemma CutMisses(stored: seq<Message>, wanted: seq<Message>, system: seq<Message>, injected: seq<Message>,
                  own: seq<Message>, count: nat)
    requires IsCut(stored, wanted, system, injected, own, count)
    ensures count == 0 ==> stored == wanted
    ensures count > 0 && |system| + |injected| > count ==>
      injected != [] && stored == [injected[|injected| - 1]] + wanted && stored != wanted
    ensures count > 0 && |system| + |injected| <= count ==>
      var lost := count - |injected| - |system|;
      stored == NonSystem(Drop(own, lost)) && (stored == wanted <==> NonSystem(CutOff(own, lost)) == [])
  {
    CutAcross(system, injected, own, count);
    NonSystemConcat(system, own);
    if count > 0 {
      if |system| + |injected| > count {
        var last := injected[|injected| - 1];
        NonSystemConcat([last], own);
        KeepsSpoken(last);
      } else {
        DropKeepsSpoken(own, count - |injected| - |system|);
      }
    }
  }

  // ---------- chat requests ----------

  /** The adapter reads the list that the history is put in front of. */
  predicate IsChat(provider: Provider, r: Request) {
    && r.messages.Given? && (provider == OpenAi || provider == Anthropic || provider == Xai)
    && (provider == OpenAi ==> r.input.None? && r.instructions.None?)
  }

  lemma {:induction false} XaiKeepsSpoken(messages: seq<Message>)
    requires forall m :: m in messages ==> m.role == User || m.role == Assistant
    ensures XaiMessages(messages) == messages
    decreases |messages|
  {
    if messages != [] { XaiKeepsSpoken(messages[1..]); }
  }

  /** The cut falls between the history and the caller's messages. */
  lemma ChatIsRecovered(provider: Provider, r: Request, history: seq<Message>)
    requires IsChat(provider, r)
    ensures Injected(provider, r, history).Ok?
    ensures StoredAfter(provider, r, history) == OwnMessages(provider, r)
  {
    if provider == Xai {
      var prefix := UserAndAssistant(history);
      XaiMessagesConcat(prefix, r.messages.value);
      XaiKeepsSpoken(prefix);
    }
  }

  // ---------- requests with an input ----------

  lemma {:induction false} ItemsOfMessages(messages: seq<Message>)
    ensures ItemMessages(ToItems(messages)) == messages
    decreases |messages|
  {
    if messages != [] {
      assert ToItems(messages)[1..] == ToItems(messages[1..]);
      ItemsOfMessages(messages[1..]);
    }
  }

  predicate IsInput(provider: Provider, r: Request) {
    provider == OpenAi && UsesInput(r)
  }

  /**
   The instructions are read as a system message in front of everything, which the count does not
   know of; so if there are any, the last injected message is stored again.
   */
  lemma InputIsShifted(r: Request, history: seq<Message>)
    requires IsInput(OpenAi, r)
    ensures var prefix, stored := NonSystem(Sanitize(history)), StoredAfter(OpenAi, r, history);
      if prefix != [] && CleanInstructions(r.instructions) != ""
      then stored == [prefix[|prefix| - 1]] + OwnMessages(OpenAi, r)
      else stored == OwnMessages(OpenAi, r)
  {
    hide StoredAfter, OwnMessages, ItemMessages, InputItems, Sanitize, NonSystem, IsCut;
    var prefix, own := NonSystem(Sanitize(history)), ItemMessages(InputItems(r.input));
    InputAsSent(r, history);
    CutMisses(StoredAfter(OpenAi, r, history), OwnMessages(OpenAi, r),
              SystemMessage(CleanInstructions(r.instructions)), prefix, own, |prefix|);
    assert CutOff(own, 0) == [];
  }

  /** What the adapter reads of the list that was sent. */
  lemma InputIsRead(r: Request, history: seq<Message>)
    requires IsInput(OpenAi, r)
    ensures var prefix := NonSystem(Sanitize(history));
      StoredAfter(OpenAi, r, history)
      == NonSystem(Drop(SystemMessage(CleanInstructions(r.instructions)) + ItemMessages(ToItems(prefix) + InputItems(r.input)),
                        |prefix|))
  {
    var prefix := NonSystem(Sanitize(history));
    var sent := r.(input := Some(Items(ToItems(prefix) + InputItems(r.input))));
    InputIsInjected(r, history);
    StoredAsRead(OpenAi, r, history, sent, |prefix|);
    InputIsFormatted(sent, ToItems(prefix) + InputItems(r.input));
  }

  lemma InputIsInjected(r: Request, history: seq<Message>)
    requires UsesInput(r)
    ensures var prefix := NonSystem(Sanitize(history));
      Injected(OpenAi, r, history) == Ok((r.(input := Some(Items(ToItems(prefix) + InputItems(r.input)))), |prefix|))
  {
  }

  lemma StoredAsRead(provider: Provider, r: Request, history: seq<Message>, sent: Request, count: nat)
    requires Injected(provider, r, history) == Ok((sent, count))
    ensures StoredAfter(provider, r, history) == NonSystem(Drop(Formatted(provider, sent), count))
  {
  }

  lemma InputIsFormatted(sent: Request, items: seq<Item>)
    requires sent.input == Some(Items(items))
    ensures Formatted(OpenAi, sent) == SystemMessage(CleanInstructions(sent.instructions)) + ItemMessages(items)
  {
  }

  lemma InputOfOwn(r: Request)
    requires IsInput(OpenAi, r)
    ensures OwnMessages(OpenAi, r) == NonSystem(ItemMessages(InputItems(r.input)))
  {
    NonSystemConcat(SystemMessage(CleanInstructions(r.instructions)), ItemMessages(InputItems(r.input)));
  }

  lemma InputAsSent(r: Request, history: seq<Message>)
    requires IsInput(OpenAi, r)
    ensures var prefix, own := NonSystem(Sanitize(history)), ItemMessages(InputItems(r.input));
      IsCut(StoredAfter(OpenAi, r, history), OwnMessages(OpenAi, r),
            SystemMessage(CleanInstructions(r.instructions)), prefix, own, |prefix|)
  {
    InputIsRead(r, history);
    InputOfOwn(r);
    PrefixOfItems(StoredAfter(OpenAi, r, history), CleanInstructions(r.instructions), NonSystem(Sanitize(history)),
                  InputItems(r.input));
  }

  lemma PrefixOfItems(stored: seq<Message>, text: string, prefix: seq<Message>, items: seq<Item>)
    requires stored == NonSystem(Drop(SystemMessage(text) + ItemMessages(ToItems(prefix) + items), |prefix|))
    requires forall m :: m in prefix ==> m.role != System
    ensures IsCut(stored, NonSystem(ItemMessages(items)), SystemMessage(text), prefix, ItemMessages(items), |prefix|)
  {
    ItemMessagesConcat(ToItems(prefix), items);
    ItemsOfMessages(prefix);
  }

  /** Recalled history is stored again exactly if there is some and the caller gave instructions. */
  lemma InputIsRecovered(r: Request, history: seq<Message>)
    requires IsInput(OpenAi, r)
    ensures StoredAfter(OpenAi, r, history) == OwnMessages(OpenAi, r)
      <==> NonSystem(Sanitize(history)) == [] || CleanInstructions(r.instructions) == ""
  {
    InputIsShifted(r, history);
    var prefix := NonSystem(Sanitize(history));
    if prefix != [] && CleanInstructions(r.instructions) != "" {
      LongerIsDifferent(StoredAfter(OpenAi, r, history), OwnMessages(OpenAi, r), prefix[|prefix| - 1]);
    }
  }

  lemma LongerIsDifferent(a: seq<Message>, b: seq<Message>, m: Message)
    requires a == [m] + b
    ensures a != b
  {
    assert |a| == |b| + 1;
  }

  // ---------- Google ----------

  /** How many of the injected entries the adapter passes over: those without text. */
  function EmptyTexts(history: seq<Message>): (n: nat)
    ensures n <= |history|
  {
    if history == [] then 0 else (if history[0].content == "" then 1 else 0) + EmptyTexts(history[1..])
  }

  lemma OnePart(text: string, role: Role)
    ensures EntryMessage(Parts([DictPart(text)], Some(role))) == if text == "" then [] else [Message(role, text)]
  {
    assert [DictPart(text)][1..] == [];
    assert KeptTexts([DictPart(text)]) == if text == "" then [] else [text];
  }

  lemma {:induction false} InjectedEntries(history: seq<Message>)
    ensures |EntryMessages(ToEntries(history))| == |history| - EmptyTexts(history)
    decreases |history|
  {
    if history != [] {
      var m := history[0];
      assert ToEntries(history)[0] == ToEntry(m) && ToEntries(history)[1..] == ToEntries(history[1..]);
      OnePart(m.content, if m.role == Assistant then Model else m.role);
      InjectedEntries(history[1..]);
    }
  }

  lemma {:induction false} InjectedRoles(history: seq<Message>)
    requires forall m :: m in history ==> m.role != System
    ensures forall m :: m in EntryMessages(ToEntries(history)) ==> m.role != System
    decreases |history|
  {
    if history != [] {
      var m := history[0];
      assert ToEntries(history)[0] == ToEntry(m) && ToEntries(history)[1..] == ToEntries(history[1..]);
      assert m in history && forall other :: other in history[1..] ==> other in history;
      OnePart(m.content, if m.role == Assistant then Model else m.role);
      InjectedRoles(history[1..]);
    }
  }

  /** What the adapter reads of the caller's contents once they have been brought into list form. */
  function GoogleOwn(r: Request): seq<Message> {
    EntryMessages(NormalizedEntries(r.contents))
  }

  predicate HasNoEmptyString(contents: Given<Contents>) {
    match contents
    case Absent => true
    case Null => true
    case Given(Whole(text)) => text != ""
    case Given(Entries(entries)) => forall i :: 0 <= i < |entries| && entries[i].Bare? ==> entries[i].text != ""
  }

  lemma {:induction false} NormalizingKeepsMessages(entries: seq<Entry>)
    requires HasNoEmptyString(Given(Entries(entries)))
    ensures EntryMessages(NormalizedEntries(Given(Entries(entries)))) == EntryMessages(entries)
    decreases |entries|
  {
    if entries != [] {
      EmptyStringIsFirstOrLater(entries);
      NormalizingKeepsMessages(entries[1..]);
      NormalizedTail(entries);
      if entries[0].Bare? { OnePart(entries[0].text, User); }
    }
  }

  lemma NormalizedTail(entries: seq<Entry>)
    requires entries != []
    ensures NormalizedEntries(Given(Entries(entries)))[1..] == NormalizedEntries(Given(Entries(entries[1..])))
  {
  }

  lemma EmptyStringIsFirstOrLater(entries: seq<Entry>)
    requires entries != []
    ensures HasNoEmptyString(Given(Entries(entries)))
      <==> !(entries[0].Bare? && entries[0].text == "") && HasNoEmptyString(Given(Entries(entries[1..])))
  {
    var rest := entries[1..];
    assert forall i :: 0 <= i < |rest| ==> rest[i] == entries[i + 1];
    assert forall i :: 0 < i < |entries| ==> entries[i] == rest[i - 1];
  }

  lemma GoogleOwnIsRead(contents: Given<Contents>)
    requires HasNoEmptyString(contents)
    ensures EntryMessages(NormalizedEntries(contents)) == ContentsMessages(contents)
  {
    match contents
    case Absent =>
    case Null =>
    case Given(Whole(text)) =>
      OnePart(text, User);
      assert NormalizedEntries(contents)[1..] == [];
    case Given(Entries(entries)) => NormalizingKeepsMessages(entries);
  }

  /** What the adapter reads of the contents that were sent. */
  lemma ContentsAreRead(r: Request, history: seq<Message>)
    requires !UsesInput(r) && !r.contents.Null?
    ensures StoredAfter(Google, r, history)
      == NonSystem(Drop(GoogleSystem(r) + EntryMessages(ToEntries(history) + NormalizedEntries(r.contents)), |history|))
  {
    var sent := r.(contents := Given(Entries(ToEntries(history) + NormalizedEntries(r.contents))));
    ContentsAreInjected(r, history);
    StoredAsRead(Google, r, history, sent, |history|);
    ContentsAreFormatted(sent, ToEntries(history) + NormalizedEntries(r.contents));
  }

  lemma ContentsAreInjected(r: Request, history: seq<Message>)
    requires !UsesInput(r) && !r.contents.Null?
    ensures Injected(Google, r, history)
      == Ok((r.(contents := Given(Entries(ToEntries(history) + NormalizedEntries(r.contents)))), |history|))
  {
  }

  lemma ContentsAreFormatted(sent: Request, entries: seq<Entry>)
    requires sent.contents == Given(Entries(entries))
    ensures Formatted(Google, sent) == GoogleSystem(sent) + EntryMessages(entries)
  {
  }

  lemma GoogleAsSent(r: Request, history: seq<Message>)
    requires !UsesInput(r) && !r.contents.Null? && forall m :: m in history ==> m.role != System
    ensures IsCut(StoredAfter(Google, r, history), NonSystem(GoogleOwn(r)),
                  GoogleSystem(r), EntryMessages(ToEntries(history)), GoogleOwn(r), |history|)
  {
    ContentsAreRead(r, history);
    PrefixOfEntries(StoredAfter(Google, r, history), GoogleSystem(r), history, NormalizedEntries(r.contents));
  }

  lemma PrefixOfEntries(stored: seq<Message>, system: seq<Message>, history: seq<Message>, entries: seq<Entry>)
    requires |system| <= 1 && NonSystem(system) == [] && forall m :: m in history ==> m.role != System
    requires stored == NonSystem(Drop(system + EntryMessages(ToEntries(history) + entries), |history|))
    ensures IsCut(stored, NonSystem(EntryMessages(entries)), system, EntryMessages(ToEntries(history)),
                  EntryMessages(entries), |history|)
  {
    EntryMessagesConcat(ToEntries(history), entries);
    InjectedEntries(history);
    InjectedRoles(history);
  }

  /**
   The cut is as long as the history, but a system instruction adds one message in front of it and
   every empty text takes one away: the cut misses by the difference, to one side or the other.
   */
  lemma GoogleIsShifted(r: Request, history: seq<Message>)
    requires !UsesInput(r) && !r.contents.Null? && history != []
    requires forall m :: m in history ==> m.role != System
    ensures var injected, stored := EntryMessages(ToEntries(history)), StoredAfter(Google, r, history);
      var extra, missing := |GoogleSystem(r)|, EmptyTexts(history);
      if extra > missing
      then injected != [] && stored == [injected[|injected| - 1]] + NonSystem(GoogleOwn(r))
      else stored == NonSystem(Drop(GoogleOwn(r), missing - extra))
  {
    hide StoredAfter, GoogleOwn, GoogleSystem, ToEntries, EntryMessages, EmptyTexts, NonSystem, IsCut;
    InjectedEntries(history);
    GoogleAsSent(r, history);
    CutMisses(StoredAfter(Google, r, history), NonSystem(GoogleOwn(r)),
              GoogleSystem(r), EntryMessages(ToEntries(history)), GoogleOwn(r), |history|);
  }

  /** How many messages have no text. */
  function Textless(messages: seq<Message>): nat {
    if messages == [] then 0 else (if messages[0].content == "" then 1 else 0) + Textless(messages[1..])
  }

  lemma {:induction false} TextlessConcat(a: seq<Message>, b: seq<Message>)
    ensures Textless(a + b) == Textless(a) + Textless(b)
    decreases |a|
  {
    if a == [] {
      assert a + b == b;
    } else {
      assert (a + b)[1..] == a[1..] + b;
      TextlessConcat(a[1..], b);
    }
  }

  /** Whatever is cut off, what is left has no more messages without text. */
  lemma CutHasFewerTextless(messages: seq<Message>, count: nat)
    ensures Textless(NonSystem(Drop(messages, count))) <= Textless(NonSystem(messages))
  {
    DropKeepsSpoken(messages, count);
    TextlessConcat(NonSystem(CutOff(messages, count)), NonSystem(Drop(messages, count)));
  }

  /** Normalising drops exactly the empty bare strings, so that fewer messages without text are left. */
  lemma {:induction false} NormalizingDropsEmpty(entries: seq<Entry>)
    ensures var read, own := EntryMessages(NormalizedEntries(Given(Entries(entries)))), EntryMessages(entries);
      && Textless(NonSystem(read)) <= Textless(NonSystem(own))
      && (!HasNoEmptyString(Given(Entries(entries))) ==> Textless(NonSystem(read)) < Textless(NonSystem(own)))
    decreases |entries|
  {
    if entries != [] {
      var rest, first := entries[1..], NormalizedEntries(Given(Entries(entries)))[0];
      NormalizingDropsEmpty(rest);
      NormalizedTail(entries);
      EmptyStringIsFirstOrLater(entries);
      FirstIsRead(entries[0], first);
      FirstAndRest(EntryMessage(first), EntryMessages(NormalizedEntries(Given(Entries(rest)))));
      FirstAndRest(EntryMessage(entries[0]), EntryMessages(rest));
    }
  }

  lemma FirstAndRest(a: seq<Message>, b: seq<Message>)
    ensures Textless(NonSystem(a + b)) == Textless(NonSystem(a)) + Textless(NonSystem(b))
  {
    NonSystemConcat(a, b);
    TextlessConcat(NonSystem(a), NonSystem(b));
  }

  lemma FirstIsRead(e: Entry, n: Entry)
    requires n == if e.Bare? then Parts([DictPart(e.text)], Some(User)) else e
    ensures Textless(NonSystem(EntryMessage(n)))
      == Textless(NonSystem(EntryMessage(e))) - if e.Bare? && e.text == "" then 1 else 0
  {
    if e.Bare? {
      OnePart(e.text, User);
      KeepsSpoken(Message(User, e.text));
      assert [Message(User, e.text)][1..] == [];
    }
  }

  lemma ReadContentsHaveFewerTextless(contents: Given<Contents>)
    requires !HasNoEmptyString(contents)
    ensures Textless(NonSystem(EntryMessages(NormalizedEntries(contents)))) < Textless(NonSystem(ContentsMessages(contents)))
  {
    match contents
    case Given(Whole(text)) =>
      assert NormalizedEntries(contents)[1..] == [];
      FirstIsRead(Bare(text), NormalizedEntries(contents)[0]);
    case Given(Entries(entries)) => NormalizingDropsEmpty(entries);
  }

  lemma OwnHasMoreTextless(r: Request)
    requires !HasNoEmptyString(r.contents)
    ensures Textless(NonSystem(GoogleOwn(r))) < Textless(OwnMessages(Google, r))
  {
    hide Textless, NormalizedEntries, EntryMessages, HasNoEmptyString;
    NonSystemConcat(GoogleSystem(r), ContentsMessages(r.contents));
    ReadContentsHaveFewerTextless(r.contents);
    assert OwnMessages(Google, r) == NonSystem(ContentsMessages(r.contents));
  }

  predicate AllHaveText(messages: seq<Message>) { forall m :: m in messages ==> m.content != "" }

  lemma {:induction false} AllHaveTextCounts(messages: seq<Message>)
    ensures AllHaveText(messages) <==> Textless(messages) == 0
    decreases |messages|
  {
    if messages != [] {
      AllHaveTextCounts(messages[1..]);
      assert forall m :: m in messages <==> m == messages[0] || m in messages[1..];
    }
  }

  /** If all of the caller's own messages have text, no string among the contents is empty. */
  lemma NoEmptyStrings(r: Request)
    requires AllHaveText(OwnMessages(Google, r))
    ensures HasNoEmptyString(r.contents)
  {
    AllHaveTextCounts(OwnMessages(Google, r));
    if !HasNoEmptyString(r.contents) { OwnHasMoreTextless(r); }
  }

  lemma CutListHasFewerTextless(stored: seq<Message>, system: seq<Message>, injected: seq<Message>, own: seq<Message>, count: nat)
    requires IsCut(stored, NonSystem(own), system, injected, own, count) && AllHaveText(injected)
    ensures Textless(stored) <= Textless(NonSystem(own))
  {
    CutMisses(stored, NonSystem(own), system, injected, own, count);
    if count > 0 {
      if |system| + |injected| > count {
        OneMoreWithText(injected[|injected| - 1], NonSystem(own));
      } else {
        CutHasFewerTextless(own, count - |injected| - |system|);
      }
    }
  }

  lemma OneMoreWithText(m: Message, messages: seq<Message>)
    requires m.content != ""
    ensures Textless([m] + messages) == Textless(messages)
  {
    assert ([m] + messages)[1..] == messages;
  }

  lemma {:induction false} InjectedHaveText(history: seq<Message>)
    ensures AllHaveText(EntryMessages(ToEntries(history)))
    decreases |history|
  {
    if history != [] {
      var m := history[0];
      assert ToEntries(history)[0] == ToEntry(m) && ToEntries(history)[1..] == ToEntries(history[1..]);
      OnePart(m.content, if m.role == Assistant then Model else m.role);
      InjectedHaveText(history[1..]);
    }
  }

  /**
   The caller's messages are recovered exactly if none of them is an empty string, which the injection
   turns into a part that is passed over, and the two errors cancel or nothing said is cut off.
   */
  lemma GoogleIsRecovered(r: Request, history: seq<Message>)
    requires !UsesInput(r) && !r.contents.Null? && forall m :: m in history ==> m.role != System
    ensures StoredAfter(Google, r, history) == OwnMessages(Google, r) <==> GoogleCutFits(r, history)
  {
    if HasNoEmptyString(r.contents) {
      FittingCutIsExact(r, history);
    } else {
      GoogleAsSent(r, history);
      InjectedHaveText(history);
      CutListHasFewerTextless(StoredAfter(Google, r, history), GoogleSystem(r), EntryMessages(ToEntries(history)),
                              GoogleOwn(r), |history|);
      OwnHasMoreTextless(r);
    }
  }

  lemma FittingCutIsExact(r: Request, history: seq<Message>)
    requires !UsesInput(r) && !r.contents.Null? && HasNoEmptyString(r.contents)
    requires forall m :: m in history ==> m.role != System
    ensures StoredAfter(Google, r, history) == OwnMessages(Google, r) <==> GoogleCutFits(r, history)
  {
    hide StoredAfter, OwnMessages, ToEntries, EntryMessages, EmptyTexts, NonSystem, IsCut;
    OwnIsReadInListForm(r);
    InjectedEntries(history);
    GoogleAsSent(r, history);
    CutFits(StoredAfter(Google, r, history), NonSystem(GoogleOwn(r)), GoogleSystem(r),
            EntryMessages(ToEntries(history)), GoogleOwn(r), |history|, EmptyTexts(history));
  }

  lemma OwnIsReadInListForm(r: Request)
    requires HasNoEmptyString(r.contents)
    ensures OwnMessages(Google, r) == NonSystem(GoogleOwn(r))
  {
    GoogleOwnIsRead(r.contents);
    NonSystemConcat(GoogleSystem(r), GoogleOwn(r));
  }

  /** When the cut takes nothing that was said, in terms of the messages that were expected but are `missing`. */
  lemma CutFits(stored: seq<Message>, wanted: seq<Message>, system: seq<Message>, injected: seq<Message>,
                own: seq<Message>, count: nat, missing: nat)
    requires IsCut(stored, wanted, system, injected, own, count) && |injected| == count - missing
    ensures stored == wanted
      <==> count == 0 || (|system| <= missing && NonSystem(CutOff(own, missing - |system|)) == [])
  {
    CutMisses(stored, wanted, system, injected, own, count);
    assert count - |injected| - |system| == missing - |system|;
  }

  predicate GoogleCutFits(r: Request, history: seq<Message>) {
    var own, extra, missing := GoogleOwn(r), |GoogleSystem(r)|, EmptyTexts(history);
    && HasNoEmptyString(r.contents)
    && (|history| == 0 || (extra <= missing && NonSystem(CutOff(own, missing - extra)) == []))
  }

  // ---------- a count from an earlier conversation ----------

  /**
   If nothing is recalled the count is left from the last call that recalled something. Then the
   caller's own messages are cut off, and what is stored is right exactly if none of those was said.
   */
  lemma StaleCountLosesMessages(provider: Provider, r: Request, stale: nat)
    ensures var cut := CutOff(Formatted(provider, r), stale);
      && OwnMessages(provider, r) == NonSystem(cut) + StoredOf(provider, r, stale)
      && (StoredOf(provider, r, stale) == OwnMessages(provider, r) <==> NonSystem(cut) == [])
  {
    DropKeepsSpoken(Formatted(provider, r), stale);
  }

  // ---------- requests of every shape ----------

  /** The adapter does not look where the history was put, so that the caller's own messages are cut off. */
  predicate IsOverlooked(provider: Provider, r: Request) {
    || (UsesInput(r) && provider != OpenAi)
    || (provider == OpenAi && r.messages.Given? && (r.input.Some? || r.instructions.Some?))
  }

  /** How many messages the injection says it has put in front. */
  function PrefixLength(provider: Provider, r: Request, history: seq<Message>): nat {
    if UsesInput(r) || provider == Anthropic then |NonSystem(Sanitize(history))|
    else if provider == OpenAi then |Sanitize(history)|
    else if provider == Google then |history|
    else |UserAndAssistant(history)|
  }

  lemma OverlookedLosesMessages(provider: Provider, r: Request, history: seq<Message>)
    requires IsOverlooked(provider, r)
    ensures Injected(provider, r, history).Ok?
    ensures var cut := CutOff(Formatted(provider, r), PrefixLength(provider, r, history));
      && OwnMessages(provider, r) == NonSystem(cut) + StoredAfter(provider, r, history)
      && (StoredAfter(provider, r, history) == OwnMessages(provider, r) <==> NonSystem(cut) == [])
  {
    var sent := Injected(provider, r, history).value;
    assert Formatted(provider, sent.0) == Formatted(provider, r);
    StaleCountLosesMessages(provider, r, sent.1);
  }

  /** Can it be read off the request and the history that the cut falls where it should? */
  predicate IsExact(provider: Provider, r: Request, history: seq<Message>) {
    if IsOverlooked(provider, r) then NonSystem(CutOff(Formatted(provider, r), PrefixLength(provider, r, history))) == []
    else if IsInput(provider, r) then NonSystem(Sanitize(history)) == [] || CleanInstructions(r.instructions) == ""
    else if provider == Google then GoogleCutFits(r, history)
    else true
  }

  /** For every provider and every shape of request: what is stored is the caller's own exactly then. */
  lemma TurnIsExact(provider: Provider, r: Request, history: seq<Message>)
    requires Injected(provider, r, history).Ok? && forall m :: m in history ==> m.role != System
    ensures StoredAfter(provider, r, history) == OwnMessages(provider, r) <==> IsExact(provider, r, history)
  {
    if IsOverlooked(provider, r) {
      OverlookedLosesMessages(provider, r, history);
    } else if IsInput(provider, r) {
      InputIsRecovered(r, history);
    } else if provider == Google {
      GoogleIsRecovered(r, history);
    } else {
      ChatIsRecovered(provider, r, history);
    }
  }
}
