/**
 What the adapters read out of a request that says something plainly: the same words under the same
 role, in order; and how they treat what is not plain.
 */
module HistoryReading {
  import opened Wrappers
  import opened History
  import opened HistoryPrefix

  // ---------- plain requests ----------

  predicate SaysPlainly(m: Message) {
    m.role in {User, Assistant, System} && m.content != ""
  }

  /** A message as a caller of Gemini would send it. */
  predicate IsEntryOf(e: Entry, m: Message) {
    e == Parts([DictPart(m.content)], Some(m.role)) || e == Parts([BarePart(m.content)], Some(m.role))
    || (e == Bare(m.content) && m.role == User)
  }

  /** Does the request say exactly `ms`, in the form this provider's callers use? */
  predicate Says(provider: Provider, r: Request, ms: seq<Message>) {
    && (forall m :: m in ms ==> SaysPlainly(m))
    && match provider
       case OpenAi =>
         if r.input.Some? then
           r.instructions.None? && r.input.value.Items? && |r.input.value.items| == |ms|
           && forall i :: 0 <= i < |ms| ==> r.input.value.items[i] == Item(ms[i].role, Plain(ms[i].content))
         else r.instructions.None? && r.messages == Given(ms)
       case Anthropic => r.messages == Given(ms)
       case Xai => r.messages == Given(ms)
       case Google =>
         r.systemParts == [] && r.contents.Given? && r.contents.value.Entries? && |r.contents.value.entries| == |ms|
         && forall i :: 0 <= i < |ms| ==> IsEntryOf(r.contents.value.entries[i], ms[i])
       case OtherProvider => false
  }

  lemma {:induction false} ItemsAreRead(items: seq<Item>, ms: seq<Message>)
    requires |items| == |ms| && forall i :: 0 <= i < |ms| ==> items[i] == Item(ms[i].role, Plain(ms[i].content))
    ensures ItemMessages(items) == ms
    decreases |ms|
  {
    if ms != [] { ItemsAreRead(items[1..], ms[1..]); }
  }

  lemma {:induction false} EntriesAreRead(entries: seq<Entry>, ms: seq<Message>)
    requires |entries| == |ms| && forall i :: 0 <= i < |ms| ==> IsEntryOf(entries[i], ms[i]) && ms[i].content != ""
    ensures EntryMessages(entries) == ms
    decreases |ms|
  {
    if ms != [] {
      EntryIsRead(entries[0], ms[0]);
      EntriesAreRead(entries[1..], ms[1..]);
    }
  }

  lemma EntryIsRead(e: Entry, m: Message)
    requires IsEntryOf(e, m) && m.content != ""
    ensures EntryMessage(e) == [m]
  {
    if e.Parts? {
      assert e.parts[1..] == [];
      assert KeptTexts(e.parts) == [m.content];
    }
  }

  lemma {:induction false} SpokenIsRead(ms: seq<Message>)
    requires forall m :: m in ms ==> m.role in {User, Assistant, System}
    ensures XaiMessages(ms) == ms
    decreases |ms|
  {
    if ms != [] { SpokenIsRead(ms[1..]); }
  }

  lemma PlainInputIsRead(r: Request, ms: seq<Message>)
    requires Says(OpenAi, r, ms)
    ensures Formatted(OpenAi, r) == ms
  {
    hide SaysPlainly;
    if r.input.Some? {
      ItemsAreRead(r.input.value.items, ms);
      assert [] + ms == ms;
    }
  }

  lemma PlainContentsAreRead(r: Request, ms: seq<Message>)
    requires Says(Google, r, ms)
    ensures Formatted(Google, r) == ms
  {
    hide SaysPlainly, IsEntryOf, EntryMessages;
    forall i | 0 <= i < |ms| ensures ms[i].content != "" { PlainIsNotEmpty(ms, i); }
    EntriesAreRead(r.contents.value.entries, ms);
    assert GoogleSystem(r) == [] && [] + ms == ms;
  }

  lemma PlainIsNotEmpty(ms: seq<Message>, i: nat)
    requires i < |ms| && forall m :: m in ms ==> SaysPlainly(m)
    ensures ms[i].content != ""
  {
    assert ms[i] in ms;
  }

  /** Every provider's adapter reads a plain request word for word. */
  lemma PlainRequestIsRead(provider: Provider, r: Request, ms: seq<Message>)
    requires Says(provider, r, ms)
    ensures Formatted(provider, r) == ms
    ensures (forall m :: m in ms ==> m.role != System) ==> OwnMessages(provider, r) == ms
  {
    match provider {
      case OpenAi => PlainInputIsRead(r, ms);
      case Xai => SpokenIsRead(ms);
      case Google => PlainContentsAreRead(r, ms);
      case _ =>
    }
    hide NonSystem, Formatted, Says;
    if forall m :: m in ms ==> m.role != System { SpokenStays(ms); }
  }

  lemma {:induction false} SpokenStays(ms: seq<Message>)
    requires forall m :: m in ms ==> m.role != System
    ensures NonSystem(ms) == ms
    decreases |ms|
  {
    if ms != [] { SpokenStays(ms[1..]); }
  }

  /** A lone text is one message of the user's, read and sent on as such. */
  lemma LoneTextIsTheUsers(text: string, r: Request)
    ensures ItemMessages(InputItems(Some(TextInput(text)))) == [Message(User, text)]
    ensures ContentsMessages(Given(Whole(text))) == [Message(User, text)]
    ensures text != "" ==> EntryMessages(NormalizedEntries(Given(Whole(text)))) == [Message(User, text)]
  {
    var items := InputItems(Some(TextInput(text)));
    assert items[1..] == [];
    var entries := NormalizedEntries(Given(Whole(text)));
    assert entries[1..] == [];
    if text != "" { EntryIsRead(entries[0], Message(User, text)); }
  }

  // ---------- what is not plain ----------

  /** Protobuf names count as the plain ones, and no other role is read. */
  lemma ProtoRolesAreRead(m: Message)
    ensures XaiMessages([m]) ==
      if m.role == User || m.role == ProtoUser then [Message(User, m.content)]
      else if m.role == Assistant || m.role == ProtoAssistant then [Message(Assistant, m.content)]
      else if m.role == System || m.role == ProtoSystem then [Message(System, m.content)]
      else []
  {
    assert [m][1..] == [];
  }

  /** Parts are read in order with a space between them, passing over dictionaries without text. */
  lemma {:induction false} TextsAreJoined(texts: seq<string>, text: string)
    ensures Join([text]) == text
    ensures texts != [] ==> Join(texts + [text]) == Join(texts) + " " + text
    decreases |texts|
  {
    if |texts| > 1 {
      assert (texts + [text])[1..] == texts[1..] + [text];
      TextsAreJoined(texts[1..], text);
      Associate(texts[0] + " ", Join(texts[1..]), " ", text);
    } else if |texts| == 1 {
      assert (texts + [text])[1..] == [text];
    }
  }

  lemma Associate(a: string, b: string, c: string, d: string)
    ensures a + (b + c + d) == a + b + c + d
  {
  }

  lemma {:induction false} PartsAreKept(parts: seq<Part>, p: Part)
    ensures KeptTexts(parts + [p]) == KeptTexts(parts) + if p.DictPart? && p.text == "" then [] else [p.text]
    decreases |parts|
  {
    if parts == [] {
      assert parts + [p] == [p] && [p][1..] == [];
    } else {
      assert (parts + [p])[1..] == parts[1..] + [p];
      PartsAreKept(parts[1..], p);
      var first := if parts[0].BarePart? || parts[0].text != "" then [parts[0].text] else [];
      var last := if p.DictPart? && p.text == "" then [] else [p.text];
      assert first + (KeptTexts(parts[1..]) + last) == first + KeptTexts(parts[1..]) + last;
    }
  }

  /** A system instruction is one system message of its texts, joined; without any text there is none. */
  lemma SystemTextsAreJoined(r: Request)
    ensures GoogleSystem(r) == [] <==> forall text :: text in r.systemParts ==> text == ""
    ensures GoogleSystem(r) != [] ==> GoogleSystem(r) == [Message(System, Join(NonEmpty(r.systemParts)))]
  {
    SomethingIsSaid(r.systemParts);
  }

  lemma {:induction false} SomethingIsSaid(texts: seq<string>)
    ensures NonEmpty(texts) == [] <==> forall text :: text in texts ==> text == ""
    decreases |texts|
  {
    if texts != [] {
      SomethingIsSaid(texts[1..]);
      assert texts[0] in texts;
      assert forall text :: text in texts <==> text == texts[0] || text in texts[1..];
    }
  }

  lemma {:induction false} EmptyTextsAreDropped(texts: seq<string>, text: string)
    ensures NonEmpty(texts + [text]) == NonEmpty(texts) + if text == "" then [] else [text]
    decreases |texts|
  {
    if texts == [] {
      assert texts + [text] == [text] && [text][1..] == [];
    } else {
      assert (texts + [text])[1..] == texts[1..] + [text];
      EmptyTextsAreDropped(texts[1..], text);
    }
  }

  /** An entry without a role is the user's, and a list of texts is read unless it is blank. */
  lemma PartsAreRead(text: string, texts: seq<string>, role: Role)
    requires text != ""
    ensures EntryMessage(Parts([DictPart(text)], None)) == [Message(User, text)]
    ensures ItemMessage(Item(role, TextParts(texts))) == if IsBlankText(Join(texts)) then [] else [Message(role, Join(texts))]
  {
    StripBlank(Join(texts));
    assert [DictPart(text)][1..] == [];
    assert KeptTexts([DictPart(text)]) == [text];
  }

  predicate IsAt(text: string, part: string, i: nat) {
    i + |part| <= |text| && text[i..i + |part|] == part
  }

  ghost predicate Contains(text: string, part: string) {
    exists i: nat :: IsAt(text, part, i)
  }

  ghost predicate IsFirstAt(text: string, part: string, i: nat) {
    IsAt(text, part, i) && forall j: nat :: j < i ==> !IsAt(text, part, j)
  }

  lemma LaterInText(text: string, part: string, j: nat)
    requires part != "" && text != ""
    ensures IsAt(text, part, j + 1) <==> IsAt(text[1..], part, j)
  {
    if j + 1 + |part| <= |text| {
      assert text[1..][j..j + |part|] == text[j + 1..j + 1 + |part|];
    }
  }

  lemma {:induction false} IndexIsFirst(text: string, part: string)
    requires part != ""
    ensures var i := IndexOf(text, part);
      if i.None? then !Contains(text, part) else IsFirstAt(text, part, i.value)
    decreases |text|
  {
    if |part| <= |text| && text[..|part|] != part {
      IndexIsFirst(text[1..], part);
      assert !IsAt(text, part, 0);
      forall j: nat ensures IsAt(text, part, j + 1) <==> IsAt(text[1..], part, j) { LaterInText(text, part, j); }
      forall j: nat | 0 < j ensures IsAt(text, part, j) <==> IsAt(text[1..], part, j - 1) { LaterInText(text, part, j - 1); }
    }
  }

  /** Instructions are kept up to the first mark of recalled facts, stripped, and as they are without a mark. */
  lemma InstructionsAreCleaned(text: string)
    ensures CleanInstructions(None) == ""
    ensures !Contains(text, CONTEXT_MARK) ==> CleanInstructions(Some(text)) == text
    ensures Contains(text, CONTEXT_MARK) ==>
      exists i: nat :: i <= |text| && IsFirstAt(text, CONTEXT_MARK, i) && CleanInstructions(Some(text)) == Strip(text[..i])
  {
    hide Strip, IndexOf;
    IndexIsFirst(text, CONTEXT_MARK);
    var i := IndexOf(text, CONTEXT_MARK);
    if i.Some? { assert IsAt(text, CONTEXT_MARK, i.value); }
  }

  /** What is left when the first `i` characters and those from `j` on are taken away, all of them strippable. */
  ghost predicate IsInner(s: string, t: string, i: nat, j: nat) {
    i <= j <= |s| && t == s[i..j] && forall k :: 0 <= k < i || j <= k < |s| ==> IsStripped(s[k])
  }

  /** Stripping takes white space off both ends and nothing else. */
  lemma {:induction false} StripTakesEnds(s: string)
    ensures exists i, j :: IsInner(s, Strip(s), i, j)
    ensures Strip(s) != "" ==> !IsStripped(Strip(s)[0]) && !IsStripped(Strip(s)[|Strip(s)| - 1])
    decreases |s|
  {
    hide IsStripped;
    var i := StripLeftTakes(s);
    var left := StripLeft(s);
    if left != "" && IsStripped(left[|left| - 1]) {
      var inner := left[..|left| - 1];
      StripTakesEnds(inner);
      var a, b :| IsInner(inner, Strip(inner), a, b);
      InnerOfInner(s, i, Strip(inner), a, b);
      assert Strip(s) == Strip(inner);
    } else {
      assert Strip(s) == left;
      assert IsInner(s, left, i, |s|);
    }
  }

  lemma InnerOfInner(s: string, i: nat, t: string, a: nat, b: nat)
    requires i < |s| && IsInner(s[i..][..|s| - i - 1], t, a, b)
    requires IsStripped(s[|s| - 1]) && forall k :: 0 <= k < i ==> IsStripped(s[k])
    ensures IsInner(s, t, i + a, i + b)
  {
    hide IsStripped;
    var inner := s[i..][..|s| - i - 1];
    forall k | i <= k < |s| - 1 ensures inner[k - i] == s[k] {
    }
    assert inner[a..b] == s[i + a..i + b];
  }

  lemma {:induction false} StripLeftTakes(s: string) returns (i: nat)
    ensures i <= |s| && StripLeft(s) == s[i..]
    ensures forall k :: 0 <= k < i ==> IsStripped(s[k])
    ensures i < |s| ==> !IsStripped(s[i])
    decreases |s|
  {
    if s != "" && IsStripped(s[0]) {
      var rest := StripLeftTakes(s[1..]);
      i := rest + 1;
      forall k | 1 <= k < i ensures IsStripped(s[k]) { assert s[k] == s[1..][k - 1]; }
    } else {
      i := 0;
    }
  }
}
