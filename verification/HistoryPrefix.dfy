/**
 What injection puts in front of a request: which messages of the history arrive there, in which
 order, with which words and under which role, provider by provider.
 */
module HistoryPrefix {
  import opened History
  import opened HistoryRecovery

  /** Does the text hold nothing but what Python strips? */
  predicate IsBlankText(s: string) {
    forall i :: 0 <= i < |s| ==> IsStripped(s[i])
  }

  /** The messages a provider is not shown. */
  predicate IsWithheld(provider: Provider, r: Request, m: Message) {
    if UsesInput(r) || provider.Anthropic? then
      m.role == Tool || m.role == System || (m.role == Assistant && IsBlankText(m.content))
    else if provider.OpenAi? then
      m.role == Tool || (m.role == Assistant && IsBlankText(m.content))
    else if provider.Xai? then
      m.role != User && m.role != Assistant
    else
      false
  }

  /** `picks` are the places of the messages that are not withheld, in order. */
  ghost predicate IsSelection(picks: seq<nat>, provider: Provider, r: Request, history: seq<Message>) {
    && (forall i, j :: 0 <= i < j < |picks| ==> picks[i] < picks[j])
    && (forall i :: 0 <= i < |picks| ==> picks[i] < |history|)
    && (forall k :: 0 <= k < |history| ==> (k in picks <==> !IsWithheld(provider, r, history[k])))
  }

  // ---------- blank texts ----------

  lemma {:induction false} StripLeftBlank(s: string)
    ensures StripLeft(s) == "" <==> IsBlankText(s)
    ensures StripLeft(s) != "" ==> !IsStripped(StripLeft(s)[0])
    decreases |s|
  {
    if s != "" && IsStripped(s[0]) {
      StripLeftBlank(s[1..]);
      assert IsBlankText(s) <==> IsBlankText(s[1..]) by {
        assert forall i :: 1 <= i < |s| ==> s[i] == s[1..][i - 1];
      }
    }
  }

  /** Stripping leaves nothing of a blank text and of no other. */
  lemma {:induction false} StripBlank(s: string)
    ensures Strip(s) == "" <==> IsBlankText(s)
    decreases |s|
  {
    StripLeftBlank(s);
    var left := StripLeft(s);
    if left != "" && IsStripped(left[|left| - 1]) {
      StripBlank(left[..|left| - 1]);
      assert left[..|left| - 1][0] == left[0];
    }
  }

  // ---------- picking ----------

  /** The places of the messages that are not withheld. */
  function Picks(provider: Provider, r: Request, history: seq<Message>): seq<nat>
    decreases |history|
  {
    if history == [] then []
    else
      var n := |history| - 1;
      Picks(provider, r, history[..n]) + if IsWithheld(provider, r, history[n]) then [] else [n]
  }

  lemma {:induction false} PicksAreSelection(provider: Provider, r: Request, history: seq<Message>)
    ensures IsSelection(Picks(provider, r, history), provider, r, history)
    decreases |history|
  {
    hide IsWithheld, IsSelection;
    if history == [] {
      NothingIsSelected(provider, r);
    } else {
      var n := |history| - 1;
      PicksAreSelection(provider, r, history[..n]);
      SelectionGrows(Picks(provider, r, history[..n]), provider, r, history[..n], history[n]);
      assert history == history[..n] + [history[n]];
      assert Picks(provider, r, history[..n]) + [] == Picks(provider, r, history[..n]);
    }
  }

  lemma NothingIsSelected(provider: Provider, r: Request)
    ensures IsSelection([], provider, r, [])
  {
  }

  lemma SelectionGrows(picks: seq<nat>, provider: Provider, r: Request, a: seq<Message>, m: Message)
    requires IsSelection(picks, provider, r, a)
    ensures IsSelection(picks + if IsWithheld(provider, r, m) then [] else [|a|], provider, r, a + [m])
  {
    hide IsWithheld;
    var more := if IsWithheld(provider, r, m) then [] else [|a|];
    var all := a + [m];
    assert |a| !in picks;
    forall k | 0 <= k < |all| ensures k in picks + more <==> !IsWithheld(provider, r, all[k]) {
      assert k < |a| ==> all[k] == a[k];
      assert k in picks + more <==> k in picks || k in more;
    }
  }

  /** The old rows' role is renamed; nothing else about a message changes. */
  function Renamed(m: Message): Message { m.(role := if m.role == Model then Assistant else m.role) }

  /** What is put in front of a chat or an input. */
  function Prefix(provider: Provider, r: Request, history: seq<Message>): seq<Message> {
    if UsesInput(r) || provider.Anthropic? then NonSystem(Sanitize(history))
    else if provider.OpenAi? then Sanitize(history)
    else UserAndAssistant(history)
  }

  lemma SanitizeOne(m: Message)
    ensures Sanitize([m]) == if m.role == Tool || (m.role == Assistant && IsBlankText(m.content)) then [] else [Renamed(m)]
  {
    StripBlank(m.content);
    assert [m][1..] == [];
  }

  lemma NonSystemOne(m: Message)
    ensures NonSystem([m]) == if m.role == System then [] else [m]
  {
    assert [m][1..] == [];
  }

  lemma PrefixGrows(provider: Provider, r: Request, a: seq<Message>, m: Message)
    requires UsesInput(r) || provider.OpenAi? || provider.Anthropic? || provider.Xai?
    ensures Prefix(provider, r, a + [m])
         == Prefix(provider, r, a) + if IsWithheld(provider, r, m) then [] else [Renamed(m)]
  {
    hide UsesInput, Strip, IsBlankText, Sanitize, NonSystem;
    SanitizeAppend(a, m);
    SanitizeOne(m);
    NonSystemConcat(Sanitize(a), Sanitize([m]));
    NonSystemOne(Renamed(m));
    NonSystemOfNothing();
    UserAndAssistantAppend(a, m);
    assert [m][1..] == [];
  }

  lemma NonSystemOfNothing()
    ensures NonSystem([]) == []
  {
  }

  lemma {:induction false} PrefixPicks(provider: Provider, r: Request, history: seq<Message>)
    requires UsesInput(r) || provider.OpenAi? || provider.Anthropic? || provider.Xai?
    ensures var f := Picks(provider, r, history); var prefix := Prefix(provider, r, history);
      && |prefix| == |f|
      && forall i :: 0 <= i < |f| ==> f[i] < |history| && prefix[i] == Renamed(history[f[i]])
    decreases |history|
  {
    hide IsWithheld, Prefix, UsesInput;
    if history == [] {
      EmptyPrefix(provider, r);
    } else {
      var n := |history| - 1;
      PrefixPicks(provider, r, history[..n]);
      PrefixGrows(provider, r, history[..n], history[n]);
      assert history == history[..n] + [history[n]];
    }
  }

  lemma EmptyPrefix(provider: Provider, r: Request)
    ensures Prefix(provider, r, []) == []
  {
  }

  // ---------- the prefix ----------

  /** Message `m` of the history as the first messages of a chat or an input show it. */
  predicate ShowsMessage(shown: Message, m: Message) {
    shown.content == m.content && shown.role == if m.role == Model then Assistant else m.role
  }

  /** Message `m` as Gemini is shown it: its text as the one part, under the role of the model exactly for an assistant. */
  predicate ShowsEntry(e: Entry, m: Message) {
    && e.Parts? && e.parts == [DictPart(m.content)] && e.role.Some?
    && (e.role.value == Model <==> m.role == Assistant || m.role == Model)
    && (m.role != Assistant ==> e.role.value == m.role)
  }

  /** The message at place `i` in front of the caller's own is `m`, in the form of this branch. */
  predicate ShowsAt(provider: Provider, r: Request, sent: Request, i: nat, m: Message) {
    if UsesInput(r) then
      && sent.input.Some? && sent.input.value.Items? && i < |sent.input.value.items|
      && sent.input.value.items[i].body.Plain?
      && ShowsMessage(Message(sent.input.value.items[i].role, sent.input.value.items[i].body.text), m)
    else if provider.Google? then
      && sent.contents.Given? && sent.contents.value.Entries? && i < |sent.contents.value.entries|
      && ShowsEntry(sent.contents.value.entries[i], m)
    else
      sent.messages.Given? && i < |sent.messages.value| && ShowsMessage(sent.messages.value[i], m)
  }

  /** In front of the caller's own messages there are those of the history at these places, and only withheld ones are missing. */
  ghost predicate Arrives(provider: Provider, r: Request, history: seq<Message>, sent: Request, picks: seq<nat>) {
    && IsSelection(picks, provider, r, history)
    && forall i :: 0 <= i < |picks| ==> ShowsAt(provider, r, sent, i, history[picks[i]])
  }

  /**
   On every branch the messages in front of the caller's own are those of the history that are not
   withheld, in order: the same words, and the same role but for the two names of the assistant's.
   Google is shown the whole history.
   */
  lemma HistoryArrives(provider: Provider, r: Request, history: seq<Message>) returns (picks: seq<nat>)
    requires Injected(provider, r, history).Ok?
    ensures var (sent, count) := Injected(provider, r, history).value;
      Arrives(provider, r, history, sent, picks) && count == |picks|
    ensures provider.Google? && !UsesInput(r) ==> |picks| == |history| && forall i :: 0 <= i < |history| ==> picks[i] == i
  {
    picks := Picks(provider, r, history);
    PicksAreSelection(provider, r, history);
    hide IsWithheld, IsSelection, Sanitize, NonSystem, UserAndAssistant;
    if UsesInput(r) || !provider.Google? {
      PrefixPicks(provider, r, history);
    } else {
      AllPicked(provider, r, history);
    }
  }

  lemma {:induction false} AllPicked(provider: Provider, r: Request, history: seq<Message>)
    requires provider.Google? && !UsesInput(r)
    ensures var f := Picks(provider, r, history);
      |f| == |history| && forall i :: 0 <= i < |history| ==> f[i] == i
    decreases |history|
  {
    if history != [] { AllPicked(provider, r, history[..|history| - 1]); }
  }
}
