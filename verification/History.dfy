/**
 What history injection puts in front of a request, and what the adapters later read out of it,
 provider by provider.
 */
module History {
  import opened Wrappers
  import opened Text

  /** The roles the code tells apart; the upper-case ones are how a protobuf message names them. */
  datatype Role =
    | User | Assistant | System | Tool | Model
    | ProtoUser | ProtoAssistant | ProtoSystem
    | OtherRole(name: string)

  datatype Message = Message(role: Role, content: string)

  // ---------- requests ----------

  datatype Content = Plain(text: string) | TextParts(texts: seq<string>)

  datatype Item = Item(role: Role, body: Content)

  datatype InputValue = NoInput | TextInput(text: string) | Items(items: seq<Item>)

  /** A dictionary without text counts as one with an empty text. */
  datatype Part = BarePart(text: string) | DictPart(text: string)

  datatype Entry = Bare(text: string) | Parts(parts: seq<Part>, role: Option<Role>)

  datatype Contents = Whole(text: string) | Entries(entries: seq<Entry>)

  /** An argument may be left out, and it may be given as a null. */
  datatype Given<T> = Absent | Null | Given(value: T)

  /** The arguments of a call that matter here. */
  datatype Request = Request(
    messages: Given<seq<Message>>,
    input: Option<InputValue>,
    instructions: Option<string>,
    contents: Given<Contents>,
    systemParts: seq<string>)

  datatype Provider = OpenAi | Anthropic | Xai | Google | OtherProvider

  /** The shape of the request decides before the provider does. */
  predicate UsesInput(r: Request) {
    (r.input.Some? || r.instructions.Some?) && r.messages.Absent?
  }

  // ---------- stripping ----------

  /** What Python strips: white space and the four separator controls. */
  predicate IsStripped(c: char) { IsWhitespace(c) || '\U{001C}' <= c <= '\U{001F}' }

  function StripLeft(s: string): (r: string)
    ensures |r| <= |s|
  {
    if s != "" && IsStripped(s[0]) then StripLeft(s[1..]) else s
  }

  function Strip(s: string): string
    decreases |s|
  {
    var left := StripLeft(s);
    if left != "" && IsStripped(left[|left| - 1]) then Strip(left[..|left| - 1]) else left
  }

  // ---------- the injected prefix ----------

  /** Drops what cannot be replayed and renames the role of old rows. */
  function Sanitize(history: seq<Message>): (r: seq<Message>)
    ensures |r| <= |history|
    ensures forall m :: m in r ==> m.role != Tool && m.role != Model
  {
    if history == [] then []
    else
      var m := history[0];
      (if m.role == Tool || (m.role == Assistant && Strip(m.content) == "") then []
       else [Message(if m.role == Model then Assistant else m.role, m.content)])
      + Sanitize(history[1..])
  }

  function NonSystem(messages: seq<Message>): (r: seq<Message>)
    ensures |r| <= |messages|
    ensures forall m :: m in r ==> m.role != System && m in messages
  {
    if messages == [] then []
    else (if messages[0].role != System then [messages[0]] else []) + NonSystem(messages[1..])
  }

  /** Only what was said by either side. */
  function UserAndAssistant(history: seq<Message>): (r: seq<Message>)
    ensures forall m :: m in r ==> m.role == User || m.role == Assistant
  {
    if history == [] then []
    else
      var said := history[0].role == User || history[0].role == Assistant;
      (if said then [history[0]] else []) + UserAndAssistant(history[1..])
  }

  function ToEntry(m: Message): Entry {
    Parts([DictPart(m.content)], Some(if m.role == Assistant then Model else m.role))
  }

  function ToEntries(history: seq<Message>): (r: seq<Entry>)
    ensures |r| == |history|
  {
    seq(|history|, i requires 0 <= i < |history| => ToEntry(history[i]))
  }

  function ToItems(messages: seq<Message>): (r: seq<Item>)
    ensures |r| == |messages|
  {
    seq(|messages|, i requires 0 <= i < |messages| => Item(messages[i].role, Plain(messages[i].content)))
  }

  function InputItems(input: Option<InputValue>): seq<Item> {
    match input
    case None => []
    case Some(NoInput) => []
    case Some(TextInput(text)) => [Item(User, Plain(text))]
    case Some(Items(items)) => items
  }

  function NormalizedEntries(contents: Given<Contents>): seq<Entry> {
    match contents
    case Absent => []
    case Null => []
    case Given(Whole(text)) => [Parts([DictPart(text)], Some(User))]
    case Given(Entries(entries)) =>
      seq(|entries|, i requires 0 <= i < |entries| =>
        if entries[i].Bare? then Parts([DictPart(entries[i].text)], Some(User)) else entries[i])
  }

  datatype InjectError = MissingMessages | NullIsNoList | UnknownProvider

  /** The request with the history in front, and how many messages were put there. */
  function Injected(provider: Provider, r: Request, history: seq<Message>): Result<(Request, nat), InjectError> {
    if UsesInput(r) then
      var prefix := NonSystem(Sanitize(history));
      Ok((r.(input := Some(Items(ToItems(prefix) + InputItems(r.input)))), |prefix|))
    else if provider.OtherProvider? then Err(UnknownProvider)
    else if provider.Google? then
      if r.contents.Null? then Err(NullIsNoList)
      else Ok((r.(contents := Given(Entries(ToEntries(history) + NormalizedEntries(r.contents)))), |history|))
    else if r.messages.Absent? then Err(MissingMessages)
    else if r.messages.Null? then Err(NullIsNoList)
    else
      var prefix := match provider
        case OpenAi => Sanitize(history)
        case Anthropic => NonSystem(Sanitize(history))
        case _ => UserAndAssistant(history);
      Ok((r.(messages := Given(prefix + r.messages.value)), |prefix|))
  }

  // ---------- what the adapters read ----------

  const CONTEXT_MARK := "<memori_context>"

  function IndexOf(text: string, part: string): (i: Option<nat>)
    ensures i.Some? ==> i.value + |part| <= |text| && text[i.value..i.value + |part|] == part
  {
    if |text| < |part| then None
    else if text[..|part|] == part then Some(0)
    else if text == "" then None
    else
      var rest := IndexOf(text[1..], part);
      if rest.Some? then Some(rest.value + 1) else None
  }

  /** The instructions without the recalled facts that were appended to them. */
  function CleanInstructions(instructions: Option<string>): string {
    match instructions
    case None => ""
    case Some(text) =>
      var i := IndexOf(text, CONTEXT_MARK);
      if i.Some? then Strip(text[..i.value]) else text
  }

  function Join(texts: seq<string>): string {
    if texts == [] then "" else if |texts| == 1 then texts[0] else texts[0] + " " + Join(texts[1..])
  }

  /** Text is always kept, even empty; a list of parts only if it says something. */
  function ItemMessage(item: Item): seq<Message> {
    match item.body
    case Plain(text) => [Message(item.role, text)]
    case TextParts(texts) => if Strip(Join(texts)) == "" then [] else [Message(item.role, Join(texts))]
  }

  function ItemMessages(items: seq<Item>): seq<Message> {
    if items == [] then [] else ItemMessage(items[0]) + ItemMessages(items[1..])
  }

  function SystemMessage(text: string): seq<Message> {
    if text == "" then [] else [Message(System, text)]
  }

  function NonEmpty(texts: seq<string>): seq<string> {
    if texts == [] then [] else (if texts[0] != "" then [texts[0]] else []) + NonEmpty(texts[1..])
  }

  /** A bare string is kept even if it is empty, a dictionary only if it has text. */
  function KeptTexts(parts: seq<Part>): seq<string> {
    if parts == [] then []
    else (if parts[0].BarePart? || parts[0].text != "" then [parts[0].text] else []) + KeptTexts(parts[1..])
  }

  /** An entry of which no part is kept is passed over; a bare string never is. */
  function EntryMessage(e: Entry): seq<Message> {
    match e
    case Bare(text) => [Message(User, text)]
    case Parts(parts, role) =>
      if KeptTexts(parts) == [] then []
      else [Message(if role.Some? then role.value else User, Join(KeptTexts(parts)))]
  }

  function EntryMessages(entries: seq<Entry>): seq<Message> {
    if entries == [] then [] else EntryMessage(entries[0]) + EntryMessages(entries[1..])
  }

  function XaiRole(role: Role): Option<Role> {
    match role
    case User => Some(User)
    case ProtoUser => Some(User)
    case Assistant => Some(Assistant)
    case ProtoAssistant => Some(Assistant)
    case System => Some(System)
    case ProtoSystem => Some(System)
    case _ => None
  }

  function XaiMessages(messages: seq<Message>): seq<Message> {
    if messages == [] then []
    else
      var role := XaiRole(messages[0].role);
      (if role.Some? then [Message(role.value, messages[0].content)] else []) + XaiMessages(messages[1..])
  }

  function MessagesOf(r: Request): seq<Message> {
    if r.messages.Given? then r.messages.value else []
  }

  function GoogleSystem(r: Request): (m: seq<Message>)
    ensures |m| <= 1 && NonSystem(m) == []
  {
    if NonEmpty(r.systemParts) == [] then [] else [Message(System, Join(NonEmpty(r.systemParts)))]
  }

  function ContentsMessages(contents: Given<Contents>): seq<Message> {
    match contents
    case Absent => []
    case Null => []
    case Given(Whole(text)) => [Message(User, text)]
    case Given(Entries(entries)) => EntryMessages(entries)
  }

  /** What the provider's adapter reads out of a request, before anything is cut off. */
  function Formatted(provider: Provider, r: Request): seq<Message> {
    match provider
    case OpenAi =>
      if r.input.Some? || r.instructions.Some? then
        SystemMessage(CleanInstructions(r.instructions)) + ItemMessages(InputItems(r.input))
      else MessagesOf(r)
    case Anthropic => MessagesOf(r)
    case Xai => XaiMessages(MessagesOf(r))
    case Google =>
      GoogleSystem(r) + ContentsMessages(r.contents)
    case OtherProvider => []
  }

  /** Python's `messages[count:]`. */
  function Drop(messages: seq<Message>, count: nat): seq<Message> {
    if count <= |messages| then messages[count..] else []
  }

  /** What is stored of the request: the adapter's messages behind the cut, without system messages. */
  function StoredOf(provider: Provider, sent: Request, count: nat): seq<Message> {
    NonSystem(Drop(Formatted(provider, sent), count))
  }

  /** What should be stored: the caller's own messages. */
  function OwnMessages(provider: Provider, r: Request): seq<Message> {
    NonSystem(Formatted(provider, r))
  }
}
