/** The session UI of frontend.py: the per-session conversation store, the Send
    pipeline that turns a typed query into a request and stores both sides of the
    exchange, and the read-only views (sidebar, current conversation, export, footer).

    Widgets, rendering and the HTTP transport are not modelled: the sidebar's widget
    values arrive as `Settings`, the POST to the backend is a function parameter from
    request to `HttpOutcome`, and the id generator and the clock supply plain values. */
module Frontend {
  import opened Wrappers
  import opened Text
  import opened OrderedDict
  import opened Json
  import opened Backend

  type ConvId = string

  /** A reading of `datetime.now()`, kept opaque. */
  type Instant = int

  const TITLE_LIMIT: nat := 50
  const CHAIN_WINDOW: nat := 4

  datatype Role = User | Assistant

  function RoleName(role: Role): string {
    match role
    case User => "user"
    case Assistant => "assistant"
  }

  datatype ModelInfo = ModelInfo(model: string, provider: string, searchEnabled: bool, template: string)

  datatype Message = Message(role: Role, content: string, timestamp: Instant)

  datatype Conversation = Conversation(title: string, messages: seq<Message>, createdAt: Instant, modelInfo: ModelInfo)

  /** `st.session_state.conversations`: conversation id to record, in creation order. */
  type Store = Dict<ConvId, Conversation>

  /** The models offered per provider in the sidebar. */
  const MODELS: Dict<string, seq<string>> := Dict(
    ["Groq", "OpenAI"],
    map[
      "Groq" := ["llama3-70b-8192", "mixtral-8x7b-32768", "llama-3.3-70b-versatile"],
      "OpenAI" := ["gpt-4o", "gpt-3.5-turbo"]])

  /** Template name to its system prompt. */
  const TEMPLATES: Dict<string, string> := Dict(
    ["Research Analyst", "Content Strategist", "Custom Agent", "Financial Advisor", "Marketing Specialist"],
    map[
      "Research Analyst" := "Act as a research analyst.",
      "Content Strategist" := "Act as a content strategist.",
      "Custom Agent" := "You are a helpful AI assistant.",
      "Financial Advisor" := "Act as a financial advisor.",
      "Marketing Specialist" := "Act as a marketing expert."])

  /** The values of the sidebar widgets when Send is pressed. */
  datatype Settings = Settings(template: string, provider: string, model: string, allowWebSearch: bool)

  /** Settings the sidebar widgets can produce: a listed template, a listed provider and
      one of that provider's models. */
  predicate Selectable(settings: Settings) {
    settings.template in TEMPLATES.entries &&
    settings.provider in MODELS.entries &&
    settings.model in MODELS.entries[settings.provider]
  }

  // ---------------------------------------------------------------------------
  // save_message

  /** The title of a new conversation: the first message when it has at most 50
      characters, otherwise its first 50 characters and an ellipsis. */
  function Title(content: string): (t: string)
    ensures |t| <= TITLE_LIMIT + 3
    ensures t[..Min(|t|, TITLE_LIMIT)] == content[..Min(|content|, TITLE_LIMIT)]
    ensures |content| <= TITLE_LIMIT ==> t == content
    ensures |content| > TITLE_LIMIT ==> |t| == TITLE_LIMIT + 3 && t[TITLE_LIMIT..] == "..."
  {
    if |content| > TITLE_LIMIT then content[..TITLE_LIMIT] + "..." else content
  }

  /** `conversations.get(id, {}).get("messages", [])` */
  function MessagesOf(store: Store, id: ConvId): (ms: seq<Message>)
    ensures id in store.entries ==> ms == store.entries[id].messages
    ensures id !in store.entries ==> ms == []
  {
    match store.Get(id)
    case Some(c) => c.messages
    case None => []
  }

  /** Every stored conversation holds at least one message: a record is only created
      by `save_message`, together with the message that creates it. */
  predicate NoEmptyConversation(store: Store) {
    forall k :: k in store.entries ==> |store.entries[k].messages| >= 1
  }

  /** The store after `save_message(id, role, content, info)` at time `now`: a record is
      created only for an id not yet present, titled after `content`; then exactly one
      message is appended to that record, and nothing else changes. */
  function Saved(store: Store, id: ConvId, role: Role, content: string, info: ModelInfo, now: Instant): (s: Store)
    requires store.Valid()
    ensures s.Valid()
    ensures MessagesOf(s, id) == MessagesOf(store, id) + [Message(role, content, now)]
    ensures id !in store.entries ==>
              s.keys == store.keys + [id] &&
              s.entries[id] == Conversation(Title(content), [Message(role, content, now)], now, info)
    ensures id in store.entries ==>
              s.keys == store.keys &&
              s.entries[id].title == store.entries[id].title &&
              s.entries[id].createdAt == store.entries[id].createdAt &&
              s.entries[id].modelInfo == store.entries[id].modelInfo
    ensures forall k :: k != id ==> s.Get(k) == store.Get(k)
  {
    var record := match store.Get(id)
      case Some(c) => c
      case None => Conversation(Title(content), [], now, info);
    store.Put(id, record.(messages := record.messages + [Message(role, content, now)]))
  }

  /** Saving keeps every stored conversation non-empty. */
  lemma SavedKeepsNonEmpty(store: Store, id: ConvId, role: Role, content: string, info: ModelInfo, now: Instant)
    requires store.Valid() && NoEmptyConversation(store)
    ensures NoEmptyConversation(Saved(store, id, role, content, info, now))
  {
    var s := Saved(store, id, role, content, info, now);
    forall k | k in s.entries
      ensures |s.entries[k].messages| >= 1
    {
      if k == id {
        assert MessagesOf(s, id) == s.entries[id].messages;
      } else {
        assert s.Get(k) == store.Get(k);
      }
    }
  }

  /** One call of `save_message`. */
  datatype SaveCall = SaveCall(id: ConvId, role: Role, content: string, info: ModelInfo, now: Instant)

  /** The store after a sequence of `save_message` calls, in order. */
  function SavedAll(store: Store, calls: seq<SaveCall>): (s: Store)
    requires store.Valid()
    ensures s.Valid()
  {
    if calls == [] then store
    else
      var c := calls[|calls| - 1];
      Saved(SavedAll(store, calls[..|calls| - 1]), c.id, c.role, c.content, c.info, c.now)
  }

  /** The messages that the calls among `calls` addressed to `id` append, in call order. */
  function MessagesFor(calls: seq<SaveCall>, id: ConvId): (ms: seq<Message>)
    ensures |ms| <= |calls|
  {
    if calls == [] then []
    else
      var c := calls[|calls| - 1];
      MessagesFor(calls[..|calls| - 1], id) + (if c.id == id then [Message(c.role, c.content, c.now)] else [])
  }

  /** One save appends to conversation `id` exactly the message addressed to it, if any. */
  lemma SaveCallMessages(before: Store, c: SaveCall, id: ConvId)
    requires before.Valid()
    ensures MessagesOf(Saved(before, c.id, c.role, c.content, c.info, c.now), id) ==
            MessagesOf(before, id) + (if c.id == id then [Message(c.role, c.content, c.now)] else [])
  {
    var after := Saved(before, c.id, c.role, c.content, c.info, c.now);
    if c.id != id {
      assert after.Get(id) == before.Get(id);
      assert MessagesOf(before, id) + [] == MessagesOf(before, id);
    }
  }

  /** The store is append-only: after any sequence of saves, a conversation holds the
      messages it held before followed by one message per save addressed to it, in the
      order of the calls. */
  lemma {:induction false} AppendOnly(store: Store, calls: seq<SaveCall>, id: ConvId)
    requires store.Valid()
    ensures MessagesOf(SavedAll(store, calls), id) == MessagesOf(store, id) + MessagesFor(calls, id)
  {
    if calls != [] {
      var init := calls[..|calls| - 1];
      var c := calls[|calls| - 1];
      AppendOnly(store, init, id);
      SaveCallMessages(SavedAll(store, init), c, id);
    }
  }

  // ---------------------------------------------------------------------------
  // Chain mode and the request

  /** `messages[-4:]` */
  function Recent(messages: seq<Message>): (h: seq<Message>)
    ensures |h| == Min(|messages|, CHAIN_WINDOW)
    ensures h == messages[|messages| - |h|..]
  {
    if |messages| <= CHAIN_WINDOW then messages else messages[|messages| - CHAIN_WINDOW..]
  }

  /** `f"{m['role']}: {m['content']}"` */
  function Render(m: Message): (line: string)
    ensures |line| > 0
  {
    RoleName(m.role) + ": " + m.content
  }

  function ContextLines(history: seq<Message>): (lines: seq<string>)
    ensures |lines| == |history|
    ensures forall i :: 0 <= i < |history| ==> lines[i] == Render(history[i])
  {
    seq(|history|, i requires 0 <= i < |history| => Render(history[i]))
  }

  /** `"\n".join(...)` of the rendered history. */
  function ChainContext(history: seq<Message>): string {
    Join("\n", ContextLines(history))
  }

  /** The single query string chain mode sends. */
  function ChainQuery(context: string, query: string): string {
    "Previous context:\n" + context + "\n\nCurrent query: " + query
  }

  /** The `messages` list of the request for `query`: the query alone, or in chain mode
      the query framed by the last messages stored in conversation `id`. */
  function OutgoingMessages(query: string, chainMode: bool, store: Store, id: ConvId): (ms: seq<string>)
    ensures |ms| == 1
    ensures !chainMode ==> ms == [query]
  {
    if chainMode then [ChainQuery(ChainContext(Recent(MessagesOf(store, id))), query)] else [query]
  }

  /** The context is empty exactly when there is no history. */
  lemma ChainContextEmpty(history: seq<Message>)
    ensures ChainContext(history) == "" <==> history == []
  {
    if history != [] {
      assert |ChainContext(history)| >= |Render(history[0])|;
    }
  }

  /** The context lists the history in order, one rendered message per line. */
  lemma ChainContextSnoc(history: seq<Message>, m: Message)
    requires history != []
    ensures ChainContext(history + [m]) == ChainContext(history) + "\n" + Render(m)
  {
    assert ContextLines(history + [m]) == ContextLines(history) + [Render(m)];
    JoinSnoc("\n", ContextLines(history), Render(m));
  }

  /** In chain mode the request carries one string: the framing, the last at most four
      stored messages of the conversation as "role: content" lines, and the query. */
  lemma ChainedRequest(query: string, store: Store, id: ConvId)
    ensures var ms := OutgoingMessages(query, true, store, id);
            var history := Recent(MessagesOf(store, id));
            && |history| == Min(|MessagesOf(store, id)|, CHAIN_WINDOW)
            && history == MessagesOf(store, id)[|MessagesOf(store, id)| - |history|..]
            && ms == ["Previous context:\n" + Join("\n", ContextLines(history)) + "\n\nCurrent query: " + query]
  {
  }

  /** On a conversation with no stored messages the context is empty. */
  lemma FreshConversationContext(query: string, store: Store, id: ConvId)
    requires id !in store.entries
    ensures OutgoingMessages(query, true, store, id) == ["Previous context:\n\n\nCurrent query: " + query]
  {
    assert Recent(MessagesOf(store, id)) == [];
    ChainContextEmpty([]);
    assert "Previous context:\n" + "" + "\n\nCurrent query: " + query == "Previous context:\n\n\nCurrent query: " + query;
  }

  /** The request body the Send handler builds. */
  function Payload(settings: Settings, messages: seq<string>): (p: RequestState)
    requires settings.template in TEMPLATES.entries
    ensures p.modelName == settings.model && p.modelProvider == settings.provider
    ensures p.systemPrompt == TEMPLATES.entries[settings.template]
    ensures p.messages == messages && p.allowSearch == settings.allowWebSearch
  {
    RequestState(settings.model, settings.provider, TEMPLATES.entries[settings.template], messages, settings.allowWebSearch)
  }

  /** The `model_info` stored with each message of a Send. */
  function Info(settings: Settings): ModelInfo {
    ModelInfo(settings.model, settings.provider, settings.allowWebSearch, settings.template)
  }

  // ---------------------------------------------------------------------------
  // get_agent_response

  /** The body of an HTTP response: JSON, or text `response.json()` cannot parse. */
  datatype Body = JsonBody(value: Json) | Unparseable(error: string)

  /** What `requests.post` produces: a response, or an exception (connection refused,
      the 30-second timeout, ...). */
  datatype HttpOutcome = Response(status: int, body: Body) | Failed(error: string)

  const EXCEPTION_OCCURRED: string := "Exception occurred: "
  const STATUS_ERROR: string := "Error: "

  /** `get_agent_response`: the text stored as the assistant's answer. The body is
      parsed before the status is looked at, so an unparseable body is an exception
      whatever the status. */
  function GetAgentResponse(outcome: HttpOutcome): (r: string)
    ensures outcome.Failed? ==> r == EXCEPTION_OCCURRED + outcome.error
    ensures outcome.Response? && outcome.body.Unparseable? ==> r == EXCEPTION_OCCURRED + outcome.body.error
  {
    match outcome
    case Failed(e) => EXCEPTION_OCCURRED + e
    case Response(status, body) =>
      match body
      case Unparseable(e) => EXCEPTION_OCCURRED + e
      case JsonBody(data) =>
        if status == 200 then
          (if data.JString? then data.s else Dumps(data))
        else
          STATUS_ERROR + Decimal(status)
  }

  /** A 200 response whose JSON is a string is stored as that string, unchanged. */
  lemma StringReplyUnchanged(s: string)
    ensures GetAgentResponse(Response(200, JsonBody(JString(s)))) == s
  {
  }

  /** A 200 response with any other JSON is stored as its JSON text, which is ASCII. */
  lemma OtherReplyAsJsonText(data: Json)
    requires !data.JString?
    ensures GetAgentResponse(Response(200, JsonBody(data))) == Dumps(data)
    ensures Ascii(GetAgentResponse(Response(200, JsonBody(data))))
  {
    DumpsAscii(data);
  }

  /** Any other status is stored as "Error: " and the status code, which can be read back. */
  lemma ErrorStatusRecoverable(status: int, data: Json)
    requires status != 200
    ensures var r := GetAgentResponse(Response(status, JsonBody(data)));
            && STATUS_ERROR <= r
            && r[|STATUS_ERROR|..] == Decimal(status)
            && ParseDecimal(Decimal(status)) == status
  {
    DecimalRoundTrip(status);
  }

  // ---------------------------------------------------------------------------
  // Views

  /** What the main pane does with the current id (lines 146-147): nothing when there is
      no current id, show its conversation, or fail with a KeyError when the id is not
      in the store. */
  datatype Display = NoConversation | Shows(conversation: Conversation) | MissingKey(id: ConvId)

  /** Python truthiness of the current id: `None` and `""` are false. */
  predicate Truthy(current: Option<ConvId>) {
    current.Some? && current.value != ""
  }

  function Shown(current: Option<ConvId>, store: Store): (d: Display)
    ensures d.MissingKey? <==> Truthy(current) && current.value !in store.entries
    ensures d.Shows? ==> Truthy(current) && store.Get(current.value) == Some(d.conversation)
    ensures d.NoConversation? <==> !Truthy(current)
  {
    if !Truthy(current) then NoConversation
    else if current.value in store.entries then Shows(store.entries[current.value])
    else MissingKey(current.value)
  }

  function Reverse<T>(s: seq<T>): (r: seq<T>)
    ensures |r| == |s|
    ensures forall i :: 0 <= i < |s| ==> r[i] == s[|s| - 1 - i]
  {
    if s == [] then [] else Reverse(s[1..]) + [s[0]]
  }

  /** The sidebar buttons, `reversed(list(conversations.items()))`: id and title of every
      conversation, most recently created first. */
  function Sidebar(store: Store): (buttons: seq<(ConvId, string)>)
    requires store.Valid()
    ensures |buttons| == |store.keys|
    ensures forall i :: 0 <= i < |buttons| ==>
              var k := store.keys[|store.keys| - 1 - i];
              k in store.entries && buttons[i] == (k, store.entries[k].title)
  {
    var items := Reverse(store.Items());
    seq(|items|, i requires 0 <= i < |items| => (items[i].0, items[i].1.title))
  }

  /** A newly created conversation heads the sidebar; the others keep their order below it. */
  lemma NewestFirst(store: Store, id: ConvId, role: Role, content: string, info: ModelInfo, now: Instant)
    requires store.Valid() && id !in store.entries
    ensures var s := Saved(store, id, role, content, info, now);
            Sidebar(s) == [(id, Title(content))] + Sidebar(store)
  {
    var s := Saved(store, id, role, content, info, now);
    var after, before := Sidebar(s), Sidebar(store);
    SidebarHead(store, id, role, content, info, now);
    forall i | 1 <= i < |after| ensures after[i] == before[i - 1] {
      SidebarShift(store, id, role, content, info, now, i);
    }
    PrependedEq(after, (id, Title(content)), before);
  }

  lemma PrependedEq<T>(a: seq<T>, x: T, b: seq<T>)
    requires |a| == |b| + 1 && a[0] == x
    requires forall i :: 1 <= i < |a| ==> a[i] == b[i - 1]
    ensures a == [x] + b
  {
    assert forall i :: 0 <= i < |a| ==> a[i] == ([x] + b)[i];
  }

  lemma SidebarHead(store: Store, id: ConvId, role: Role, content: string, info: ModelInfo, now: Instant)
    requires store.Valid() && id !in store.entries
    ensures var s := Saved(store, id, role, content, info, now);
            |Sidebar(s)| == |Sidebar(store)| + 1 && Sidebar(s)[0] == (id, Title(content))
  {
    var s := Saved(store, id, role, content, info, now);
    assert s.keys == store.keys + [id];
  }

  lemma SidebarShift(store: Store, id: ConvId, role: Role, content: string, info: ModelInfo, now: Instant, i: nat)
    requires store.Valid() && id !in store.entries && 1 <= i <= |store.keys|
    ensures var s := Saved(store, id, role, content, info, now);
            Sidebar(s)[i] == Sidebar(store)[i - 1]
  {
    var s := Saved(store, id, role, content, info, now);
    var k := store.keys[|store.keys| - i];
    assert s.keys[|s.keys| - 1 - i] == k by {
      assert s.keys == store.keys + [id];
    }
    assert s.entries[k] == store.entries[k] by {
      assert k != id;
      assert s.Get(k) == store.Get(k);
    }
    assert Sidebar(s)[i] == (k, s.entries[k].title);
    assert Sidebar(store)[i - 1] == (k, store.entries[k].title);
  }

  function SumMessages(keys: seq<ConvId>, entries: map<ConvId, Conversation>): nat
    requires forall k :: k in keys ==> k in entries
  {
    if keys == [] then 0
    else SumMessages(keys[..|keys| - 1], entries) + |entries[keys[|keys| - 1]].messages|
  }

  /** The sum is at least each term, and at least the number of terms when none is empty. */
  lemma {:induction false} SumBounds(keys: seq<ConvId>, entries: map<ConvId, Conversation>)
    requires forall k :: k in keys ==> k in entries
    ensures forall i :: 0 <= i < |keys| ==> |entries[keys[i]].messages| <= SumMessages(keys, entries)
    ensures (forall i :: 0 <= i < |keys| ==> |entries[keys[i]].messages| >= 1) ==> SumMessages(keys, entries) >= |keys|
  {
    if keys != [] {
      var init := keys[..|keys| - 1];
      SumBounds(init, entries);
      assert forall i :: 0 <= i < |init| ==> init[i] == keys[i];
    }
  }

  /** The footer's total: the number of messages over all conversations. */
  function TotalMessages(store: Store): nat
    requires store.Valid()
  {
    SumMessages(store.keys, store.entries)
  }

  /** The footer's total counts every message of every conversation, so it is at least
      the size of any one conversation, and at least the number of conversations when
      none is empty. */
  lemma TotalBounds(store: Store)
    requires store.Valid()
    ensures forall k :: k in store.entries ==> |store.entries[k].messages| <= TotalMessages(store)
    ensures NoEmptyConversation(store) ==> TotalMessages(store) >= ConversationCount(store)
  {
    LenIsKeyCount(store);
    SumBounds(store.keys, store.entries);
  }

  /** The footer's conversation count, `len(conversations)`. */
  function ConversationCount(store: Store): (n: nat)
    requires store.Valid()
    ensures n == |store.entries|
  {
    LenIsKeyCount(store);
    |store.keys|
  }

  lemma {:induction false} SumIgnoresOthers(keys: seq<ConvId>, entries: map<ConvId, Conversation>, k: ConvId, c: Conversation)
    requires forall k' :: k' in keys ==> k' in entries
    requires k !in keys
    ensures SumMessages(keys, entries[k := c]) == SumMessages(keys, entries)
  {
    if keys != [] {
      SumIgnoresOthers(keys[..|keys| - 1], entries, k, c);
    }
  }

  lemma {:induction false} SumReplaces(keys: seq<ConvId>, entries: map<ConvId, Conversation>, k: ConvId, c: Conversation)
    requires forall k' :: k' in keys ==> k' in entries
    requires forall i, j :: 0 <= i < j < |keys| ==> keys[i] != keys[j]
    requires k in keys
    ensures SumMessages(keys, entries[k := c]) + |entries[k].messages| == SumMessages(keys, entries) + |c.messages|
  {
    var init := keys[..|keys| - 1];
    if keys[|keys| - 1] == k {
      assert k !in init;
      SumIgnoresOthers(init, entries, k, c);
    } else {
      SumReplaces(init, entries, k, c);
    }
  }

  /** Every save adds exactly one message to the footer's total. */
  lemma SaveAddsOneMessage(store: Store, id: ConvId, role: Role, content: string, info: ModelInfo, now: Instant)
    requires store.Valid()
    ensures TotalMessages(Saved(store, id, role, content, info, now)) == TotalMessages(store) + 1
  {
    var s := Saved(store, id, role, content, info, now);
    if id in store.entries {
      SumReplaces(store.keys, store.entries, id, s.entries[id]);
      assert s.entries == store.entries[id := s.entries[id]];
    } else {
      SumIgnoresOthers(store.keys, store.entries, id, s.entries[id]);
      assert s.keys[..|s.keys| - 1] == store.keys;
      assert s.entries == store.entries[id := s.entries[id]];
    }
  }

  // ---------------------------------------------------------------------------
  // Export

  datatype ExportedMessage = ExportedMessage(role: string, content: string, timestamp: string)
  datatype ExportedConversation = ExportedConversation(
    title: string, messages: seq<ExportedMessage>, createdAt: string, modelInfo: ModelInfo)
  datatype ExportDocument = ExportDocument(conversations: Dict<ConvId, ExportedConversation>, exportedAt: string)

  function ExportMessage(m: Message, iso: Instant -> string): ExportedMessage {
    ExportedMessage(RoleName(m.role), m.content, iso(m.timestamp))
  }

  function ExportConversation(c: Conversation, iso: Instant -> string): (e: ExportedConversation)
    ensures |e.messages| == |c.messages|
  {
    ExportedConversation(
      c.title,
      seq(|c.messages|, i requires 0 <= i < |c.messages| => ExportMessage(c.messages[i], iso)),
      iso(c.createdAt),
      c.modelInfo)
  }

  /** The export structure: every conversation under its id, in the same order, with the
      same title, model info and messages, timestamps rendered by `iso`. */
  function Export(store: Store, now: Instant, iso: Instant -> string): (doc: ExportDocument)
    requires store.Valid()
    ensures doc.conversations.Valid() && doc.conversations.keys == store.keys
    ensures forall k :: k in store.entries ==>
              var e := doc.conversations.entries[k];
              && e.title == store.entries[k].title
              && e.modelInfo == store.entries[k].modelInfo
              && |e.messages| == |store.entries[k].messages|
    ensures doc.exportedAt == iso(now)
  {
    ExportDocument(
      Dict(store.keys, map k | k in store.entries :: ExportConversation(store.entries[k], iso)),
      iso(now))
  }

  function ParseRole(name: string): Role {
    if name == "user" then User else Assistant
  }

  /** Reading an export back, with `parse` the inverse of the timestamp format. */
  function Import(doc: ExportDocument, parse: string -> Instant): Store {
    Dict(doc.conversations.keys,
         map k | k in doc.conversations.entries :: ImportConversation(doc.conversations.entries[k], parse))
  }

  function ImportConversation(e: ExportedConversation, parse: string -> Instant): Conversation {
    Conversation(
      e.title,
      seq(|e.messages|, i requires 0 <= i < |e.messages| =>
        Message(ParseRole(e.messages[i].role), e.messages[i].content, parse(e.messages[i].timestamp))),
      parse(e.createdAt),
      e.modelInfo)
  }

  /** Reading an export back reproduces the store exactly — ids, order, titles, roles,
      contents, model info — provided the timestamp text is read back as the same instant. */
  lemma ExportRoundTrip(store: Store, now: Instant, iso: Instant -> string, parse: string -> Instant)
    requires store.Valid()
    requires forall t :: parse(iso(t)) == t
    ensures Import(Export(store, now, iso), parse) == store
  {
    var back := Import(Export(store, now, iso), parse);
    forall k | k in store.entries ensures back.entries[k] == store.entries[k] {
      var c := store.entries[k];
      var r := back.entries[k];
      assert r.messages == c.messages by {
        forall i | 0 <= i < |c.messages| ensures r.messages[i] == c.messages[i] {
          assert ParseRole(RoleName(c.messages[i].role)) == c.messages[i].role;
        }
      }
    }
    assert back.entries == store.entries;
  }

  // ---------------------------------------------------------------------------
  // The session

  /** The outcome of pressing Send: a warning for a blank query, or the request that
      was posted and the answer that was stored. */
  datatype SendOutcome = Warned | Delivered(payload: RequestState, reply: string)

  /** The id a Send uses: the current one when it is truthy, the freshly generated one
      otherwise. */
  function SendTarget(current: Option<ConvId>, freshId: ConvId): ConvId {
    if Truthy(current) then current.value else freshId
  }

  /** A non-blank Send appends exactly the user message and then the answer to the target
      conversation, adds two messages to the total, titles a new conversation after the
      query, and changes no other conversation. */
  lemma SendTurn(store: Store, id: ConvId, query: string, reply: string, info: ModelInfo, t1: Instant, t2: Instant)
    requires store.Valid()
    ensures var s := Saved(Saved(store, id, User, query, info, t1), id, Assistant, reply, info, t2);
            && MessagesOf(s, id) == MessagesOf(store, id) + [Message(User, query, t1), Message(Assistant, reply, t2)]
            && TotalMessages(s) == TotalMessages(store) + 2
            && (id !in store.entries ==> s.entries[id].title == Title(query) && s.keys == store.keys + [id])
            && (id in store.entries ==> s.entries[id].title == store.entries[id].title && s.keys == store.keys)
            && forall k :: k != id ==> s.Get(k) == store.Get(k)
  {
    var s1 := Saved(store, id, User, query, info, t1);
    SaveAddsOneMessage(store, id, User, query, info, t1);
    SaveAddsOneMessage(s1, id, Assistant, reply, info, t2);
    TwoSavesMessages(store, id, query, reply, info, t1, t2);
    TwoSavesOthers(store, id, query, reply, info, t1, t2);
  }

  lemma TwoSavesMessages(store: Store, id: ConvId, query: string, reply: string, info: ModelInfo, t1: Instant, t2: Instant)
    requires store.Valid()
    ensures var s := Saved(Saved(store, id, User, query, info, t1), id, Assistant, reply, info, t2);
            MessagesOf(s, id) == MessagesOf(store, id) + [Message(User, query, t1), Message(Assistant, reply, t2)]
  {
    var s1 := Saved(store, id, User, query, info, t1);
    var m1, m2 := Message(User, query, t1), Message(Assistant, reply, t2);
    assert MessagesOf(store, id) + [m1] + [m2] == MessagesOf(store, id) + [m1, m2];
  }

  lemma TwoSavesOthers(store: Store, id: ConvId, query: string, reply: string, info: ModelInfo, t1: Instant, t2: Instant)
    requires store.Valid()
    ensures var s := Saved(Saved(store, id, User, query, info, t1), id, Assistant, reply, info, t2);
            && (id !in store.entries ==> s.entries[id].title == Title(query) && s.keys == store.keys + [id])
            && (id in store.entries ==> s.entries[id].title == store.entries[id].title && s.keys == store.keys)
            && forall k :: k != id ==> s.Get(k) == store.Get(k)
  {
    var s1 := Saved(store, id, User, query, info, t1);
    var s := Saved(s1, id, Assistant, reply, info, t2);
    assert id in s1.entries && s1.entries[id].title == s.entries[id].title && s1.keys == s.keys;
    forall k | k != id
      ensures s.Get(k) == store.Get(k)
    {
      assert s.Get(k) == s1.Get(k);
    }
  }

  class Session {
    var conversations: Store
    var currentConversationId: Option<ConvId>
    var chainMode: bool
    var queryCounter: nat

    ghost predicate Valid()
      reads this
    {
      conversations.Valid() && NoEmptyConversation(conversations)
    }

    /** The main pane can show the current conversation (no KeyError at line 147). */
    ghost predicate CurrentResolves()
      reads this
    {
      !Shown(currentConversationId, conversations).MissingKey?
    }

    /** The session state a new browser session starts with. */
    constructor ()
      ensures Valid() && CurrentResolves()
      ensures conversations == Empty() && currentConversationId == None
      ensures !chainMode && queryCounter == 0
    {
      conversations := Empty();
      currentConversationId := None;
      chainMode := false;
      queryCounter := 0;
    }

    /** `save_message`: create the record if the id is new, then append the message. */
    method SaveMessage(id: ConvId, role: Role, content: string, info: ModelInfo, now: Instant)
      requires Valid()
      modifies this
      ensures Valid()
      ensures conversations == Saved(old(conversations), id, role, content, info, now)
      ensures currentConversationId == old(currentConversationId)
      ensures chainMode == old(chainMode) && queryCounter == old(queryCounter)
    {
      if id !in conversations.entries {
        var title := Title(content);
        conversations := conversations.Put(id, Conversation(title, [], now, info));
      }
      var record := conversations.entries[id];
      conversations := conversations.Put(id, record.(messages := record.messages + [Message(role, content, now)]));
      SavedKeepsNonEmpty(old(conversations), id, role, content, info, now);
    }

    /** The Send button. A blank query only raises a warning. Otherwise the current id
        is allocated if needed, the request is built from the store as it was before the
        query is saved, the query is saved, the request is posted, the answer is saved
        and the input counter advances. */
    method Send(userQuery: string, settings: Settings, freshId: ConvId, userTime: Instant, replyTime: Instant,
                post: RequestState -> HttpOutcome) returns (outcome: SendOutcome)
      requires Valid()
      requires settings.template in TEMPLATES.entries
      modifies this
      ensures Valid()
      ensures chainMode == old(chainMode)
      ensures Blank(userQuery) ==>
                && outcome == Warned
                && conversations == old(conversations)
                && currentConversationId == old(currentConversationId)
                && queryCounter == old(queryCounter)
      ensures !Blank(userQuery) ==>
                var id := SendTarget(old(currentConversationId), freshId);
                var payload := Payload(settings, OutgoingMessages(userQuery, old(chainMode), old(conversations), id));
                var reply := GetAgentResponse(post(payload));
                && outcome == Delivered(payload, reply)
                && currentConversationId == Some(id)
                && conversations == Saved(Saved(old(conversations), id, User, userQuery, Info(settings), userTime),
                                          id, Assistant, reply, Info(settings), replyTime)
                && queryCounter == old(queryCounter) + 1
                && CurrentResolves()
    {
      if Strip(userQuery) == "" {
        outcome := Warned;
        return;
      }
      if !Truthy(currentConversationId) {
        currentConversationId := Some(freshId);
      }
      var id := currentConversationId.value;
      var messages := OutgoingMessages(userQuery, chainMode, conversations, id);
      var payload := Payload(settings, messages);
      var info := Info(settings);
      SaveMessage(id, User, userQuery, info, userTime);
      var reply := GetAgentResponse(post(payload));
      SaveMessage(id, Assistant, reply, info, replyTime);
      queryCounter := queryCounter + 1;
      outcome := Delivered(payload, reply);
    }

    /** "Clear All" as written: the store is emptied but the current id is kept, so when
        a conversation was current the page's lookup of it now fails. */
    method ClearAll()
      requires Valid()
      modifies this
      ensures Valid()
      ensures conversations == Empty()
      ensures currentConversationId == old(currentConversationId)
      ensures chainMode == old(chainMode) && queryCounter == old(queryCounter)
      ensures Truthy(old(currentConversationId)) ==> !CurrentResolves()
    {
      conversations := Empty();
    }

    /** "Clear All" as evidently intended: the store is emptied and no conversation is
        current any more, so the page can always be drawn. */
    method ClearAllAndDeselect()
      requires Valid()
      modifies this
      ensures Valid() && CurrentResolves()
      ensures conversations == Empty() && currentConversationId == None
      ensures chainMode == old(chainMode) && queryCounter == old(queryCounter)
    {
      conversations := Empty();
      currentConversationId := None;
    }

    /** "New Chat": no conversation is current; the next Send allocates a new id. */
    method NewChat()
      requires Valid()
      modifies this
      ensures Valid() && CurrentResolves()
      ensures currentConversationId == None && conversations == old(conversations)
      ensures chainMode == old(chainMode) && queryCounter == old(queryCounter)
    {
      currentConversationId := None;
    }

    /** A sidebar button: the chosen conversation becomes current. */
    method SelectConversation(id: ConvId)
      requires Valid() && id in conversations.entries
      modifies this
      ensures Valid() && CurrentResolves()
      ensures currentConversationId == Some(id) && conversations == old(conversations)
      ensures chainMode == old(chainMode) && queryCounter == old(queryCounter)
    {
      currentConversationId := Some(id);
    }

    /** The "Chain Queries" checkbox. */
    method SetChainMode(on: bool)
      requires Valid()
      modifies this
      ensures Valid() && chainMode == on
      ensures conversations == old(conversations) && currentConversationId == old(currentConversationId)
      ensures queryCounter == old(queryCounter)
    {
      chainMode := on;
    }
  }

  /** Clearing strands the current id: once the store is empty, any truthy current id
      is missing from it and the main pane's lookup fails. */
  lemma ClearedStoreStrandsCurrent(id: ConvId)
    requires id != ""
    ensures Shown(Some(id), Empty()) == MissingKey(id)
  {
  }
}
