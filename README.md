# Agent Studio chat demo: the orchestration core in Dafny

This project models the glue code of a small chat application in which a Streamlit
page collects a query and an agent configuration, posts it to a FastAPI `/chat`
endpoint, and shows the answer of a LangGraph reactive agent. The model has three
parts, one per source file:

- **Session UI** (`frontend.py`, module `Frontend`): the per-session conversation
  store is an insertion-ordered dictionary from conversation id to a record. The record
  holds a title, messages, a creation time and model info. Class `Frontend.Session`
  holds the store, the current conversation id, the chain-mode flag and the query
  counter. Its methods are `save_message`, the Send handler, Clear All, New Chat,
  selecting a conversation and the chain-mode checkbox. The pure views are the chain-mode
  context, `get_agent_response`, the sidebar list, the main-pane lookup, the export
  structure and the footer counts.
- **Request service** (`backend.py`, module `Backend`): the allow-list check on the
  model name, and the unchanged pass-through of every field to the agent invoker.
- **Agent invoker** (`ai_agent.py`, module `AiAgent`): provider dispatch, the search
  tool list, the system-prompt fallback, the use of only the last query string,
  extraction of the last AI message, and the conversion of every exception into an
  in-band "Agent Error" string.

Helper modules model the Python built-ins that the code relies on:

- `Text`: `str.isspace` over Python's exact whitespace set, `str.strip`, `str.join`, `str(int)`.
- `OrderedDict`: `dict` with insertion order.
- `Json`: `json.dumps` with its defaults, including `ensure_ascii`, and `json.loads` of a string literal as its inverse.

Module `App` connects the parts. It shows what the sidebar can send, that the backend
reached over HTTP returns a 200 response with its JSON encoding, and what is stored as
the assistant's message.

External effects become values or parameters:

- The libraries behind the invoker are the fields of `AiAgent.Collaborators`. These are
  the client constructors, the search tool, the agent builder and the agent run. Each
  may raise.
- The POST to the backend is a function from request to `Frontend.HttpOutcome`.
- The id generator supplies `freshId`.
- The clock supplies `Instant` values.
- The export's timestamp formatting is a function parameter `iso`.

## Model

| member | source | states |
|---|---|---|
| `Text.Strip` | ai_agent.py:38 | `s.strip()` is the middle slice of `s`. Everything cut off is whitespace, the result neither starts nor ends with whitespace, and it is empty exactly when `s` is blank |
| `Text.StripUnique` | frontend.py:168 | stripping any blank padding around a string without surrounding whitespace gives that string back, so `strip` is fixed by its result alone |
| `Text.DecimalRoundTrip` | frontend.py:103 | the decimal text of an integer reads back as that integer |
| `Json.EscapeChar` | frontend.py:102 | `json.dumps` writes each character as ASCII text. Printable ASCII other than quote and backslash stands for itself, and nothing else does |
| `Json.DumpsAscii` | frontend.py:102 | with the default `ensure_ascii`, the JSON text of any value is pure ASCII |
| `Json.Dumps` | frontend.py:102 | the JSON text is never empty, and its first character tells the kind of value: `"` exactly for a string, `[` exactly for a list and `{` exactly for a dict |
| `Json.LoadsString` | frontend.py:100 | `response.json()` reads a string only from text that, once the JSON whitespace around it is skipped, starts and ends with a quote. The decoded string is no longer than the text minus those two quotes |
| `Json.UnescapeStep` | frontend.py:100-102 | reading back the escape `json.dumps` writes for one character, whether plain, a short escape, a `\uXXXX` escape or a surrogate pair, gives that character and leaves the rest of the text to be read |
| `Json.StringRoundTrip` | frontend.py:100-102 | `json.loads(json.dumps(s)) == s` for every string `s`. The JSON text written for a string decodes back to exactly that string |
| `Json.PaddedStringRoundTrip` | frontend.py:100 | spaces, tabs, line feeds and carriage returns before or after the JSON text of a string do not change the string `response.json()` reads from it |
| `AiAgent.SelectModel` | ai_agent.py:28-33 | a client is chosen exactly for "Groq" or "OpenAI". It is bound to the given model id, and "Groq" gets `ChatGroq` |
| `AiAgent.Tools` | ai_agent.py:35 | the tool list has one element exactly when search is allowed, and is empty otherwise. Its element is the Tavily search with 2 results |
| `AiAgent.FinalPrompt` | ai_agent.py:38 | a blank system prompt is replaced by the default prompt. Any other prompt is passed stripped: non-empty, with no surrounding whitespace |
| `AiAgent.FinalPromptOfPadded` | ai_agent.py:38 | whitespace padding around a prompt is dropped, and an already trimmed prompt is passed verbatim |
| `AiAgent.AiContentsEmpty` | ai_agent.py:53-54 | the list of AI contents is empty exactly when the trace holds no AI message |
| `AiAgent.ReplyIsLastAiMessage` | ai_agent.py:52-54 | when message `i` is an AI message and none follows it, the answer is the content of message `i` |
| `AiAgent.ReplyFromTrace` | ai_agent.py:52-54 | the reply is the no-response notice or the content of some AI message in the trace |
| `AiAgent.AiContents` | ai_agent.py:53 | there are never more AI contents than trace messages, and each one is the content of some AI message of the trace |
| `AiAgent.Reply` | ai_agent.py:52-54 | a trace without AI messages gives "⚠️ No response from agent.", and a trace that ends with an AI message gives that message's content |
| `AiAgent.Attempt` | ai_agent.py:26-54 | the `try` block raises exactly when the provider is known and then the client, the tool or the agent cannot be built, the query list is empty, or the run raises. An unknown provider never raises |
| `AiAgent.GetResponseFromAiAgent` | ai_agent.py:25-56 | step by step, in the source's order. An unknown provider gets "❌ Invalid provider selected.". A failing client constructor, search tool or agent builder makes the answer "🔥 Agent Error: " followed by that call's own message, and each later step is reached only when the earlier ones succeed. Once all three are built, an empty query list gives "🔥 Agent Error: list index out of range" |
| `AiAgent.SuccessfulRun` | ai_agent.py:41-54 | when everything is built, the agent gets the provider's client for the model id, the tool list of `allow_search` and the resolved prompt. It is sent one human message, the last query string. The answer is the reply from its trace, or the Agent Error text of what it raised |
| `AiAgent.OnlyLastQueryUsed` | ai_agent.py:48 | two query lists with the same last element get the same answer |
| `AiAgent.AnswerKinds` | ai_agent.py:25-56 | no failure escapes. Every answer is an Agent Error string, the invalid-provider notice for an unknown provider, or the reply from the trace of a run on the last query string |
| `Backend.ChatEndpoint` | backend.py:25-37 | the result is the error response exactly when the model name is outside the allow-list, and the error text is the fixed invalid-model message |
| `Backend.ToJson` | backend.py:28 | the error response is sent as the object `{"error": ...}` and an answer as a JSON string |
| `Backend.RejectionIgnoresInvoker` | backend.py:27-28 | a rejected request gets the fixed error whatever the invoker's libraries would do, so the invoker is never consulted |
| `Backend.AcceptedPassesThrough` | backend.py:30-37 | an accepted request is answered with exactly the invoker's string. The invoker gets `llm_id` = model name, `query` = the whole message list, and the search flag, system prompt and provider unchanged |
| `Backend.OnlyModelNameValidated` | backend.py:27 | two requests with the same model name are both accepted or both rejected, whatever their other fields |
| `Backend.MismatchedProviderAccepted` | backend.py:27-36 | "gpt-4o" with provider "Groq" is accepted and leads to a Groq client for "gpt-4o" |
| `Frontend.Title` | frontend.py:84 | the title has at most 53 characters and starts with the first (up to 50) characters of the message. A message of at most 50 characters is its own title; a longer one gets 50 characters and "..." |
| `Frontend.MessagesOf` | frontend.py:173-174 | the lookup never fails. A stored conversation gives its messages, and an id not in the store gives an empty list |
| `Frontend.Saved` | frontend.py:82-95 | a record is created only for an absent id: it goes last in the order, titled after the message, with this message alone. For a present id the title, creation time, model info and position are kept. Exactly one message is appended, and no other conversation changes |
| `Frontend.SavedKeepsNonEmpty` | frontend.py:82-95 | a record is created only together with its first message, so saving keeps every stored conversation non-empty |
| `Frontend.AppendOnly` | frontend.py:91-95 | after any sequence of saves, a conversation holds its earlier messages followed by one message per save addressed to it, in call order |
| `Frontend.Session.SaveMessage` | frontend.py:82-95 | the in-place create-then-append leaves the store equal to `Saved` of the old store and changes no other session field |
| `Frontend.Recent` | frontend.py:174 | the history is the last `min(n, 4)` stored messages |
| `Frontend.ContextLines` | frontend.py:175 | line `i` of the context is "role: content" of history message `i` |
| `Frontend.ChainContextEmpty` | frontend.py:175 | the context is empty exactly when the history is |
| `Frontend.ChainContextSnoc` | frontend.py:175 | the context lists the history in order, one line per message, separated by newlines |
| `Frontend.ChainedRequest` | frontend.py:172-176 | in chain mode the request holds one string: "Previous context:\n", the joined lines of the last at most four stored messages, "\n\nCurrent query: " and the query |
| `Frontend.FreshConversationContext` | frontend.py:173-176 | for an id not in the store the chain-mode request is "Previous context:\n\n\nCurrent query: " and the query |
| `Frontend.OutgoingMessages` | frontend.py:171-176 | the request always carries exactly one string. With chain mode off it is the query itself |
| `Frontend.Payload` | frontend.py:177-183 | the request carries the selected model, the provider, the template's system prompt, the message list and the search flag |
| `Frontend.GetAgentResponse` | frontend.py:97-105 | a transport exception, or a body that is not JSON whatever the status, is stored as "Exception occurred: " followed by the message |
| `Frontend.StringReplyUnchanged` | frontend.py:101-102 | a 200 response whose JSON is a string is stored unchanged |
| `Frontend.OtherReplyAsJsonText` | frontend.py:102 | a 200 response with any other JSON is stored as its JSON text, which is ASCII |
| `Frontend.ErrorStatusRecoverable` | frontend.py:103 | any other status is stored as "Error: " followed by the status code, which reads back as that code |
| `Frontend.Shown` | frontend.py:146-147 | the main pane fails with a missing key exactly when the current id is truthy and absent from the store. It shows the stored conversation when present, and nothing when no id is current |
| `Frontend.Sidebar` | frontend.py:119-120 | button `i` is the id and title of the `i`-th conversation counted from the newest |
| `Frontend.NewestFirst` | frontend.py:119 | a newly created conversation heads the sidebar, and the earlier buttons follow in their old order |
| `Frontend.ConversationCount` | frontend.py:221 | the footer's conversation count equals the number of stored conversations |
| `Frontend.SaveAddsOneMessage` | frontend.py:221 | each save adds exactly one to the footer's message total |
| `Frontend.TotalBounds` | frontend.py:221 | the footer's total is at least the size of any one conversation, and at least the number of conversations when none is empty |
| `Frontend.Export` | frontend.py:200-212 | the export has the same ids in the same order, and the same title, model info and message count for each conversation. Its export time is the current time formatted |
| `Frontend.ExportRoundTrip` | frontend.py:200-212 | reading an export back reproduces the store exactly (ids, order, titles, roles, contents, model info), given that timestamp text reads back as the same instant |
| `Frontend.SendTurn` | frontend.py:190-194 | a Send appends exactly the user message and then the answer to the target conversation. It adds two to the total, titles a new conversation after the query rather than the answer, and leaves every other conversation unchanged |
| `Frontend.Session.constructor` | frontend.py:55-62 | a session starts with an empty store, no current id, chain mode off and counter 0. The session invariant holds: a valid ordered store in which no conversation is empty |
| `Frontend.Session.Send` | frontend.py:167-197 | for a blank query, only a warning: no store, id or counter change, and no request. Otherwise the current id is kept if truthy, else the fresh one. The request is built from the store before the query is saved, so its history never holds the query. The store gets the user message then the stored answer, the counter advances by one, and the current conversation resolves |
| `Frontend.Session.ClearAll` | frontend.py:129-131 | the store becomes empty while the current id is kept, so a truthy current id no longer resolves |
| `Frontend.Session.ClearAllAndDeselect` | frontend.py:129-131 | the corrected Clear All empties the store and clears the current id, so the current conversation always resolves |
| `Frontend.Session.NewChat` | frontend.py:126-128 | no conversation is current and the store is unchanged |
| `Frontend.Session.SelectConversation` | frontend.py:120-121 | the chosen stored conversation becomes current and the store is unchanged |
| `Frontend.Session.SetChainMode` | frontend.py:114 | only the chain-mode flag changes |
| `Frontend.ClearedStoreStrandsCurrent` | frontend.py:146-147 | once the store is empty, any truthy current id fails the main pane's lookup |
| `App.Serve` | backend.py:25-37 | the backend reached over HTTP answers with status 200, and its body is the JSON value of the endpoint's result for that request |
| `App.AllowListIsUiModels` | backend.py:17-23 | the allow-list is exactly the union of the models the sidebar offers for both providers |
| `App.UiProvidersDispatch` | frontend.py:111-112 | every provider the sidebar offers is one the invoker dispatches |
| `App.SelectableSettingsReachInvoker` | frontend.py:177-192 | whatever the sidebar can send is accepted, and the stored answer is exactly the invoker's string for that model, provider, template prompt, search flag and message list |
| `App.RejectedRequestStoredAsJson` | frontend.py:100-102 | a rejected request's error object reaches the store as its JSON text, which is ASCII |
| `App.TemplatePromptsVerbatim` | frontend.py:69-75 | every template prompt reaches the agent verbatim, so the invoker's default prompt is never used from the UI |
| `App.UnchainedQueryVerbatim` | frontend.py:171 | with chain mode off, the human message the agent receives is the typed query itself, whitespace included |
| `App.InBandErrorsAmbiguous` | ai_agent.py:33 | an agent that replies with the invalid-provider text gives the same answer as an unknown provider, so errors cannot be told from answers |

## Left out

- Rendering: Streamlit layout, CSS, widgets, spinners, `st.rerun`, the download button and the warning text are not modelled. Widget values arrive as `Frontend.Settings`, and a rerun is the next method call.
- HTTP and the server: `requests.post` and `requests.get`, the health check, FastAPI routing, pydantic's shape check and the uvicorn launch are not modelled. A POST is a function parameter giving a `Frontend.HttpOutcome`, and `App.Serve` is the backend seen over HTTP.
- Libraries: the LangChain, LangGraph, Tavily, Groq and OpenAI internals and the API keys are not modelled. Each library call is a field of `AiAgent.Collaborators`, which reports whether the call raised and what the agent run returned.
- Message contents: an AI message's content is a string. Non-text (list) contents are not modelled.
- Ids: `uuid4()` ids are not modelled and their uniqueness is not assumed. Send takes `freshId` as a parameter. When it collides with a stored id, `Frontend.SendTurn` (the case of an id already in the store) shows the turn appended to that conversation.
- Clock: `datetime.now()` is not modelled. `save_message` reads the clock twice when it creates a record, while the model uses one `Instant` per call for both the creation time and the message timestamp.
- Export text: `isoformat` text and the indented JSON of the export file are not modelled. The export is modelled as a structure, with timestamp formatting as the parameter `iso`.
- App.Serve: the response body is the JSON value of the endpoint's result. FastAPI's own serializer (`ensure_ascii=False`, compact separators) is not modelled, so `Json.Dumps` and `Json.StringRoundTrip` describe only the frontend's side of line 102, not the text on the wire.
- JSON floats: `json.dumps` of floating-point numbers is not modelled. The backend never sends a float.
- Json.Unescape: a `\uXXXX` escape of a lone surrogate is decoded as failure, because a Dafny character cannot hold a surrogate. Python would return a string containing it. `json.dumps` never writes such an escape for a real string.
- Templates: `TEMPLATES` maps each name to the dictionary `{"system_prompt": ...}`. The model keeps only the prompt string.
- `Frontend.Session.Send`: requires the template to be a key of `TEMPLATES`. The source raises a KeyError otherwise, but its only caller, the template select box, offers no other value.
- `Frontend.Session.SelectConversation`: requires the id to be stored, because the sidebar only draws buttons for stored ids.
- test_backend.py: it is a script that makes a live call and asserts nothing, so it is not part of this model.

## Findings

| source | as written | input that shows it | evidently intended | confidence | as-written member | corrected member |
|---|---|---|---|---|---|---|
| frontend.py:129-131 | "Clear All" empties `conversations` but keeps `current_conversation_id`. The rerun then evaluates `conversations[current_conversation_id]` at line 147 on the empty store, which raises a KeyError, and the page stops before the query input until "New Chat" is pressed | send any query (so a conversation is current), then press "Clear All" | clearing also deselects the current conversation, as "New Chat" does, so the page can still be drawn | high; not executed | `Frontend.Session.ClearAll` | `Frontend.Session.ClearAllAndDeselect` |
