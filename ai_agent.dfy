/** The agent invoker of ai_agent.py: it picks a chat-model client for the provider,
    attaches zero or one web-search tool, resolves the system prompt, builds a
    single-turn reactive agent, sends it the last query string and returns the text
    of the agent's last reply. Every failure comes back as text.

    The libraries it calls (the provider clients, the search tool, the agent builder
    and the agent run) are not modelled; they are the fields of `Collaborators`, total
    functions that report whether the call raised and, for the run, what it returned. */
module AiAgent {
  import opened Wrappers
  import opened Text

  const DEFAULT_SYSTEM_PROMPT: string :=
    "You are a smart and friendly AI assistant. " +
    "Answer all questions using 3\U{2013}5 clear bullet points, under 80 words total."
  const INVALID_PROVIDER: string := "\U{274C} Invalid provider selected."
  const NO_RESPONSE: string := "\U{26A0}\U{FE0F} No response from agent."
  const AGENT_ERROR: string := "\U{1F525} Agent Error: "
  /** `str(e)` of the IndexError that `[][-1]` raises. */
  const INDEX_OUT_OF_RANGE: string := "list index out of range"
  const SEARCH_MAX_RESULTS: nat := 2

  /** A chat-model client, bound to the model id it was created with. */
  datatype ChatModel = ChatGroq(model: string) | ChatOpenAI(model: string)

  datatype Tool = TavilySearchResults(maxResults: nat)

  /** What `create_react_agent` is given: the client, the tools and the prompt. */
  datatype Agent = Agent(model: ChatModel, tools: seq<Tool>, prompt: string)

  /** The messages of an agent's state. Only their kind and text matter here. */
  datatype TraceMessage =
    | HumanMessage(content: string)
    | AIMessage(content: string)
    | ToolMessage(content: string)
    | SystemMessage(content: string)

  /** The calls into the libraries. `invoke` gets the agent and the messages of the
      input state; it returns the `"messages"` entry of the result state (None when the
      entry is missing) or raises. */
  datatype Collaborators = Collaborators(
    newModel: ChatModel -> Outcome,
    newSearchTool: Outcome,
    newAgent: Agent -> Outcome,
    invoke: (Agent, seq<TraceMessage>) -> Step<Option<seq<TraceMessage>>>)

  /** The provider dispatch: a client for "Groq" or "OpenAI", nothing for any other name. */
  function SelectModel(provider: string, llmId: string): (m: Option<ChatModel>)
    ensures m.Some? <==> provider == "Groq" || provider == "OpenAI"
    ensures m.Some? ==> m.value.model == llmId
    ensures m == Some(ChatGroq(llmId)) <==> provider == "Groq"
  {
    if provider == "Groq" then Some(ChatGroq(llmId))
    else if provider == "OpenAI" then Some(ChatOpenAI(llmId))
    else None
  }

  /** The tool list: one search tool when search is allowed, none otherwise. */
  function Tools(allowSearch: bool): (tools: seq<Tool>)
    ensures |tools| == 1 <==> allowSearch
    ensures tools == [] <==> !allowSearch
    ensures forall t :: t in tools ==> t == TavilySearchResults(SEARCH_MAX_RESULTS)
  {
    if allowSearch then [TavilySearchResults(SEARCH_MAX_RESULTS)] else []
  }

  /** `system_prompt.strip() or DEFAULT_SYSTEM_PROMPT` */
  function FinalPrompt(systemPrompt: string): (p: string)
    ensures Blank(systemPrompt) ==> p == DEFAULT_SYSTEM_PROMPT
    ensures !Blank(systemPrompt) ==> p == Strip(systemPrompt) && p != []
    ensures !Blank(systemPrompt) ==> !IsSpace(p[0]) && !IsSpace(p[|p| - 1])
  {
    var stripped := Strip(systemPrompt);
    if stripped == "" then DEFAULT_SYSTEM_PROMPT else stripped
  }

  /** A prompt that already has no surrounding whitespace is passed on verbatim; any
      whitespace padding around a prompt is dropped. */
  lemma FinalPromptOfPadded(pad1: string, prompt: string, pad2: string)
    requires Blank(pad1) && Blank(pad2)
    requires prompt != [] && !IsSpace(prompt[0]) && !IsSpace(prompt[|prompt| - 1])
    ensures FinalPrompt(pad1 + prompt + pad2) == prompt
  {
    StripUnique(pad1, prompt, pad2);
  }

  /** The contents of the AI messages of a trace, in order. */
  function AiContents(trace: seq<TraceMessage>): (contents: seq<string>)
    ensures |contents| <= |trace|
    ensures forall i :: 0 <= i < |contents| ==>
              exists j :: 0 <= j < |trace| && trace[j] == AIMessage(contents[i])
  {
    if trace == [] then []
    else
      var last := trace[|trace| - 1];
      AiContents(trace[..|trace| - 1]) + (if last.AIMessage? then [last.content] else [])
  }

  /** The reply the invoker returns for a trace: the last AI message's content, or the
      "no response" notice when the trace holds no AI message. */
  function Reply(trace: seq<TraceMessage>): (r: string)
    ensures (forall j :: 0 <= j < |trace| ==> !trace[j].AIMessage?) ==> r == NO_RESPONSE
    ensures trace != [] && trace[|trace| - 1].AIMessage? ==> r == trace[|trace| - 1].content
  {
    AiContentsEmpty(trace);
    var contents := AiContents(trace);
    if contents != [] then contents[|contents| - 1] else NO_RESPONSE
  }

  /** A trace has no AI message exactly when the list of AI contents is empty. */
  lemma {:induction false} AiContentsEmpty(trace: seq<TraceMessage>)
    ensures AiContents(trace) == [] <==> forall j :: 0 <= j < |trace| ==> !trace[j].AIMessage?
  {
    if trace != [] {
      var init, last := trace[..|trace| - 1], trace[|trace| - 1];
      AiContentsEmpty(init);
      assert AiContents(trace) == AiContents(init) + (if last.AIMessage? then [last.content] else []);
      if !last.AIMessage? {
        assert forall j :: 0 <= j < |init| ==> init[j] == trace[j];
      }
    }
  }

  /** If message `i` is an AI message and no AI message follows it, the invoker's reply
      is the content of message `i`. */
  lemma {:induction false} ReplyIsLastAiMessage(trace: seq<TraceMessage>, i: nat)
    requires i < |trace| && trace[i].AIMessage?
    requires forall j :: i < j < |trace| ==> !trace[j].AIMessage?
    ensures Reply(trace) == trace[i].content
  {
    if i < |trace| - 1 {
      var init := trace[..|trace| - 1];
      ReplyIsLastAiMessage(init, i);
      assert AiContents(trace) == AiContents(init);
    }
  }

  /** The body of the `try` block of `get_response_from_ai_agent`: the in-band
      "invalid provider" answer, an answer taken from the agent's trace, or the message
      of the exception some step raised. The steps run in the order of the source:
      client, tool, prompt, agent, `query[-1]`, run. */
  function Attempt(llmId: string, query: seq<string>, allowSearch: bool, systemPrompt: string,
                   provider: string, env: Collaborators): (a: Step<string>)
    ensures a.Raised? <==>
              && SelectModel(provider, llmId).Some?
              && var llm := SelectModel(provider, llmId).value;
                 || !Builds(env, llm, allowSearch, systemPrompt)
                 || query == []
                 || env.invoke(AgentFor(llm, allowSearch, systemPrompt), [HumanMessage(query[|query| - 1])]).Raised?
  {
    match SelectModel(provider, llmId)
    case None => Done(INVALID_PROVIDER)
    case Some(llm) =>
      if env.newModel(llm).Fail? then Raised(env.newModel(llm).message)
      else if allowSearch && env.newSearchTool.Fail? then Raised(env.newSearchTool.message)
      else
        var agent := Agent(llm, Tools(allowSearch), FinalPrompt(systemPrompt));
        if env.newAgent(agent).Fail? then Raised(env.newAgent(agent).message)
        else if |query| == 0 then Raised(INDEX_OUT_OF_RANGE)
        else
          match env.invoke(agent, [HumanMessage(query[|query| - 1])])
          case Raised(e) => Raised(e)
          case Done(messages) => Done(Reply(messages.GetOr([])))
  }

  /** `get_response_from_ai_agent(llm_id, query, allow_search, system_prompt, provider)`:
      the `try` block, with any exception turned into an "Agent Error" string. */
  function GetResponseFromAiAgent(llmId: string, query: seq<string>, allowSearch: bool,
                                  systemPrompt: string, provider: string, env: Collaborators): (r: string)
    ensures SelectModel(provider, llmId).None? ==> r == INVALID_PROVIDER
    ensures SelectModel(provider, llmId).Some? ==>
              var llm := SelectModel(provider, llmId).value;
              var agent := AgentFor(llm, allowSearch, systemPrompt);
              && (env.newModel(llm).Fail? ==> r == AGENT_ERROR + env.newModel(llm).message)
              && (env.newModel(llm).Pass? && allowSearch && env.newSearchTool.Fail? ==>
                    r == AGENT_ERROR + env.newSearchTool.message)
              && (env.newModel(llm).Pass? && (allowSearch ==> env.newSearchTool.Pass?) && env.newAgent(agent).Fail? ==>
                    r == AGENT_ERROR + env.newAgent(agent).message)
              && (Builds(env, llm, allowSearch, systemPrompt) && query == [] ==> r == AGENT_ERROR + INDEX_OUT_OF_RANGE)
  {
    match Attempt(llmId, query, allowSearch, systemPrompt, provider, env)
    case Done(answer) => answer
    case Raised(e) => AGENT_ERROR + e
  }

  /** The agent the invoker builds for a valid provider. */
  function AgentFor(llm: ChatModel, allowSearch: bool, systemPrompt: string): Agent {
    Agent(llm, Tools(allowSearch), FinalPrompt(systemPrompt))
  }

  /** Both constructors and the agent builder succeed for this configuration. */
  predicate Builds(env: Collaborators, llm: ChatModel, allowSearch: bool, systemPrompt: string) {
    env.newModel(llm).Pass? &&
    (allowSearch ==> env.newSearchTool.Pass?) &&
    env.newAgent(AgentFor(llm, allowSearch, systemPrompt)).Pass?
  }

  /** When everything is built, the agent that runs has the client for the provider and
      model id, the tool list of `allow_search` and the resolved prompt; it is sent one
      human message, the last query string; and the answer is the reply read from the
      trace it returns, or the Agent Error text of the exception it raises. */
  lemma SuccessfulRun(llmId: string, query: seq<string>, allowSearch: bool, systemPrompt: string,
                      provider: string, env: Collaborators)
    requires SelectModel(provider, llmId).Some?
    requires Builds(env, SelectModel(provider, llmId).value, allowSearch, systemPrompt)
    requires query != []
    ensures var agent := AgentFor(SelectModel(provider, llmId).value, allowSearch, systemPrompt);
            var run := env.invoke(agent, [HumanMessage(query[|query| - 1])]);
            && agent.model.model == llmId
            && |agent.tools| == (if allowSearch then 1 else 0)
            && agent.prompt == FinalPrompt(systemPrompt)
            && GetResponseFromAiAgent(llmId, query, allowSearch, systemPrompt, provider, env) ==
               (if run.Raised? then AGENT_ERROR + run.message else Reply(run.value.GetOr([])))
  {
  }

  /** Only the last query string reaches the agent: two queries with the same last
      element get the same answer. */
  lemma OnlyLastQueryUsed(llmId: string, q1: seq<string>, q2: seq<string>, allowSearch: bool,
                          systemPrompt: string, provider: string, env: Collaborators)
    requires q1 != [] && q2 != [] && q1[|q1| - 1] == q2[|q2| - 1]
    ensures GetResponseFromAiAgent(llmId, q1, allowSearch, systemPrompt, provider, env) ==
            GetResponseFromAiAgent(llmId, q2, allowSearch, systemPrompt, provider, env)
  {
  }

  /** The reply is the no-response notice or the content of an AI message of the trace. */
  lemma {:induction false} ReplyFromTrace(trace: seq<TraceMessage>)
    ensures Reply(trace) == NO_RESPONSE ||
            exists i :: 0 <= i < |trace| && trace[i] == AIMessage(Reply(trace))
  {
    if trace != [] {
      var init := trace[..|trace| - 1];
      ReplyFromTrace(init);
      if !trace[|trace| - 1].AIMessage? {
        assert AiContents(trace) == AiContents(init);
        if Reply(init) != NO_RESPONSE {
          var i :| 0 <= i < |init| && init[i] == AIMessage(Reply(init));
          assert trace[i] == init[i];
        }
      }
    }
  }

  /** No failure escapes: every answer is an Agent Error string, the invalid-provider
      notice, or the reply read from the trace of an agent run on the last query string. */
  lemma AnswerKinds(llmId: string, query: seq<string>, allowSearch: bool, systemPrompt: string,
                    provider: string, env: Collaborators)
    ensures var r := GetResponseFromAiAgent(llmId, query, allowSearch, systemPrompt, provider, env);
            || AGENT_ERROR <= r
            || (r == INVALID_PROVIDER && SelectModel(provider, llmId).None?)
            || (&& SelectModel(provider, llmId).Some?
                && query != []
                && var run := env.invoke(AgentFor(SelectModel(provider, llmId).value, allowSearch, systemPrompt),
                                         [HumanMessage(query[|query| - 1])]);
                   run.Done? && r == Reply(run.value.GetOr([])))
  {
  }
}
