/** The request service of backend.py: `POST /chat` checks the model name against a
    fixed allow-list and hands every field, unchanged, to the agent invoker. */
module Backend {
  import opened Json
  import opened Wrappers
  import opened AiAgent

  const ALLOWED_MODEL_NAMES: seq<string> := [
    "llama3-70b-8192",
    "mixtral-8x7b-32768",
    "llama-3.3-70b-versatile",
    "gpt-4o",
    "gpt-3.5-turbo"
  ]

  const INVALID_MODEL_NAME: string := "\U{274C} Invalid model name. Please select a valid AI model."

  /** The request body, after the transport has checked its shape. */
  datatype RequestState = RequestState(
    modelName: string,
    modelProvider: string,
    systemPrompt: string,
    messages: seq<string>,
    allowSearch: bool)

  /** What the endpoint returns: the `{"error": ...}` dictionary or the invoker's string. */
  datatype ChatResponse = ErrorResponse(error: string) | AgentReply(text: string)

  /** `chat_endpoint(request)` */
  function ChatEndpoint(request: RequestState, env: Collaborators): (r: ChatResponse)
    ensures r.ErrorResponse? <==> request.modelName !in ALLOWED_MODEL_NAMES
    ensures r.ErrorResponse? ==> r.error == INVALID_MODEL_NAME
  {
    if request.modelName !in ALLOWED_MODEL_NAMES then
      ErrorResponse(INVALID_MODEL_NAME)
    else
      AgentReply(GetResponseFromAiAgent(
        request.modelName, request.messages, request.allowSearch, request.systemPrompt,
        request.modelProvider, env))
  }

  /** The JSON body the framework sends for a response. */
  function ToJson(r: ChatResponse): (j: Json)
    ensures r.AgentReply? ==> j == JString(r.text)
    ensures r.ErrorResponse? ==> j == JObject([Field("error", JString(r.error))])
  {
    match r
    case ErrorResponse(e) => JObject([Field("error", JString(e))])
    case AgentReply(t) => JString(t)
  }

  /** A rejected request never reaches the invoker: its answer is the fixed error,
      whatever the libraries behind the invoker would have done. */
  lemma RejectionIgnoresInvoker(request: RequestState, env1: Collaborators, env2: Collaborators)
    requires request.modelName !in ALLOWED_MODEL_NAMES
    ensures ChatEndpoint(request, env1) == ChatEndpoint(request, env2) == ErrorResponse(INVALID_MODEL_NAME)
  {
  }

  /** An accepted request is answered with exactly what the invoker returns when given
      the model name as model id, the whole message list as query, and the search flag,
      system prompt and provider as they came. */
  lemma AcceptedPassesThrough(request: RequestState, env: Collaborators)
    requires request.modelName in ALLOWED_MODEL_NAMES
    ensures ChatEndpoint(request, env) ==
            AgentReply(GetResponseFromAiAgent(request.modelName, request.messages, request.allowSearch,
                                              request.systemPrompt, request.modelProvider, env))
  {
  }

  /** Only the model name is validated: two requests with the same model name are both
      accepted or both rejected, whatever their other fields. */
  lemma OnlyModelNameValidated(r1: RequestState, r2: RequestState, env: Collaborators)
    requires r1.modelName == r2.modelName
    ensures ChatEndpoint(r1, env).ErrorResponse? == ChatEndpoint(r2, env).ErrorResponse?
  {
  }

  /** An OpenAI model name sent with the Groq provider is accepted and the invoker then
      builds a Groq client for that model id: provider and model are not checked
      against each other. */
  lemma MismatchedProviderAccepted(messages: seq<string>, allowSearch: bool, systemPrompt: string,
                                   env: Collaborators)
    ensures var request := RequestState("gpt-4o", "Groq", systemPrompt, messages, allowSearch);
            && ChatEndpoint(request, env).AgentReply?
            && SelectModel(request.modelProvider, request.modelName) == Some(ChatGroq("gpt-4o"))
  {
    assert "gpt-4o" == ALLOWED_MODEL_NAMES[3];
  }
}
