/** How the three parts fit together: what the sidebar can send, what the backend
    answers over HTTP, and what ends up stored as the assistant's message. */
module App {
  import opened Wrappers
  import opened Text
  import opened Json
  import opened AiAgent
  import opened Backend
  import opened Frontend

  /** The backend reached over HTTP: the endpoint's result, sent as a 200 response with
      its JSON encoding. */
  function Serve(request: RequestState, env: Collaborators): (o: HttpOutcome)
    ensures o.Response? && o.status == 200 && o.body.JsonBody?
    ensures o.body.value == ToJson(ChatEndpoint(request, env))
  {
    Response(200, JsonBody(ToJson(ChatEndpoint(request, env))))
  }

  /** The backend's allow-list is exactly the set of models the sidebar offers, over
      both providers. */
  lemma AllowListIsUiModels(m: string)
    ensures m in ALLOWED_MODEL_NAMES <==> exists p :: p in MODELS.entries && m in MODELS.entries[p]
  {
    if m in ALLOWED_MODEL_NAMES {
      if m in MODELS.entries["Groq"] {
        assert "Groq" in MODELS.entries;
      } else {
        assert m in MODELS.entries["OpenAI"];
        assert "OpenAI" in MODELS.entries;
      }
    }
  }

  /** Every provider the sidebar offers is one the invoker can dispatch. */
  lemma UiProvidersDispatch(settings: Settings)
    requires Selectable(settings)
    ensures SelectModel(settings.provider, settings.model).Some?
  {
  }

  /** What the sidebar can send is never rejected, and the stored answer is exactly the
      invoker's string for that model, provider, template prompt, search flag and
      message list. */
  lemma SelectableSettingsReachInvoker(settings: Settings, messages: seq<string>, env: Collaborators)
    requires Selectable(settings)
    ensures var payload := Payload(settings, messages);
            && ChatEndpoint(payload, env).AgentReply?
            && GetAgentResponse(Serve(payload, env)) ==
               GetResponseFromAiAgent(settings.model, messages, settings.allowWebSearch,
                                      TEMPLATES.entries[settings.template], settings.provider, env)
  {
    AllowListIsUiModels(settings.model);
  }

  /** A request with a model outside the allow-list is answered with the error object,
      which the UI stores as that object's JSON text. */
  lemma RejectedRequestStoredAsJson(request: RequestState, env: Collaborators)
    requires request.modelName !in ALLOWED_MODEL_NAMES
    ensures GetAgentResponse(Serve(request, env)) ==
            Dumps(JObject([Field("error", JString(INVALID_MODEL_NAME))]))
    ensures Ascii(GetAgentResponse(Serve(request, env)))
  {
    DumpsAscii(JObject([Field("error", JString(INVALID_MODEL_NAME))]));
  }

  /** Every template's prompt already has no surrounding whitespace, so the agent gets
      it verbatim and the invoker's default prompt is never used from the UI. */
  lemma TemplatePromptsVerbatim(template: string)
    requires template in TEMPLATES.entries
    ensures FinalPrompt(TEMPLATES.entries[template]) == TEMPLATES.entries[template]
  {
    var p := TEMPLATES.entries[template];
    assert p != [] && (p[0] == 'A' || p[0] == 'Y') && p[|p| - 1] == '.';
    FinalPromptOfPadded("", p, "");
    assert "" + p + "" == p;
  }

  /** With chain mode off, the one human message the agent receives is the typed query
      itself, whitespace included. */
  lemma UnchainedQueryVerbatim(query: string, store: Store, id: ConvId)
    ensures var ms := OutgoingMessages(query, false, store, id);
            ms[|ms| - 1] == query
  {
  }

  /** Errors travel in-band: an agent that simply replies with the invalid-provider text
      produces an answer indistinguishable from a real provider error. */
  lemma InBandErrorsAmbiguous(messages: seq<string>)
    requires messages != []
    ensures var env := Collaborators(
              llm => Pass, Pass, agent => Pass,
              (agent, input) => Done(Some([AIMessage(INVALID_PROVIDER)])));
            GetResponseFromAiAgent("gpt-4o", messages, false, "", "OpenAI", env) ==
            GetResponseFromAiAgent("gpt-4o", messages, false, "", "Anthropic", env)
  {
    ReplyIsLastAiMessage([AIMessage(INVALID_PROVIDER)], 0);
  }
}
