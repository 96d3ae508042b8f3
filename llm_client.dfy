/** The language-model client: two optional API clients set up once from
    the environment, and `query_llm`, which chooses a client and a model and
    turns every failure into a reply text beginning with "Error". The
    completion service is a parameter that maps a client, a model and the
    two prompts to a reply or an error message. */
module LlmClient {
  import opened Util

  /** The two API endpoints: OpenAI and Groq's OpenAI-compatible one. */
  datatype Client = OpenAI | Groq

  /** The completion call: the reply text, or the exception's message. */
  type CompletionService = (Client, string, string, string) -> Result<string>

  const GroqDefaultModel := "llama-3.3-70b-versatile"
  const OpenAIDefaultModel := "gpt-4-turbo"
  /** The word both failure replies begin with. */
  const ErrorTag := "Error"
  const NoClientReply := ErrorTag + ": No LLM Client initialized (Check API Keys)."
  const CallErrorPrefix := ErrorTag + " calling LLM: "

  /** The client and model `query_llm` settles on, or `None` when no
      client is available. */
  function Selection(hasOpenAI: bool, hasGroq: bool, model: Option<string>, provider: string): Option<(Client, string)>
  {
    if provider == "groq" && hasGroq then
      Some((Groq, if Truthy(model) then model.value else GroqDefaultModel))
    else if provider == "groq" then
      if hasOpenAI then Some((OpenAI, OpenAIDefaultModel)) else None
    else if hasOpenAI then Some((OpenAI, if Truthy(model) then model.value else OpenAIDefaultModel))
    else None
  }

  /** The selection rules: Groq is used exactly when asked for and
      available, with the caller's model or the Llama default; asked for
      but unavailable, OpenAI is used with "gpt-4-turbo" whatever model the
      caller named; any other provider uses OpenAI with the caller's model
      or "gpt-4-turbo". Without the chosen client there is no selection. */
  lemma SelectionRules(hasOpenAI: bool, hasGroq: bool, model: Option<string>, provider: string)
    ensures var s := Selection(hasOpenAI, hasGroq, model, provider);
      && (s.Some? && s.value.0 == Groq <==> provider == "groq" && hasGroq)
      && (provider == "groq" && hasGroq ==> s.value.1 == OrString(model, GroqDefaultModel))
      && (provider == "groq" && !hasGroq ==> s == if hasOpenAI then Some((OpenAI, OpenAIDefaultModel)) else None)
      && (provider != "groq" ==> s == if hasOpenAI then Some((OpenAI, OrString(model, OpenAIDefaultModel))) else None)
      && (s.Some? ==> s.value.1 != "")
  {
  }

  /** The module-level clients. */
  class LlmClients {
    var hasOpenAI: bool
    var hasGroq: bool

    /** Set-up at import: a client exists when its key is set and
        constructing it did not fail. */
    constructor(openAIKey: Option<string>, openAIInitOk: bool, groqKey: Option<string>, groqInitOk: bool)
      ensures hasOpenAI == (Truthy(openAIKey) && openAIInitOk)
      ensures hasGroq == (Truthy(groqKey) && groqInitOk)
    {
      hasOpenAI := Truthy(openAIKey) && openAIInitOk;
      hasGroq := Truthy(groqKey) && groqInitOk;
    }

    /** `query_llm`: the reply, the no-client error text, or the call's
        error message behind "Error calling LLM: ". */
    method QueryLlm(api: CompletionService, system: string, user: string, model: Option<string>, provider: string)
      returns (reply: string)
      ensures var s := Selection(hasOpenAI, hasGroq, model, provider);
        && (s.None? ==> reply == NoClientReply)
        && (s.Some? && api(s.value.0, s.value.1, system, user).Ok? ==> reply == api(s.value.0, s.value.1, system, user).value)
        && (s.Some? && api(s.value.0, s.value.1, system, user).Err? ==>
              reply == CallErrorPrefix + api(s.value.0, s.value.1, system, user).message)
    {
      var activeClient: Option<Client> := if hasOpenAI then Some(OpenAI) else None;
      var activeModel := model;
      if provider == "groq" {
        if hasGroq {
          activeClient := Some(Groq);
          if !Truthy(activeModel) {
            activeModel := Some(GroqDefaultModel);
          }
        } else {
          activeClient := if hasOpenAI then Some(OpenAI) else None;
          activeModel := Some(OpenAIDefaultModel);
        }
      }
      if activeClient.None? {
        return NoClientReply;
      }
      if !Truthy(activeModel) {
        activeModel := Some(OpenAIDefaultModel);
      }
      var response := api(activeClient.value, activeModel.value, system, user);
      if response.Ok? {
        reply := response.value;
      } else {
        reply := CallErrorPrefix + response.message;
      }
    }
  }

  /** A text built on "Error" starts with it and contains it. */
  lemma ErrorLed(rest: string)
    ensures StartsWith(ErrorTag + rest, "Error") && Contains(ErrorTag + rest, "Error")
  {
    assert (ErrorTag + rest)[0..0 + 5] == "Error";
    assert OccursAt(ErrorTag + rest, "Error", 0);
  }

  /** Both failure replies are recognisable: they begin with "Error" (and
      so contain it). */
  lemma FailuresStartWithError(message: string)
    ensures StartsWith(NoClientReply, "Error") && Contains(NoClientReply, "Error")
    ensures StartsWith(CallErrorPrefix + message, "Error") && Contains(CallErrorPrefix + message, "Error")
  {
    ErrorLed(": No LLM Client initialized (Check API Keys).");
    assert CallErrorPrefix + message == ErrorTag + (" calling LLM: " + message);
    ErrorLed(" calling LLM: " + message);
  }
}
