/** The OpenAI adapter: chat completions against a fixed endpoint, the key
    sent as a bearer token, through the session `NetworkConfig` configures. */
module OpenAI {
  import opened Wrappers
  import opened Json
  import opened Http
  import opened ChatApi
  import Text
  import Defaults
  import NetworkConfig

  const Endpoint := "https://api.openai.com/v1/chat/completions"

  /** An `OpenAI` instance: the key it was built with and the session
      configured from the stored settings at that moment. */
  datatype Client = Client(apiKey: string, session: NetworkConfig.Session)

  /** `OpenAI(apiKey:)`. */
  function New(d: Defaults.Store, apiKey: string): (c: Client)
    ensures c.apiKey == apiKey && c.session == NetworkConfig.ConfiguredSession(d)
  {
    Client(apiKey, NetworkConfig.ConfiguredSession(d))
  }

  /** The body: the model, the prompt as the one user message, and a
      temperature. */
  function ChatBody(model: string, prompt: string): Value {
    JObject([
      Member("model", JString(model)),
      Member("messages", UserMessages(prompt)),
      Member("temperature", Temperature)
    ])
  }

  lemma ChatBodyFields(model: string, prompt: string)
    ensures var body := ChatBody(model, prompt);
      && Field(body, "model") == Some(JString(model))
      && Field(body, "messages") == Some(UserMessages(prompt))
      && HasKey(body, "temperature")
  {
    var members := ChatBody(model, prompt).members;
    LookupAt(members, "messages", 1);
    LookupAt(members, "temperature", 2);
  }

  /** The request `complete(model:prompt:)` sends: a POST to the fixed
      endpoint, through the instance's session, authorised by the trimmed
      key, whose body holds the model, exactly one user message with the
      prompt, and a temperature. */
  function ChatRequest(c: Client, model: string, prompt: string): (r: Request)
    ensures r.httpMethod == Post && r.url == "https://api.openai.com/v1/chat/completions"
    ensures r.session == c.session
    ensures HeaderValue(r.headers, "Authorization") == Some("Bearer " + Text.Trim(c.apiKey))
    ensures HeaderValue(r.headers, "Content-Type") == Some("application/json")
    ensures r.body.Some? && Field(r.body.value, "model") == Some(JString(model))
    ensures r.body.Some? && Field(r.body.value, "messages") == Some(UserMessages(prompt))
    ensures r.body.Some? && HasKey(r.body.value, "temperature")
  {
    ChatBodyFields(model, prompt);
    JsonBearerHeaders(c.apiKey);
    Request(Post, Endpoint, [JsonContentType, BearerAuthorization(c.apiKey)], Some(ChatBody(model, prompt)), c.session)
  }

  /** `complete(model:prompt:)`: the first choice's text, or "" when the
      service returned no choice. Only the chat request is sent: a failed
      exchange is rethrown as it is, and a reply needs a body that decodes
      as a chat response. */
  function Complete(c: Client, model: string, prompt: string, exchange: Exchange): (r: Result<string, AdapterError>)
    ensures exchange(ChatRequest(c, model, prompt)).Err? ==> r == Err(Transport(exchange(ChatRequest(c, model, prompt)).error))
    ensures r.Ok? <==> exchange(ChatRequest(c, model, prompt)).Ok? && DecodeResponse(exchange(ChatRequest(c, model, prompt)).value).Ok?
    ensures r.Ok? ==> r.value == FirstChoiceText(DecodeResponse(exchange(ChatRequest(c, model, prompt)).value).value)
  {
    var response :- Send(exchange, ChatRequest(c, model, prompt), DecodeResponse);
    Ok(FirstChoiceText(response))
  }

  /** A reply whose first choice holds `text` completes with exactly
      `text`, whatever else the reply carries. */
  lemma CompleteReturnsFirstChoice(c: Client, model: string, prompt: string, exchange: Exchange, text: string)
    requires exchange(ChatRequest(c, model, prompt)).Ok?
    requires FirstChoiceHolds(exchange(ChatRequest(c, model, prompt)).value, text)
    ensures Complete(c, model, prompt, exchange) == Ok(text)
  {
    FirstChoiceIsReply(exchange(ChatRequest(c, model, prompt)).value, text);
  }

  /** A reply whose `choices` is empty completes with "". */
  lemma NoChoiceIsEmptyReply(c: Client, model: string, prompt: string, exchange: Exchange)
    requires exchange(ChatRequest(c, model, prompt)).Ok?
    requires Field(exchange(ChatRequest(c, model, prompt)).value, "choices") == Some(JArray([]))
    ensures Complete(c, model, prompt, exchange) == Ok("")
  {
    NoChoiceIsEmptyText(exchange(ChatRequest(c, model, prompt)).value);
  }
}
