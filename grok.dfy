/** The Grok (X) adapter: the same chat-completions shape as OpenAI's, but
    without a temperature and sent through the shared URL session. */
module Grok {
  import opened Wrappers
  import opened Json
  import opened Http
  import opened ChatApi
  import Text
  import Defaults
  import NetworkConfig

  const Endpoint := "https://api.x.ai/v1/chat/completions"

  /** A `Grok` instance holds only its key. */
  datatype Client = Client(apiKey: string)

  /** The body: the model and the prompt as the one user message. */
  function ChatBody(model: string, prompt: string): Value {
    JObject([
      Member("model", JString(model)),
      Member("messages", UserMessages(prompt))
    ])
  }

  /** The request `complete(model:prompt:)` sends: a POST to the fixed
      endpoint on `URLSession.shared`, so never through a proxy, authorised
      by the trimmed key, whose body has exactly the model and one user
      message with the prompt, and no temperature. */
  function ChatRequest(c: Client, model: string, prompt: string): (r: Request)
    ensures r.httpMethod == Post && r.url == "https://api.x.ai/v1/chat/completions"
    ensures r.session.proxy.None?
    ensures HeaderValue(r.headers, "Authorization") == Some("Bearer " + Text.Trim(c.apiKey))
    ensures HeaderValue(r.headers, "Content-Type") == Some("application/json")
    ensures r.body.Some? && r.body.value.JObject? && |r.body.value.members| == 2
    ensures r.body.Some? && Field(r.body.value, "model") == Some(JString(model))
    ensures r.body.Some? && Field(r.body.value, "messages") == Some(UserMessages(prompt))
    ensures r.body.Some? && !HasKey(r.body.value, "temperature")
  {
    var members := ChatBody(model, prompt).members;
    LookupAt(members, "model", 0);
    LookupAt(members, "messages", 1);
    assert forall i :: 0 <= i < |members| ==> members[i].key != "temperature";
    JsonBearerHeaders(c.apiKey);
    Request(Post, Endpoint, [JsonContentType, BearerAuthorization(c.apiKey)], Some(ChatBody(model, prompt)), NetworkConfig.SharedSession)
  }

  /** `complete(model:prompt:)`: the first choice's text, or "". Only the
      chat request is sent: a failed exchange is rethrown as it is, and a
      reply needs a body that decodes as a chat response. */
  function Complete(c: Client, model: string, prompt: string, exchange: Exchange): (r: Result<string, AdapterError>)
    ensures exchange(ChatRequest(c, model, prompt)).Err? ==> r == Err(Transport(exchange(ChatRequest(c, model, prompt)).error))
    ensures r.Ok? <==> exchange(ChatRequest(c, model, prompt)).Ok? && DecodeResponse(exchange(ChatRequest(c, model, prompt)).value).Ok?
    ensures r.Ok? ==> r.value == FirstChoiceText(DecodeResponse(exchange(ChatRequest(c, model, prompt)).value).value)
  {
    var response :- Send(exchange, ChatRequest(c, model, prompt), DecodeResponse);
    Ok(FirstChoiceText(response))
  }

  /** A reply whose first choice holds `text` completes with exactly
      `text`, whatever else the reply carries. */
  lemma CompleteReturnsFirstChoice(c: Client, model: string, prompt: string, exchange: Exchange, text: string)
    requires exchange(ChatRequest(c, model, prompt)).Ok?
    requires FirstChoiceHolds(exchange(ChatRequest(c, model, prompt)).value, text)
    ensures Complete(c, model, prompt, exchange) == Ok(text)
  {
    FirstChoiceIsReply(exchange(ChatRequest(c, model, prompt)).value, text);
  }

  /** A reply whose `choices` is empty completes with "". */
  lemma NoChoiceIsEmptyReply(c: Client, model: string, prompt: string, exchange: Exchange)
    requires exchange(ChatRequest(c, model, prompt)).Ok?
    requires Field(exchange(ChatRequest(c, model, prompt)).value, "choices") == Some(JArray([]))
    ensures Complete(c, model, prompt, exchange) == Ok("")
  {
    NoChoiceIsEmptyText(exchange(ChatRequest(c, model, prompt)).value);
  }
}
