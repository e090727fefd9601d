/** The DeepSeek adapter: OpenAI-style chat completions, and a model list
    read from `/v1/models`, both authorised by the same bearer token. */
module DeepSeek {
  import opened Wrappers
  import opened Json
  import opened Http
  import opened ChatApi
  import Text
  import Defaults
  import NetworkConfig
  import Sorting

  const Endpoint := "https://api.deepseek.com/v1/chat/completions"
  const ModelsEndpoint := "https://api.deepseek.com/v1/models"

  datatype Client = Client(apiKey: string, session: NetworkConfig.Session)

  /** `DeepSeek(apiKey:)`. */
  function New(d: Defaults.Store, apiKey: string): (c: Client)
    ensures c.apiKey == apiKey && c.session == NetworkConfig.ConfiguredSession(d)
  {
    Client(apiKey, NetworkConfig.ConfiguredSession(d))
  }

  /** The body: the model, the prompt as the one user message, and a
      temperature. */
  function ChatBody(model: string, prompt: string): Value {
    JObject([
      Member("model", JString(model)),
      Member("messages", UserMessages(prompt)),
      Member("temperature", Temperature)
    ])
  }

  lemma ChatBodyFields(model: string, prompt: string)
    ensures var body := ChatBody(model, prompt);
      && Field(body, "model") == Some(JString(model))
      && Field(body, "messages") == Some(UserMessages(prompt))
      && HasKey(body, "temperature")
  {
    var members := ChatBody(model, prompt).members;
    LookupAt(members, "messages", 1);
    LookupAt(members, "temperature", 2);
  }

  /** The request `complete(model:prompt:)` sends: a POST to the chat
      endpoint, through the instance's session, authorised by the trimmed
      key, whose body holds the model, exactly one user message with the
      prompt, and a temperature. */
  function ChatRequest(c: Client, model: string, prompt: string): (r: Request)
    ensures r.httpMethod == Post && r.url == "https://api.deepseek.com/v1/chat/completions"
    ensures r.session == c.session
    ensures HeaderValue(r.headers, "Authorization") == Some("Bearer " + Text.Trim(c.apiKey))
    ensures HeaderValue(r.headers, "Content-Type") == Some("application/json")
    ensures r.body.Some? && Field(r.body.value, "model") == Some(JString(model))
    ensures r.body.Some? && Field(r.body.value, "messages") == Some(UserMessages(prompt))
    ensures r.body.Some? && HasKey(r.body.value, "temperature")
  {
    ChatBodyFields(model, prompt);
    JsonBearerHeaders(c.apiKey);
    Request(Post, Endpoint, [JsonContentType, BearerAuthorization(c.apiKey)], Some(ChatBody(model, prompt)), c.session)
  }

  /** `complete(model:prompt:)`: the first choice's text, or "". Only the
      chat request is sent: a failed exchange is rethrown as it is, and a
      reply needs a body that decodes as a chat response. */
  function Complete(c: Client, model: string, prompt: string, exchange: Exchange): (r: Result<string, AdapterError>)
    ensures exchange(ChatRequest(c, model, prompt)).Err? ==> r == Err(Transport(exchange(ChatRequest(c, model, prompt)).error))
    ensures r.Ok? <==> exchange(ChatRequest(c, model, prompt)).Ok? && DecodeResponse(exchange(ChatRequest(c, model, prompt)).value).Ok?
    ensures r.Ok? ==> r.value == FirstChoiceText(DecodeResponse(exchange(ChatRequest(c, model, prompt)).value).value)
  {
    var response :- Send(exchange, ChatRequest(c, model, prompt), DecodeResponse);
    Ok(FirstChoiceText(response))
  }

  /** The request `fetchAvailableModels()` sends: a GET to `/v1/models`,
      through the instance's session, carrying only the Authorization
      header and no body. */
  function ModelsRequest(c: Client): (r: Request)
    ensures r.httpMethod == Get && r.url == "https://api.deepseek.com/v1/models"
    ensures r.session == c.session && r.body.None? && |r.headers| == 1
    ensures HeaderValue(r.headers, "Authorization") == Some("Bearer " + Text.Trim(c.apiKey))
  {
    Request(Get, ModelsEndpoint, [BearerAuthorization(c.apiKey)], None, c.session)
  }

  /** An entry of `DeepSeekModelsResponse.data`; `object` is required. */
  datatype Model = Model(id: string, objectKind: string)

  /** An entry decodes exactly when it holds a string `id` and a string
      `object`. */
  function DecodeModel(v: Value): (r: Result<Model, DecodeError>)
    ensures r.Ok? <==> HasString(v, "id") && HasString(v, "object")
    ensures r.Ok? ==> Field(v, "id") == Some(JString(r.value.id))
  {
    var members :- AsObject(v, "data");
    var id :- RequiredString(members, "id");
    var objectKind :- RequiredString(members, "object");
    Ok(Model(id, objectKind))
  }

  /** A listing decodes exactly when it holds a `data` array whose every
      entry decodes, into those entries in order. */
  function DecodeModels(v: Value): (r: Result<seq<Model>, DecodeError>)
    ensures r.Ok? <==> HasArray(v, "data") && AllDecode(Field(v, "data").value.items, DecodeModel)
    ensures r.Ok? ==> DecodedAs(Field(v, "data").value.items, DecodeModel, r.value)
  {
    var members :- AsObject(v, "response");
    var items :- RequiredArray(members, "data");
    DecodeEach(items, DecodeModel)
  }

  function Ids(models: seq<Model>): (ids: seq<string>)
    ensures |ids| == |models| && forall i :: 0 <= i < |models| ==> ids[i] == models[i].id
  {
    seq(|models|, i requires 0 <= i < |models| => models[i].id)
  }

  /** `data.map { $0.id }.sorted()`: every id, duplicates included, in
      ascending order. */
  function ModelList(models: seq<Model>): (names: seq<string>)
    ensures Sorting.Sorted(names)
    ensures multiset(names) == multiset(Ids(models))
  {
    Sorting.Sort(Ids(models))
  }

  /** `fetchAvailableModels()`: a listing that decodes gives the service's
      ids, sorted, duplicates kept; a failed exchange is rethrown as it is. */
  function FetchAvailableModels(c: Client, exchange: Exchange): (r: Result<seq<string>, AdapterError>)
    ensures r.Ok? <==> exchange(ModelsRequest(c)).Ok? && DecodeModels(exchange(ModelsRequest(c)).value).Ok?
    ensures r.Ok? ==> var models := DecodeModels(exchange(ModelsRequest(c)).value).value;
      && Sorting.Sorted(r.value)
      && multiset(r.value) == multiset(Ids(models))
      && |r.value| == |models|
    ensures exchange(ModelsRequest(c)).Err? ==> r == Err(Transport(exchange(ModelsRequest(c)).error))
  {
    var models :- Send(exchange, ModelsRequest(c), DecodeModels);
    assert |multiset(ModelList(models))| == |multiset(Ids(models))|;
    Ok(ModelList(models))
  }

  /** Both requests carry the same Authorization header, the trimmed key. */
  lemma SameAuthorization(c: Client, model: string, prompt: string)
    ensures HeaderValue(ChatRequest(c, model, prompt).headers, "Authorization")
         == HeaderValue(ModelsRequest(c).headers, "Authorization")
         == Some("Bearer " + Text.Trim(c.apiKey))
  {
  }

  /** A model entry without `object` makes the whole list undecodable. */
  lemma EntryWithoutObjectFails(id: string, others: seq<Value>)
    ensures DecodeModels(JObject([Member("data", JArray([JObject([Member("id", JString(id))])] + others))]))
         == Err(KeyNotFound("object"))
  {
    var items := [JObject([Member("id", JString(id))])] + others;
    assert items[0] == JObject([Member("id", JString(id))]);
  }

  /** A reply whose first choice holds `text` completes with exactly
      `text`, whatever else the reply carries. */
  lemma CompleteReturnsFirstChoice(c: Client, model: string, prompt: string, exchange: Exchange, text: string)
    requires exchange(ChatRequest(c, model, prompt)).Ok?
    requires FirstChoiceHolds(exchange(ChatRequest(c, model, prompt)).value, text)
    ensures Complete(c, model, prompt, exchange) == Ok(text)
  {
    FirstChoiceIsReply(exchange(ChatRequest(c, model, prompt)).value, text);
  }

  /** A reply whose `choices` is empty completes with "". */
  lemma NoChoiceIsEmptyReply(c: Client, model: string, prompt: string, exchange: Exchange)
    requires exchange(ChatRequest(c, model, prompt)).Ok?
    requires Field(exchange(ChatRequest(c, model, prompt)).value, "choices") == Some(JArray([]))
    ensures Complete(c, model, prompt, exchange) == Ok("")
  {
    NoChoiceIsEmptyText(exchange(ChatRequest(c, model, prompt)).value);
  }
}
