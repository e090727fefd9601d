/** The Ollama adapter: a local server addressed by host and port, no
    authorisation, a non-streamed `/api/chat` and the `/api/tags` list. */
module Ollama {
  import opened Wrappers
  import opened Json
  import opened Http
  import opened ChatApi
  import Defaults
  import NetworkConfig
  import Sorting

  /** An `Ollama` instance. The key is kept but never sent. */
  datatype Client = Client(apiKey: string, host: string, port: string, session: NetworkConfig.Session)

  /** `Ollama(apiKey:host:port:)` with its default arguments. */
  function New(d: Defaults.Store, apiKey: string := "", host: string := "localhost", port: string := "11434"): (c: Client)
    ensures c == Client(apiKey, host, port, NetworkConfig.ConfiguredSession(d))
  {
    Client(apiKey, host, port, NetworkConfig.ConfiguredSession(d))
  }

  function BaseURL(c: Client): string {
    "http://" + c.host + ":" + c.port
  }

  /** The body: the model, the prompt as the one user message, and
      streaming switched off. */
  function ChatBody(model: string, prompt: string): Value {
    JObject([
      Member("model", JString(model)),
      Member("messages", UserMessages(prompt)),
      Member("stream", JBool(false))
    ])
  }

  /** The request `complete(model:prompt:)` sends: a POST to `/api/chat` on
      the instance's host and port, through its session, without
      authorisation, whose body holds the model, exactly one user message
      with the prompt, and streaming switched off. */
  function ChatRequest(c: Client, model: string, prompt: string): (r: Request)
    ensures r.httpMethod == Post && r.url == "http://" + c.host + ":" + c.port + "/api/chat"
    ensures r.session == c.session
    ensures HeaderValue(r.headers, "Content-Type") == Some("application/json")
    ensures HeaderValue(r.headers, "Authorization").None?
    ensures r.body.Some? && Field(r.body.value, "model") == Some(JString(model))
    ensures r.body.Some? && Field(r.body.value, "messages") == Some(UserMessages(prompt))
    ensures r.body.Some? && Field(r.body.value, "stream") == Some(JBool(false))
  {
    assert "Content-Type"[0] != "Authorization"[0];
    var members := ChatBody(model, prompt).members;
    LookupAt(members, "messages", 1);
    LookupAt(members, "stream", 2);
    Request(Post, BaseURL(c) + "/api/chat", [JsonContentType], Some(ChatBody(model, prompt)), c.session)
  }

  /** `OllamaResponse`: `message` (with `role` and `content`) and `done`
      are required. */
  datatype Reply = Reply(role: string, content: string, done: bool)

  /** A reply decodes exactly when it holds a `message` with a string
      `role` and a string `content`, and a boolean `done`. */
  function DecodeReply(v: Value): (r: Result<Reply, DecodeError>)
    ensures r.Ok? <==>
      && Field(v, "message").Some?
      && HasString(Field(v, "message").value, "role")
      && HasString(Field(v, "message").value, "content")
      && Field(v, "done").Some? && Field(v, "done").value.JBool?
    ensures r.Ok? ==> Field(Field(v, "message").value, "content") == Some(JString(r.value.content))
  {
    var members :- AsObject(v, "response");
    var message :- Required(members, "message");
    var messageMembers :- AsObject(message, "message");
    var role :- RequiredString(messageMembers, "role");
    var content :- RequiredString(messageMembers, "content");
    var done :- RequiredBool(members, "done");
    Ok(Reply(role, content, done))
  }

  /** `complete(model:prompt:)`: the reply message's content. Only the chat
      request is sent: a failed exchange is rethrown as it is, and a reply
      needs a body that decodes. */
  function Complete(c: Client, model: string, prompt: string, exchange: Exchange): (r: Result<string, AdapterError>)
    ensures exchange(ChatRequest(c, model, prompt)).Err? ==> r == Err(Transport(exchange(ChatRequest(c, model, prompt)).error))
    ensures r.Ok? <==> exchange(ChatRequest(c, model, prompt)).Ok? && DecodeReply(exchange(ChatRequest(c, model, prompt)).value).Ok?
    ensures r.Ok? ==> r.value == DecodeReply(exchange(ChatRequest(c, model, prompt)).value).value.content
  {
    var reply :- Send(exchange, ChatRequest(c, model, prompt), DecodeReply);
    Ok(reply.content)
  }

  /** The request `fetchAvailableModels()` sends: a GET to `/api/tags` on
      the same server, through the same session, without headers or body. */
  function ModelsRequest(c: Client): (r: Request)
    ensures r.httpMethod == Get && r.url == "http://" + c.host + ":" + c.port + "/api/tags"
    ensures r.session == c.session && r.headers == [] && r.body.None?
  {
    Request(Get, BaseURL(c) + "/api/tags", [], None, c.session)
  }

  /** An entry of `OllamaModelsResponse.models`: only `name` is required. */
  datatype Model = Model(name: string)

  /** An entry decodes exactly when it holds a string `name`. */
  function DecodeModel(v: Value): (r: Result<Model, DecodeError>)
    ensures r.Ok? <==> HasString(v, "name")
    ensures r.Ok? ==> Field(v, "name") == Some(JString(r.value.name))
  {
    var members :- AsObject(v, "models");
    var name :- RequiredString(members, "name");
    Ok(Model(name))
  }

  /** A listing decodes exactly when it holds a `models` array whose every
      entry decodes, into those entries in order. */
  function DecodeModels(v: Value): (r: Result<seq<Model>, DecodeError>)
    ensures r.Ok? <==> HasArray(v, "models") && AllDecode(Field(v, "models").value.items, DecodeModel)
    ensures r.Ok? ==> DecodedAs(Field(v, "models").value.items, DecodeModel, r.value)
  {
    var members :- AsObject(v, "response");
    var items :- RequiredArray(members, "models");
    DecodeEach(items, DecodeModel)
  }

  function Names(models: seq<Model>): (names: seq<string>)
    ensures |names| == |models| && forall i :: 0 <= i < |models| ==> names[i] == models[i].name
  {
    seq(|models|, i requires 0 <= i < |models| => models[i].name)
  }

  /** `models.map { $0.name }.sorted()`. */
  function ModelList(models: seq<Model>): (names: seq<string>)
    ensures Sorting.Sorted(names)
    ensures multiset(names) == multiset(Names(models))
  {
    Sorting.Sort(Names(models))
  }

  /** `fetchAvailableModels()`: a listing that decodes gives the server's
      model names, sorted, duplicates kept; a failed exchange is rethrown as
      it is. */
  function FetchAvailableModels(c: Client, exchange: Exchange): (r: Result<seq<string>, AdapterError>)
    ensures r.Ok? <==> exchange(ModelsRequest(c)).Ok? && DecodeModels(exchange(ModelsRequest(c)).value).Ok?
    ensures r.Ok? ==> var models := DecodeModels(exchange(ModelsRequest(c)).value).value;
      && Sorting.Sorted(r.value)
      && multiset(r.value) == multiset(Names(models))
      && |r.value| == |models|
    ensures exchange(ModelsRequest(c)).Err? ==> r == Err(Transport(exchange(ModelsRequest(c)).error))
  {
    var models :- Send(exchange, ModelsRequest(c), DecodeModels);
    assert |multiset(ModelList(models))| == |multiset(Names(models))|;
    Ok(ModelList(models))
  }

  // ---------------------------------------------------------------------
  // Properties

  /** The key an instance is built with never reaches the wire. */
  lemma KeyIsNeverSent(d: Defaults.Store, key1: string, key2: string, host: string, port: string, model: string, prompt: string)
    ensures ChatRequest(New(d, key1, host, port), model, prompt) == ChatRequest(New(d, key2, host, port), model, prompt)
    ensures ModelsRequest(New(d, key1, host, port)) == ModelsRequest(New(d, key2, host, port))
  {
  }

  /** Without arguments an instance has no key and talks to port 11434 of
      `localhost`. */
  lemma DefaultServer(d: Defaults.Store)
    ensures New(d).apiKey == "" && New(d).host == "localhost" && New(d).port == "11434"
  {
  }

  /** Any reply that decodes completes with its message's content,
      whatever other members it carries (`model`, `created_at`, the
      durations and counts, ...). */
  lemma CompleteReturnsContent(c: Client, model: string, prompt: string, exchange: Exchange, text: string)
    requires exchange(ChatRequest(c, model, prompt)).Ok?
    requires DecodeReply(exchange(ChatRequest(c, model, prompt)).value).Ok?
    requires Field(Field(exchange(ChatRequest(c, model, prompt)).value, "message").value, "content") == Some(JString(text))
    ensures Complete(c, model, prompt, exchange) == Ok(text)
  {
  }

  /** A reply without `done` does not decode, whatever its message. */
  lemma ReplyWithoutDoneFails(message: Value)
    requires message.JObject?
    requires Lookup(message.members, "role").Some? && Lookup(message.members, "role").value.JString?
    requires Lookup(message.members, "content").Some? && Lookup(message.members, "content").value.JString?
    ensures DecodeReply(JObject([Member("message", message)])) == Err(KeyNotFound("done"))
  {
  }
}
