/** The Gemini adapter: `generateContent` with the key in the query string,
    and a model list filtered to Gemini models with the `models/` path
    removed. */
module Gemini {
  import opened Wrappers
  import opened Json
  import opened Http
  import Text
  import Defaults
  import NetworkConfig
  import Sorting

  const BaseURL := "https://generativelanguage.googleapis.com/v1beta/models"

  datatype Client = Client(apiKey: string, session: NetworkConfig.Session)

  /** `Gemini(apiKey:)`. */
  function New(d: Defaults.Store, apiKey: string): (c: Client)
    ensures c.apiKey == apiKey && c.session == NetworkConfig.ConfiguredSession(d)
  {
    Client(apiKey, NetworkConfig.ConfiguredSession(d))
  }

  /** The body: one content with one text part holding the prompt, and a
      generation config with temperature 0.7 and at most 2048 tokens. */
  function ChatBody(prompt: string): Value {
    JObject([
      Member("contents", JArray([JObject([Member("parts", JArray([JObject([Member("text", JString(prompt))])]))])])),
      Member("generationConfig", JObject([
        Member("temperature", JNumber(7, -1)),
        Member("maxOutputTokens", JNumber(2048, 0))
      ]))
    ])
  }

  /** The request `complete(model:prompt:)` sends: a POST whose URL names
      the model and carries the key as given (not trimmed), with a JSON
      content type as its only header, so no Authorization, through the instance's
      session; the body holds the prompt as the one text part of the one
      content, and the generation config. */
  function ChatRequest(c: Client, model: string, prompt: string): (r: Request)
    ensures r.httpMethod == Post
    ensures r.url == "https://generativelanguage.googleapis.com/v1beta/models/" + model + ":generateContent?key=" + c.apiKey
    ensures r.session == c.session
    ensures HeaderValue(r.headers, "Content-Type") == Some("application/json")
    ensures HeaderValue(r.headers, "Authorization").None?
    ensures r.headers == [JsonContentType]
    ensures r.body.Some? && Field(r.body.value, "contents")
      == Some(JArray([JObject([Member("parts", JArray([JObject([Member("text", JString(prompt))])]))])]))
    ensures r.body.Some? && Field(r.body.value, "generationConfig").Some?
    ensures r.body.Some? && Field(Field(r.body.value, "generationConfig").value, "temperature") == Some(JNumber(7, -1))
    ensures r.body.Some? && Field(Field(r.body.value, "generationConfig").value, "maxOutputTokens") == Some(JNumber(2048, 0))
  {
    assert "Content-Type"[0] != "Authorization"[0];
    assert BaseURL + "/" + model + ":generateContent?key=" + c.apiKey
        == "https://generativelanguage.googleapis.com/v1beta/models/" + model + ":generateContent?key=" + c.apiKey;
    LookupAt(ChatBody(prompt).members, "generationConfig", 1);
    LookupAt(ChatBody(prompt).members[1].value.members, "maxOutputTokens", 1);
    Request(Post, BaseURL + "/" + model + ":generateContent?key=" + c.apiKey, [JsonContentType], Some(ChatBody(prompt)), c.session)
  }

  // `GeminiResponse`, reduced to the members the adapter reads and the
  // ones whose absence makes decoding fail.
  datatype Part = Part(text: Option<string>)
  datatype Content = Content(parts: seq<Part>)
  datatype Candidate = Candidate(content: Content)
  datatype Response = Response(candidates: seq<Candidate>)

  /** A part decodes exactly when it is an object whose `text`, if
      present and not null, is a string; it then has a text exactly when it
      holds a string `text`. */
  function DecodePart(v: Value): (r: Result<Part, DecodeError>)
    ensures r.Ok? <==> v.JObject? && (Field(v, "text").None? || Field(v, "text").value.JNull? || HasString(v, "text"))
    ensures r.Ok? ==> (r.value.text.Some? <==> HasString(v, "text"))
    ensures r.Ok? && r.value.text.Some? ==> Field(v, "text") == Some(JString(r.value.text.value))
  {
    var members :- AsObject(v, "parts");
    var text :- OptionalString(members, "text");
    Ok(Part(text))
  }

  /** A content decodes exactly when it holds a `parts` array whose every
      item decodes, into those parts in order. */
  function DecodeContent(v: Value): (r: Result<Content, DecodeError>)
    ensures r.Ok? <==> HasArray(v, "parts") && AllDecode(Field(v, "parts").value.items, DecodePart)
    ensures r.Ok? ==> DecodedAs(Field(v, "parts").value.items, DecodePart, r.value.parts)
  {
    var members :- AsObject(v, "content");
    var items :- RequiredArray(members, "parts");
    var parts :- DecodeEach(items, DecodePart);
    Ok(Content(parts))
  }

  /** A candidate decodes exactly when it holds a `content` that decodes. */
  function DecodeCandidate(v: Value): (r: Result<Candidate, DecodeError>)
    ensures r.Ok? <==> Field(v, "content").Some? && DecodeContent(Field(v, "content").value).Ok?
    ensures r.Ok? ==> DecodeContent(Field(v, "content").value) == Ok(r.value.content)
  {
    var members :- AsObject(v, "candidates");
    var content :- Required(members, "content");
    var c :- DecodeContent(content);
    Ok(Candidate(c))
  }

  /** A response decodes exactly when it holds a `candidates` array whose
      every item decodes, into those candidates in order. */
  function DecodeResponse(v: Value): (r: Result<Response, DecodeError>)
    ensures r.Ok? <==> HasArray(v, "candidates") && AllDecode(Field(v, "candidates").value.items, DecodeCandidate)
    ensures r.Ok? ==> DecodedAs(Field(v, "candidates").value.items, DecodeCandidate, r.value.candidates)
  {
    var members :- AsObject(v, "response");
    var items :- RequiredArray(members, "candidates");
    var candidates :- DecodeEach(items, DecodeCandidate);
    Ok(Response(candidates))
  }

  /** `candidates.first?.content.parts.first?.text ?? ""`. */
  function ReplyText(r: Response): (text: string)
    ensures r.candidates == [] || r.candidates[0].content.parts == [] ==> text == ""
    ensures r.candidates != [] && r.candidates[0].content.parts != [] ==>
      text == r.candidates[0].content.parts[0].text.GetOr("")
  {
    if r.candidates == [] || r.candidates[0].content.parts == [] then ""
    else r.candidates[0].content.parts[0].text.GetOr("")
  }

  /** `complete(model:prompt:)`: the text of the first part of the first
      candidate, or "". Only the chat request is sent: a failed exchange is
      rethrown as it is, and a reply needs a body that decodes. */
  function Complete(c: Client, model: string, prompt: string, exchange: Exchange): (r: Result<string, AdapterError>)
    ensures exchange(ChatRequest(c, model, prompt)).Err? ==> r == Err(Transport(exchange(ChatRequest(c, model, prompt)).error))
    ensures r.Ok? <==> exchange(ChatRequest(c, model, prompt)).Ok? && DecodeResponse(exchange(ChatRequest(c, model, prompt)).value).Ok?
    ensures r.Ok? ==> r.value == ReplyText(DecodeResponse(exchange(ChatRequest(c, model, prompt)).value).value)
  {
    var response :- Send(exchange, ChatRequest(c, model, prompt), DecodeResponse);
    Ok(ReplyText(response))
  }

  // ---------------------------------------------------------------------
  // The model list

  /** The request `fetchAvailableModels()` sends: a GET with the key, as
      given, in the query string, no header at all and no body, through the
      instance's session. */
  function ModelsRequest(c: Client): (r: Request)
    ensures r.httpMethod == Get
    ensures r.url == "https://generativelanguage.googleapis.com/v1beta/models?key=" + c.apiKey
    ensures r.headers == [] && r.body.None? && r.session == c.session
  {
    Request(Get, BaseURL + "?key=" + c.apiKey, [], None, c.session)
  }

  /** An entry of `GeminiModelsResponse.models`: only `name` is required. */
  datatype Model = Model(name: string)

  /** An entry decodes exactly when it holds a string `name`. */
  function DecodeModel(v: Value): (r: Result<Model, DecodeError>)
    ensures r.Ok? <==> HasString(v, "name")
    ensures r.Ok? ==> Field(v, "name") == Some(JString(r.value.name))
  {
    var members :- AsObject(v, "models");
    var name :- RequiredString(members, "name");
    Ok(Model(name))
  }

  /** A listing decodes exactly when it holds a `models` array whose every
      entry decodes, into those entries in order. */
  function DecodeModels(v: Value): (r: Result<seq<Model>, DecodeError>)
    ensures r.Ok? <==> HasArray(v, "models") && AllDecode(Field(v, "models").value.items, DecodeModel)
    ensures r.Ok? ==> DecodedAs(Field(v, "models").value.items, DecodeModel, r.value)
  {
    var members :- AsObject(v, "response");
    var items :- RequiredArray(members, "models");
    DecodeEach(items, DecodeModel)
  }

  function Names(models: seq<Model>): (names: seq<string>)
    ensures |names| == |models| && forall i :: 0 <= i < |models| ==> names[i] == models[i].name
  {
    seq(|models|, i requires 0 <= i < |models| => models[i].name)
  }

  /** `filter { $0.name.contains("gemini") }`: the names containing
      "gemini", each as often as it was listed, and no other. */
  function KeepGemini(names: seq<string>): (kept: seq<string>)
    ensures forall n :: multiset(kept)[n] == if Text.Contains(n, "gemini") then multiset(names)[n] else 0
    ensures |kept| <= |names|
  {
    if names == [] then []
    else
      assert names == [names[0]] + names[1..];
      (if Text.Contains(names[0], "gemini") then [names[0]] else []) + KeepGemini(names[1..])
  }

  /** `replacingOccurrences(of: "models/", with: "")`. */
  function StripModelsPath(name: string): string {
    Text.ReplaceAll(name, "models/", "")
  }

  function Stripped(names: seq<string>): (r: seq<string>)
    ensures |r| == |names| && forall i :: 0 <= i < |names| ==> r[i] == StripModelsPath(names[i])
  {
    seq(|names|, i requires 0 <= i < |names| => StripModelsPath(names[i]))
  }

  /** The list `fetchAvailableModels()` returns for decoded `models`. */
  function ModelList(models: seq<Model>): (list: seq<string>)
    ensures Sorting.Sorted(list)
    ensures multiset(list) == multiset(Stripped(KeepGemini(Names(models))))
  {
    Sorting.Sort(Stripped(KeepGemini(Names(models))))
  }

  /** `fetchAvailableModels()`: a listing that decodes gives the names
      containing "gemini", each with every `models/` removed, sorted,
      duplicates kept; a failed exchange is rethrown as it is. */
  function FetchAvailableModels(c: Client, exchange: Exchange): (r: Result<seq<string>, AdapterError>)
    ensures r.Ok? <==> exchange(ModelsRequest(c)).Ok? && DecodeModels(exchange(ModelsRequest(c)).value).Ok?
    ensures r.Ok? ==> var models := DecodeModels(exchange(ModelsRequest(c)).value).value;
      && Sorting.Sorted(r.value)
      && multiset(r.value) == multiset(Stripped(KeepGemini(Names(models))))
    ensures exchange(ModelsRequest(c)).Err? ==> r == Err(Transport(exchange(ModelsRequest(c)).error))
  {
    var models :- Send(exchange, ModelsRequest(c), DecodeModels);
    Ok(ModelList(models))
  }

  // ---------------------------------------------------------------------
  // Properties

  /** The prompt is the body's only text: it occurs there exactly once. */
  lemma PromptOccursOnce(prompt: string)
    ensures CountString(ChatBody(prompt), prompt) == 1
  {
    var part := JObject([Member("text", JString(prompt))]);
    var content := JObject([Member("parts", JArray([part]))]);
    var config := JObject([Member("temperature", JNumber(7, -1)), Member("maxOutputTokens", JNumber(2048, 0))]);
    var members := ChatBody(prompt).members;
    CountStringSingleMember("text", JString(prompt), prompt);
    CountStringSingleItem(part, prompt);
    CountStringSingleMember("parts", JArray([part]), prompt);
    CountStringSingleItem(content, prompt);
    assert CountString(config, prompt) == 0 by {
      var cm := config.members;
      assert cm[1..][1..] == [];
      assert CountStringMembers(cm[1..], prompt) == 0;
    }
    CountStringSingleMember("generationConfig", config, prompt);
    assert members[0].value == JArray([content]) && members[1..] == [Member("generationConfig", config)];
    assert CountStringMembers(members[1..], prompt) == 0;
  }

  /** `body` decodes as a response, and the first part of its first
      candidate is `part`. Any other members (`finishReason`,
      `safetyRatings`, the content's `role`, ...) are allowed. */
  predicate FirstPartIs(body: Value, part: Value) {
    && HasArray(body, "candidates") && AllDecode(Field(body, "candidates").value.items, DecodeCandidate)
    && (var candidates := Field(body, "candidates").value.items;
        && |candidates| > 0 && Field(candidates[0], "content").Some?
        && HasArray(Field(candidates[0], "content").value, "parts")
        && (var parts := Field(Field(candidates[0], "content").value, "parts").value.items;
            |parts| > 0 && parts[0] == part))
  }

  /** Such a body decodes; its reply is the first part's text, or "" when
      that part has none. */
  lemma FirstPartIsReply(body: Value, part: Value)
    requires FirstPartIs(body, part)
    ensures DecodeResponse(body).Ok?
    ensures HasString(part, "text") ==> Field(part, "text") == Some(JString(ReplyText(DecodeResponse(body).value)))
    ensures !HasString(part, "text") ==> ReplyText(DecodeResponse(body).value) == ""
  {
    var candidates := Field(body, "candidates").value.items;
    var content := Field(candidates[0], "content").value;
    var parts := Field(content, "parts").value.items;
    var response := DecodeResponse(body).value;
    assert DecodeCandidate(candidates[0]) == Ok(response.candidates[0]);
    assert DecodeContent(content) == Ok(response.candidates[0].content);
    assert DecodePart(parts[0]) == Ok(response.candidates[0].content.parts[0]);
  }

  /** A reply whose first candidate's first part holds `text` completes with
      exactly `text`, whatever else the reply carries. */
  lemma CompleteReturnsFirstPart(c: Client, model: string, prompt: string, exchange: Exchange, part: Value, text: string)
    requires exchange(ChatRequest(c, model, prompt)).Ok?
    requires FirstPartIs(exchange(ChatRequest(c, model, prompt)).value, part)
    requires Field(part, "text") == Some(JString(text))
    ensures Complete(c, model, prompt, exchange) == Ok(text)
  {
    FirstPartIsReply(exchange(ChatRequest(c, model, prompt)).value, part);
  }

  /** A first part whose `text` is absent or null (a reply blocked by a
      safety filter, say) completes with "". */
  lemma PartWithoutTextIsEmptyReply(c: Client, model: string, prompt: string, exchange: Exchange, part: Value)
    requires exchange(ChatRequest(c, model, prompt)).Ok?
    requires FirstPartIs(exchange(ChatRequest(c, model, prompt)).value, part)
    requires Field(part, "text").None? || Field(part, "text") == Some(JNull)
    ensures Complete(c, model, prompt, exchange) == Ok("")
  {
    FirstPartIsReply(exchange(ChatRequest(c, model, prompt)).value, part);
  }

  /** A reply whose `candidates` is empty completes with "". */
  lemma NoCandidateIsEmptyReply(c: Client, model: string, prompt: string, exchange: Exchange)
    requires exchange(ChatRequest(c, model, prompt)).Ok?
    requires Field(exchange(ChatRequest(c, model, prompt)).value, "candidates") == Some(JArray([]))
    ensures Complete(c, model, prompt, exchange) == Ok("")
  {
    assert AllDecode(Field(exchange(ChatRequest(c, model, prompt)).value, "candidates").value.items, DecodeCandidate);
  }


  /** A full model path `models/<id>` is listed as `<id>`. */
  lemma StripLeadingPath(id: string)
    requires '/' !in id
    ensures StripModelsPath("models/" + id) == id
  {
    Text.ReplaceAllKeepsFreePrefix([], "models/", id, "");
    assert [] + "models/" + id == "models/" + id;
    Text.MissingCharNotContained(id, "models/", 6);
    Text.ReplaceAllAbsent(id, "models/", "");
  }

  /** Every occurrence is removed, not only a leading one: text before an
      inner `models/` is kept and the scan goes on after it. */
  lemma StripInnerPath(x: string, rest: string)
    requires '/' !in x
    ensures StripModelsPath(x + "models/" + rest) == x + StripModelsPath(rest)
  {
    Text.ReplaceAllKeepsFreePrefix(x, "models/", rest, "");
  }

  /** A name without the path is listed unchanged. */
  lemma StripWithoutPath(name: string)
    requires !Text.Contains(name, "models/")
    ensures StripModelsPath(name) == name
  {
    Text.ReplaceAllAbsent(name, "models/", "");
  }

  /** Every listed Gemini model appears in the list under its id. */
  lemma ListsGeminiModel(models: seq<Model>, i: nat, id: string)
    requires i < |models| && models[i].name == "models/" + id
    requires '/' !in id && Text.Contains(id, "gemini")
    ensures id in ModelList(models)
  {
    var name := models[i].name;
    Text.ContainsInSuffix("models/", id, "gemini");
    var names := Names(models);
    assert names[i] == name;
    var kept := KeepGemini(names);
    assert multiset(kept)[name] == multiset(names)[name] > 0;
    assert name in kept;
    var k :| 0 <= k < |kept| && kept[k] == name;
    StripLeadingPath(id);
    assert Stripped(kept)[k] == id;
    assert multiset(ModelList(models))[id] == multiset(Stripped(kept))[id] > 0;
  }

  /** A model whose name does not contain "gemini" is dropped: the list is
      only as long as the Gemini names. */
  lemma DropsOtherModels(models: seq<Model>)
    ensures |ModelList(models)| == |KeepGemini(Names(models))| <= |models|
  {
    var s := Stripped(KeepGemini(Names(models)));
    assert |multiset(ModelList(models))| == |multiset(s)|;
  }
}
