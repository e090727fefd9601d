/** What the OpenAI, Grok and DeepSeek adapters share: the chat-completions
    body with one user message, and the response shape
    `{choices: [{message: {content}}]}` that each of them declares as its own
    `Codable` struct (`OpenAIResponse`, `GrokResponse`, `DeepSeekResponse`,
    identical field for field). */
module ChatApi {
  import opened Wrappers
  import opened Json

  datatype Message = Message(content: string)
  datatype Choice = Choice(message: Message)
  datatype Response = Response(choices: seq<Choice>)

  /** The `messages` array: exactly one message, from the user, holding the
      prompt. */
  function UserMessages(prompt: string): (v: Value)
    ensures v.JArray? && |v.items| == 1
    ensures Field(v.items[0], "role") == Some(JString("user"))
    ensures Field(v.items[0], "content") == Some(JString(prompt))
  {
    var members := [Member("role", JString("user")), Member("content", JString(prompt))];
    LookupAt(members, "content", 1);
    JArray([JObject(members)])
  }

  /** The `temperature: 0.7` the OpenAI and DeepSeek bodies carry. */
  const Temperature := JNumber(7, -1)

  /** A message decodes exactly when it holds a string `content`. */
  function DecodeMessage(v: Value): (r: Result<Message, DecodeError>)
    ensures r.Ok? <==> HasString(v, "content")
    ensures r.Ok? ==> Field(v, "content") == Some(JString(r.value.content))
  {
    var members :- AsObject(v, "message");
    var content :- RequiredString(members, "content");
    Ok(Message(content))
  }

  /** A choice decodes exactly when it holds a message that decodes. */
  function DecodeChoice(v: Value): (r: Result<Choice, DecodeError>)
    ensures r.Ok? <==> Field(v, "message").Some? && DecodeMessage(Field(v, "message").value).Ok?
    ensures r.Ok? ==> DecodeMessage(Field(v, "message").value) == Ok(r.value.message)
  {
    var members :- AsObject(v, "choices");
    var message :- Required(members, "message");
    var m :- DecodeMessage(message);
    Ok(Choice(m))
  }

  /** A response decodes exactly when it holds a `choices` array whose
      every item decodes, into those choices in order. */
  function DecodeResponse(v: Value): (r: Result<Response, DecodeError>)
    ensures r.Ok? <==> HasArray(v, "choices") && AllDecode(Field(v, "choices").value.items, DecodeChoice)
    ensures r.Ok? ==> DecodedAs(Field(v, "choices").value.items, DecodeChoice, r.value.choices)
  {
    var members :- AsObject(v, "response");
    var items :- RequiredArray(members, "choices");
    var choices :- DecodeEach(items, DecodeChoice);
    Ok(Response(choices))
  }

  /** `choices.first?.message.content ?? ""`. */
  function FirstChoiceText(r: Response): (text: string)
    ensures r.choices == [] ==> text == ""
    ensures r.choices != [] ==> text == r.choices[0].message.content
  {
    if r.choices == [] then "" else r.choices[0].message.content
  }

  /** `body` decodes as a chat response, and the message of its first
      choice holds `text` as its `content`. Any other members of the body,
      the choices and the message (`id`, `index`, `role`, `finish_reason`,
      `usage`, ...) are allowed. */
  predicate FirstChoiceHolds(body: Value, text: string) {
    && HasArray(body, "choices") && AllDecode(Field(body, "choices").value.items, DecodeChoice)
    && (var items := Field(body, "choices").value.items;
        && |items| > 0 && Field(items[0], "message").Some?
        && Field(Field(items[0], "message").value, "content") == Some(JString(text)))
  }

  /** Such a body decodes, and yields the first choice's text whatever
      further choices follow. */
  lemma FirstChoiceIsReply(body: Value, text: string)
    requires FirstChoiceHolds(body, text)
    ensures DecodeResponse(body).Ok? && FirstChoiceText(DecodeResponse(body).value) == text
  {
    var items := Field(body, "choices").value.items;
    var response := DecodeResponse(body).value;
    assert DecodeChoice(items[0]) == Ok(response.choices[0]);
    assert DecodeMessage(Field(items[0], "message").value) == Ok(response.choices[0].message);
  }

  /** A body whose `choices` is an empty array decodes, whatever else it
      carries, and yields "". */
  lemma NoChoiceIsEmptyText(body: Value)
    requires Field(body, "choices") == Some(JArray([]))
    ensures DecodeResponse(body) == Ok(Response([])) && FirstChoiceText(DecodeResponse(body).value) == ""
  {
    assert AllDecode(Field(body, "choices").value.items, DecodeChoice);
  }

  /** The status code is never checked, so an error document from the
      service (one without `choices`, such as `{"error": ...}`) surfaces
      as a decoding failure. */
  lemma BodyWithoutChoicesFails(members: seq<Member>)
    requires Lookup(members, "choices").None?
    ensures DecodeResponse(JObject(members)) == Err(KeyNotFound("choices"))
  {
  }
}
