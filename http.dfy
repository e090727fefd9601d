/** The requests the adapters hand to their URL session, and the shape of
    the exchange itself. The transport is not modelled: an `Exchange` maps
    the request sent to the JSON body that came back, or to the text of the
    error that stopped it (a URL string `URL(string:)` rejects, a network
    failure, a body that is not JSON). HTTP status codes are not looked at
    by any adapter, so they do not appear. */
module Http {
  import opened Wrappers
  import Json
  import Text
  import NetworkConfig

  datatype Method = Get | Post

  datatype Header = Header(name: string, value: string)

  datatype Request = Request(
    httpMethod: Method,
    url: string,
    headers: seq<Header>,
    body: Option<Json.Value>,
    session: NetworkConfig.Session)

  type Exchange = Request -> Result<Json.Value, string>

  /** What an adapter call throws: the session's error, or the decoder's. */
  datatype AdapterError = Transport(description: string) | Decoding(error: Json.DecodeError) {
    function Description(): string {
      match this
      case Transport(d) => d
      case Decoding(e) => e.Description()
    }
  }

  const JsonContentType := Header("Content-Type", "application/json")

  /** `"Bearer \(apiKey.trimmingCharacters(in: .whitespacesAndNewlines))"`:
      after "Bearer " comes the key with the whitespace at both ends
      dropped: a token that neither starts nor ends with whitespace and is
      empty exactly when the key is blank. */
  function BearerAuthorization(apiKey: string): (h: Header)
    ensures h.name == "Authorization"
    ensures |h.value| >= 7 && h.value[..7] == "Bearer "
    ensures var token := h.value[7..];
      && (token == [] || (!Text.IsWhitespace(token[0]) && !Text.IsWhitespace(token[|token| - 1])))
      && (token == [] <==> Text.AllWhitespace(apiKey))
      && token == Text.Trim(apiKey)
  {
    assert ("Bearer " + Text.Trim(apiKey))[7..] == Text.Trim(apiKey);
    Header("Authorization", "Bearer " + Text.Trim(apiKey))
  }

  /** The value of the first header named `name`, if any. */
  function HeaderValue(headers: seq<Header>, name: string): Option<string> {
    if headers == [] then None
    else if headers[0].name == name then Some(headers[0].value)
    else HeaderValue(headers[1..], name)
  }

  /** The header list of every authorised JSON POST: each of the two
      headers is found under its own name. */
  lemma JsonBearerHeaders(apiKey: string)
    ensures var headers := [JsonContentType, BearerAuthorization(apiKey)];
      && HeaderValue(headers, "Content-Type") == Some("application/json")
      && HeaderValue(headers, "Authorization") == Some("Bearer " + Text.Trim(apiKey))
  {
    var headers := [JsonContentType, BearerAuthorization(apiKey)];
    assert headers[0].name[0] != "Authorization"[0];
    assert headers[1..] == [BearerAuthorization(apiKey)];
  }

  /** Sends `request` and decodes the body with `decode`. A value comes back
      exactly when the session answered and the body decodes, and it is
      what the decoder made of the body. A failed exchange is rethrown with
      the session's own text before anything is decoded; a decoding error
      is the decoder's own. */
  function Send<T>(exchange: Exchange, request: Request, decode: Json.Value -> Result<T, Json.DecodeError>): (r: Result<T, AdapterError>)
    ensures r.Ok? <==> exchange(request).Ok? && decode(exchange(request).value).Ok?
    ensures r.Ok? ==> decode(exchange(request).value) == Ok(r.value)
    ensures exchange(request).Err? ==> r.Err? && r.error == Transport(exchange(request).error)
    ensures r.Err? && r.error.Decoding? ==> exchange(request).Ok? && decode(exchange(request).value) == Err(r.error.error)
  {
    match exchange(request)
    case Err(e) => Err(Transport(e))
    case Ok(body) =>
      match decode(body)
      case Err(e) => Err(Decoding(e))
      case Ok(v) => Ok(v)
  }
}
