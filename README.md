# MyEnhancer, modelled in Dafny

MyEnhancer is a small macOS window that rewrites the text the user types.
Proofread, Shorten and Translate put an instruction template in front of the
text and send it to a chat-completion service. The reply replaces the output.
A settings window holds the provider, the model, the API keys, the Ollama
server, and a SOCKS proxy. These settings live in the app's key-value store.

The model covers:

- the provider adapters:
  - OpenAI and Grok, which send the shared chat-completions request and
    decode the shared response;
  - DeepSeek, which has the same chat shape and also a model listing;
  - Gemini, with the key in the query string and its own response tree;
  - Ollama, a local server reached by host and port;
- the proxy configuration of their URL sessions;
- the model catalog, with its fallback table, single refresh and refresh of
  all providers;
- the main window's validation, dispatch and error messages;
- the instruction templates;
- the settings window's working copy, key field, model reconciliation and
  save.

The network is a parameter. An `Http.Exchange` maps the request an adapter
builds to the JSON body that came back, or to the text of the error that
stopped it. Every adapter is a pure function of its request and that answer.
Decoding of the response structs is modelled field by field, including the
errors a missing or mistyped required field raises.

The main window reaches only OpenAI and Grok. For `"OpenAI"` it uses the
OpenAI key. For any other provider, DeepSeek, Gemini and Ollama included, it
sends the Grok request with the Grok key. The model keeps this behaviour as
written (`ContentView.OtherProvidersNeedGrokKey`,
`ContentView.OtherProvidersSendGrokRequest`).

The main window's methods take the adapter call as a parameter `complete`. The window supplies `ContentView.Adapters(d, exchange)`, which sends OpenAI's request for `"OpenAI"` and Grok's for every other provider.

Modules: `Wrappers`, `Text`, `Sorting`, `Json`, `Defaults`, `NetworkConfig`,
`Http`, `ChatApi`, `OpenAI`, `Grok`, `DeepSeek`, `Gemini`, `Ollama`,
`Prompts`/`PromptFacts`, `ModelCatalog`, `ContentView`, `SettingsView`.

## Model

| member | source | states |
|---|---|---|
| Text.TrimStart | MyEnhancer/Providers/OpenAI.swift:29 | the result is a suffix of the input that does not start with whitespace, and everything dropped is whitespace |
| Text.TrimEnd | MyEnhancer/Providers/OpenAI.swift:29 | the result is a prefix of the input that does not end with whitespace, and everything dropped is whitespace |
| Text.Trim | MyEnhancer/Providers/OpenAI.swift:29 | the result is the input with its leading and trailing whitespace dropped, neither end of it is whitespace, and it is empty exactly when the input is all whitespace |
| Text.TrimIgnoresSurroundingWhitespace | MyEnhancer/Providers/OpenAI.swift:29 | whitespace around a key does not change the trimmed key that goes into the Authorization header |
| Text.TrimIdempotent | MyEnhancer/Providers/OpenAI.swift:29 | trimming a trimmed key changes nothing |
| Text.TrimStartAfterWhitespace | MyEnhancer/Providers/DeepSeek.swift:29 | leading whitespace is dropped entirely |
| Text.TrimEndBeforeWhitespace | MyEnhancer/Providers/DeepSeek.swift:29 | trailing whitespace is dropped entirely |
| Text.TrimStartKeepsTail | MyEnhancer/Providers/DeepSeek.swift:68 | trimming the front of a string that is not all whitespace keeps everything after it |
| Text.TrimStartOfWhitespace | MyEnhancer/Providers/Grok.swift:27 | a key made only of whitespace trims to nothing |
| Text.EndsWithConcat | MyEnhancer/Prompts.swift:5 | a concatenation ends with its last part |
| Text.ContainsStep | MyEnhancer/Providers/Gemini.swift:77 | an occurrence in a non-empty string is at its start or in its tail |
| Text.ContainsInSuffix | MyEnhancer/Providers/Gemini.swift:77 | an occurrence in a suffix is an occurrence in the whole string |
| Text.MissingCharNotContained | MyEnhancer/Providers/Gemini.swift:77 | a string lacking one of the target's characters does not contain the target |
| Text.CountOccurrences | MyEnhancer/Prompts.swift:13 | the count is zero exactly when the target does not occur |
| Text.CountAfterFreePrefix | MyEnhancer/Prompts.swift:13 | a prefix without the target's first character adds no occurrence |
| Text.CountSingleToken | MyEnhancer/Prompts.swift:13 | a token whose first character occurs nowhere else occurs exactly once |
| Text.ReplaceAll | MyEnhancer/ContentView.swift:192-193 | replacing a target by itself changes nothing, and a replacement no longer than the target never lengthens the text |
| Text.ReplaceAllAbsent | MyEnhancer/Providers/Gemini.swift:78 | replacing a target that does not occur leaves the string unchanged |
| Text.ReplaceAllWithoutFirstChar | MyEnhancer/ContentView.swift:193 | a prefix without the target's first character is kept as it is |
| Text.ReplaceSingleToken | MyEnhancer/ContentView.swift:192-193 | replacing a token that occurs once puts the replacement exactly where the token was |
| Text.ReplaceAllKeepsFreePrefix | MyEnhancer/Providers/Gemini.swift:78 | the first occurrence is replaced, the text before it is kept, and the scan goes on after it |
| Sorting.LexLeReflexive | MyEnhancer/Providers/DeepSeek.swift:73 | the string order used by `sorted()` is reflexive |
| Sorting.LexLeTotal | MyEnhancer/Providers/DeepSeek.swift:73 | any two strings are ordered one way or the other |
| Sorting.LexLeAntisymmetric | MyEnhancer/Providers/DeepSeek.swift:73 | strings ordered both ways are equal |
| Sorting.LexLeTransitive | MyEnhancer/Providers/DeepSeek.swift:73 | the order is transitive |
| Sorting.BelowSameElements | MyEnhancer/Providers/DeepSeek.swift:73 | a lower bound of a list bounds the same list with one more larger element |
| Sorting.SortedCons | MyEnhancer/Providers/DeepSeek.swift:73 | a lower bound put in front of a sorted list keeps it sorted |
| Sorting.Insert | MyEnhancer/Providers/DeepSeek.swift:73 | inserting into a sorted list gives a sorted list with one more copy of the element |
| Sorting.Sort | MyEnhancer/Providers/DeepSeek.swift:73 | `sorted()`: the result is sorted and a permutation of the input |
| Sorting.SortedPermutationsSameHead | MyEnhancer/Providers/Ollama.swift:77 | two sorted permutations of each other start with the same element |
| Sorting.MultisetOfTail | MyEnhancer/Providers/Ollama.swift:77 | the tail holds all elements but one copy of the head |
| Sorting.SortedPermutationsEqual | MyEnhancer/Providers/Ollama.swift:77 | two sorted permutations of each other are equal, so a sorted permutation is unique |
| Sorting.SortIgnoresOrder | MyEnhancer/Providers/Gemini.swift:79 | the order in which a service lists its models does not change the list the app shows |
| Json.Lookup | MyEnhancer/Providers/OpenAI.swift:31-37 | a key is found exactly when some member has it, and the value found is that member's value |
| Json.LookupAt | MyEnhancer/Providers/OpenAI.swift:31-37 | the first member with the key is the one found |
| Json.CountStringSingleMember | MyEnhancer/Providers/Gemini.swift:29-41 | a one-member object counts the strings of its value |
| Json.CountStringSingleItem | MyEnhancer/Providers/Gemini.swift:29-41 | a one-element array counts the strings of its element |
| Json.AsObject | MyEnhancer/Providers/OpenAI.swift:59 | decoding a struct succeeds only on an object |
| Json.Required | MyEnhancer/Providers/OpenAI.swift:66-76 | a non-optional field decodes exactly when it is present and not null |
| Json.RequiredString | MyEnhancer/Providers/OpenAI.swift:73-75 | a `String` field decodes exactly when it holds a string, and gives that string |
| Json.RequiredBool | MyEnhancer/Providers/Ollama.swift:83 | a `Bool` field decodes exactly when it holds a boolean, and gives that boolean |
| Json.RequiredArray | MyEnhancer/Providers/OpenAI.swift:67 | an array field decodes exactly when it holds an array, and gives its items |
| Json.OptionalString | MyEnhancer/Providers/Gemini.swift:98-100 | a `String?` field is nil when absent or null, the string when it holds one, and fails otherwise |
| Json.DecodeEach | MyEnhancer/Providers/OpenAI.swift:67 | an array decodes exactly when every element does, into the elements' values in order |
| Defaults.StringFor | MyEnhancer/ContentView.swift:52-53 | `string(forKey:)` gives the stored text, and nil when nothing or a flag is stored |
| Defaults.BoolFor | MyEnhancer/Providers/NetworkConfig.swift:8 | `bool(forKey:)` is true exactly when the flag `true` is stored |
| Defaults.StringOr | MyEnhancer/ModelManager.swift:76 | `string(forKey:) ?? default`: the stored text when the key holds text, and the default when it holds nothing or a flag |
| NetworkConfig.ParseInt | MyEnhancer/Providers/NetworkConfig.swift:11 | `Int(portString)` succeeds exactly on a non-empty run of ASCII digits, optionally after one sign, whose value fits in 64 bits; the value is the digits' decimal value, negated after '-' |
| NetworkConfig.Decimal | MyEnhancer/Providers/NetworkConfig.swift:11 | a number's decimal text is a non-empty run of digits |
| NetworkConfig.DecimalValue | MyEnhancer/Providers/NetworkConfig.swift:11 | reading a number's decimal text gives the number back |
| NetworkConfig.ParseDecimal | MyEnhancer/Providers/NetworkConfig.swift:11 | `Int` reads back any 64-bit number written in decimal, negative ones included |
| NetworkConfig.ParseRejectsSpaces | MyEnhancer/Providers/NetworkConfig.swift:11 | a port with a leading or trailing space is not a number |
| NetworkConfig.ParseAcceptsSignAndZeros | MyEnhancer/Providers/NetworkConfig.swift:11 | a port written with a plus sign or leading zeros is still a number, and so is a negative one |
| NetworkConfig.ConfiguredSession | MyEnhancer/Providers/NetworkConfig.swift:4-23 | no proxy unless the switch is on, the host is non-empty and the port parses; a proxy carries the stored host and parsed port |
| NetworkConfig.ProxyWhenComplete | MyEnhancer/Providers/NetworkConfig.swift:8-20 | with the switch on, a non-empty host, and any port text `Int` accepts, the session goes through a SOCKS proxy with that host and the parsed port |
| Http.BearerAuthorization | MyEnhancer/Providers/OpenAI.swift:29 | the header is named Authorization; its value is "Bearer " followed by a token with no surrounding whitespace, which is the key once whitespace is dropped from both ends |
| Http.JsonBearerHeaders | MyEnhancer/Providers/OpenAI.swift:28-29 | each of the two headers is found under its own name |
| Http.Send | MyEnhancer/Providers/OpenAI.swift:48-59 | the call succeeds exactly when the exchange answers and the body decodes, with the decoded value; a failed exchange throws its transport error; a decoding error comes from a body that failed to decode |
| ChatApi.UserMessages | MyEnhancer/Providers/OpenAI.swift:33-35 | an array of exactly one message whose role is "user" and whose content is the prompt |
| ChatApi.DecodeMessage | MyEnhancer/Providers/OpenAI.swift:73-75 | a message decodes exactly when `content` holds a string, and yields that string |
| ChatApi.DecodeChoice | MyEnhancer/Providers/OpenAI.swift:69-71 | a choice decodes exactly when `message` is present and decodes, and yields that message |
| ChatApi.DecodeResponse | MyEnhancer/Providers/OpenAI.swift:66-67 | a response decodes exactly when `choices` is an array whose every element decodes as a choice, and yields those choices in order |
| ChatApi.FirstChoiceIsReply | MyEnhancer/Providers/OpenAI.swift:59-61 | any body whose choices all decode and whose first choice's message holds a text decodes and yields that text, whatever other members the body, choices and message carry |
| ChatApi.NoChoiceIsEmptyText | MyEnhancer/Providers/OpenAI.swift:61 | any body whose `choices` is an empty array decodes and yields "" |
| ChatApi.BodyWithoutChoicesFails | MyEnhancer/Providers/OpenAI.swift:59 | an error document without `choices` fails to decode, because the status code is never looked at |
| OpenAI.New | MyEnhancer/Providers/OpenAI.swift:8-11 | an instance keeps its key and the session configured at that moment |
| OpenAI.ChatRequest | MyEnhancer/Providers/OpenAI.swift:22-45 | a POST to the fixed endpoint through the instance's session, with the JSON content type, the trimmed bearer key, the model, one user message with the prompt, and a temperature |
| OpenAI.Complete | MyEnhancer/Providers/OpenAI.swift:48-61 | a failed exchange throws its transport error; a reply is returned exactly when the body decodes as a chat response, and it is the first choice's content, or "" when there is none |
| OpenAI.CompleteReturnsFirstChoice | MyEnhancer/Providers/OpenAI.swift:48-61 | any reply whose choices decode and whose first choice holds a text completes with that text, whatever else it carries |
| OpenAI.NoChoiceIsEmptyReply | MyEnhancer/Providers/OpenAI.swift:61 | any reply whose `choices` is empty completes with "" |
| Grok.ChatRequest | MyEnhancer/Providers/Grok.swift:20-42 | a POST to the x.ai endpoint with no proxy whatever the settings, the JSON content type and the trimmed bearer key; the body has exactly the model and one user message, no temperature |
| Grok.Complete | MyEnhancer/Providers/Grok.swift:44-57 | a failed exchange throws its transport error; a reply is returned exactly when the body decodes as a chat response, and it is the first choice's content, or "" when there is none |
| Grok.CompleteReturnsFirstChoice | MyEnhancer/Providers/Grok.swift:44-57 | any reply whose choices decode and whose first choice holds a text completes with that text, whatever else it carries |
| Grok.NoChoiceIsEmptyReply | MyEnhancer/Providers/Grok.swift:57 | any reply whose `choices` is empty completes with "" |
| DeepSeek.New | MyEnhancer/Providers/DeepSeek.swift:9-12 | an instance keeps its key and the configured session |
| DeepSeek.ChatRequest | MyEnhancer/Providers/DeepSeek.swift:22-44 | a POST to DeepSeek's chat endpoint through the instance's session, with the JSON content type, the trimmed bearer key, the model, one user message with the prompt, and a temperature |
| DeepSeek.Complete | MyEnhancer/Providers/DeepSeek.swift:46-58 | a failed exchange throws its transport error; a reply is returned exactly when the body decodes as a chat response, and it is the first choice's content, or "" when there is none |
| DeepSeek.ModelsRequest | MyEnhancer/Providers/DeepSeek.swift:62-70 | a GET to `/v1/models` through the instance's session, with only the trimmed bearer key as header and no body |
| DeepSeek.DecodeModel | MyEnhancer/Providers/DeepSeek.swift:92-97 | an entry decodes exactly when `id` and `object` hold strings, and yields that id |
| DeepSeek.DecodeModels | MyEnhancer/Providers/DeepSeek.swift:89-90 | a listing decodes exactly when `data` is an array whose every entry decodes, and yields those entries in order |
| DeepSeek.SameAuthorization | MyEnhancer/Providers/DeepSeek.swift:29 | the chat and listing requests carry the same Authorization header, the trimmed key |
| DeepSeek.ModelList | MyEnhancer/Providers/DeepSeek.swift:73 | the list is sorted and a permutation of the ids |
| DeepSeek.EntryWithoutObjectFails | MyEnhancer/Providers/DeepSeek.swift:92-94 | a model entry without `object` makes the whole listing fail |
| DeepSeek.CompleteReturnsFirstChoice | MyEnhancer/Providers/DeepSeek.swift:46-58 | any reply whose choices decode and whose first choice holds a text completes with that text, whatever else it carries |
| DeepSeek.NoChoiceIsEmptyReply | MyEnhancer/Providers/DeepSeek.swift:58 | any reply whose `choices` is empty completes with "" |
| DeepSeek.FetchAvailableModels | MyEnhancer/Providers/DeepSeek.swift:61-74 | a listing succeeds exactly when the exchange answers and the body decodes; it is then sorted, as long as the service's list, and a permutation of its ids; a failed exchange throws its transport error |
| Gemini.New | MyEnhancer/Providers/Gemini.swift:8-11 | an instance keeps its key and the configured session |
| Gemini.ChatRequest | MyEnhancer/Providers/Gemini.swift:21-48 | a POST to the model's `generateContent` URL with the untrimmed key in the query string; the JSON content type is the only header, so the key travels in no header; one content with one part holding the prompt, temperature 0.7 and 2048 output tokens |
| Gemini.KeepGemini | MyEnhancer/Providers/Gemini.swift:77 | exactly the names containing "gemini" are kept, each as often as listed |
| Gemini.ModelList | MyEnhancer/Providers/Gemini.swift:76-79 | the list is sorted and a permutation of the stripped gemini names |
| Gemini.PromptOccursOnce | MyEnhancer/Providers/Gemini.swift:29-41 | the prompt is the body's one text part |
| Gemini.DecodePart | MyEnhancer/Providers/Gemini.swift:98-100 | a part decodes exactly when it is an object whose `text` is absent, null or a string; it has a text exactly when `text` holds a string |
| Gemini.DecodeContent | MyEnhancer/Providers/Gemini.swift:93-96 | a content decodes exactly when `parts` is an array whose every part decodes, and yields those parts in order |
| Gemini.DecodeCandidate | MyEnhancer/Providers/Gemini.swift:86-91 | a candidate decodes exactly when `content` is present and decodes, and yields that content |
| Gemini.DecodeResponse | MyEnhancer/Providers/Gemini.swift:83-84 | a response decodes exactly when `candidates` is an array of candidates that decode, and yields them in order |
| Gemini.Complete | MyEnhancer/Providers/Gemini.swift:50-62 | a failed exchange throws its transport error; a reply is returned exactly when the body decodes as a response, and it is the text of the first candidate's first part, or "" when there is no candidate, no part or no text |
| Gemini.ModelsRequest | MyEnhancer/Providers/Gemini.swift:66-73 | a GET to the models URL with the untrimmed key in the query string, through the instance's session, with no header and no body |
| Gemini.DecodeModel | MyEnhancer/Providers/Gemini.swift:111-112 | an entry decodes exactly when `name` holds a string, and yields that name |
| Gemini.DecodeModels | MyEnhancer/Providers/Gemini.swift:108-109 | a listing decodes exactly when `models` is an array whose every entry decodes, and yields them in order |
| Gemini.FetchAvailableModels | MyEnhancer/Providers/Gemini.swift:65-80 | a listing succeeds exactly when the exchange answers and the body decodes; it is then sorted and a permutation of the names containing "gemini" with "models/" removed; a failed exchange throws its transport error |
| Gemini.FirstPartIsReply | MyEnhancer/Providers/Gemini.swift:60-62 | any body whose candidates decode and that has a first part decodes; its reply is that part's text, or "" when the part has none, whatever other members it carries |
| Gemini.CompleteReturnsFirstPart | MyEnhancer/Providers/Gemini.swift:50-62 | any reply whose first candidate's first part holds a text completes with that text |
| Gemini.PartWithoutTextIsEmptyReply | MyEnhancer/Providers/Gemini.swift:62 | any reply whose first part's `text` is absent or null completes with "" |
| Gemini.NoCandidateIsEmptyReply | MyEnhancer/Providers/Gemini.swift:62 | any reply whose `candidates` is empty completes with "" |
| Gemini.StripLeadingPath | MyEnhancer/Providers/Gemini.swift:78 | "models/" in front of a plain id is removed |
| Gemini.StripInnerPath | MyEnhancer/Providers/Gemini.swift:78 | every occurrence is removed, not only a leading one |
| Gemini.StripWithoutPath | MyEnhancer/Providers/Gemini.swift:78 | a name without "models/" is kept as it is |
| Gemini.ListsGeminiModel | MyEnhancer/Providers/Gemini.swift:76-79 | a listed "models/<id>" whose id contains "gemini" appears in the list as the bare id |
| Gemini.DropsOtherModels | MyEnhancer/Providers/Gemini.swift:77 | the list has one entry per kept name, and no more entries than were listed |
| Ollama.New | MyEnhancer/Providers/Ollama.swift:9-14 | an instance keeps its key, host and port and the configured session |
| Ollama.DefaultServer | MyEnhancer/Providers/Ollama.swift:9 | by default there is no key and the server is port 11434 of localhost |
| Ollama.ChatRequest | MyEnhancer/Providers/Ollama.swift:28-49 | a POST to `http://<host>:<port>/api/chat` through the instance's session, with the JSON content type and no Authorization; the body has the model, one user message with the prompt, and `stream` false |
| Ollama.DecodeReply | MyEnhancer/Providers/Ollama.swift:81-94 | a reply decodes exactly when `message` holds string `role` and `content` and `done` is a boolean, and yields that content |
| Ollama.Complete | MyEnhancer/Providers/Ollama.swift:51-63 | a failed exchange throws its transport error; otherwise the call succeeds exactly when the reply decodes, and returns its message's content |
| Ollama.ModelsRequest | MyEnhancer/Providers/Ollama.swift:66-74 | a GET to `/api/tags` on the same server through the instance's session, with no header and no body |
| Ollama.DecodeModel | MyEnhancer/Providers/Ollama.swift:100-101 | an entry decodes exactly when `name` holds a string, and yields that name |
| Ollama.DecodeModels | MyEnhancer/Providers/Ollama.swift:97-98 | a listing decodes exactly when `models` is an array whose every entry decodes, and yields them in order |
| Ollama.KeyIsNeverSent | MyEnhancer/Providers/Ollama.swift:4 | the key an instance holds never changes a request |
| Ollama.CompleteReturnsContent | MyEnhancer/Providers/Ollama.swift:61-63 | any reply that decodes completes with its message's content, whatever other members it carries |
| Ollama.ReplyWithoutDoneFails | MyEnhancer/Providers/Ollama.swift:81-83 | a reply without `done` fails to decode |
| Ollama.ModelList | MyEnhancer/Providers/Ollama.swift:77 | the list is sorted and a permutation of the names |
| Ollama.FetchAvailableModels | MyEnhancer/Providers/Ollama.swift:66-78 | a listing succeeds exactly when the exchange answers and the body decodes; it is then sorted, as long as the server's list, and a permutation of its names; a failed exchange throws its transport error |
| PromptFacts.ProofreadTaskLacksBrace | MyEnhancer/Prompts.swift:5 | this sentence of PROOFREAD has no brace |
| PromptFacts.ProofreadLimitsLacksBrace | MyEnhancer/Prompts.swift:5 | this sentence of PROOFREAD has no brace |
| PromptFacts.ProofreadOutputLacksBrace | MyEnhancer/Prompts.swift:5 | this sentence of PROOFREAD has no brace |
| PromptFacts.ShortenTaskLacksBrace | MyEnhancer/Prompts.swift:9 | this sentence of SHORTEN has no brace |
| PromptFacts.ShortenStyleLacksBrace | MyEnhancer/Prompts.swift:9 | this sentence of SHORTEN has no brace |
| PromptFacts.ShortenOutputLacksBrace | MyEnhancer/Prompts.swift:9 | this sentence of SHORTEN has no brace |
| PromptFacts.TranslateHeadLacksBrace | MyEnhancer/Prompts.swift:13 | the text before the placeholder has no brace |
| PromptFacts.TranslateTailLacksBrace | MyEnhancer/Prompts.swift:13 | the text after the placeholder has no brace |
| PromptFacts.PersonalityHeadLacksBrace | MyEnhancer/Prompts.swift:17 | the text before the placeholder has no brace |
| PromptFacts.PersonalityRuleLacksBrace | MyEnhancer/Prompts.swift:17 | the rule after the placeholder has no brace |
| PromptFacts.PersonalityTaskLacksBrace | MyEnhancer/Prompts.swift:17 | the task sentence has no brace |
| PromptFacts.TranslateHasOneLanguageToken | MyEnhancer/Prompts.swift:12-14 | `{TARGET_LANGUAGE}` occurs in TRANSLATE exactly once |
| PromptFacts.PersonalityHasOneCharacterToken | MyEnhancer/Prompts.swift:16-18 | `{TARGET_CHARACTER}` occurs in PERSONALITY exactly once |
| PromptFacts.NoPlaceholderInProofreadOrShorten | MyEnhancer/Prompts.swift:4-10 | PROOFREAD and SHORTEN hold no brace, so neither placeholder |
| PromptFacts.ProofreadEndsWithBlankLine | MyEnhancer/Prompts.swift:5 | PROOFREAD ends with a blank line |
| PromptFacts.ShortenEndsWithBlankLine | MyEnhancer/Prompts.swift:9 | SHORTEN ends with a blank line |
| PromptFacts.TranslateEndsWithBlankLine | MyEnhancer/Prompts.swift:13 | TRANSLATE ends with a blank line |
| PromptFacts.PersonalityEndsWithThreeBlankLines | MyEnhancer/Prompts.swift:17 | PERSONALITY ends with three blank lines |
| ModelCatalog.FallbackCoversProviders | MyEnhancer/ModelManager.swift:12-18 | the table names the five providers with 8, 3, 2, 3 and 5 models |
| ModelCatalog.ModelError.Description | MyEnhancer/ModelManager.swift:123-132 | each message ends with its provider or detail; it starts with "No " exactly for a missing key and with "Network " exactly for a network error |
| ModelCatalog.FetchModelsForProvider | MyEnhancer/ModelManager.swift:73-111 | a keyed provider without a stored key throws `noApiKey`; with one, OpenAI, DeepSeek and Gemini each ask their own listing with their own stored key; Ollama asks the stored host and port, by default localhost:11434; X and unknown providers get their fallback list |
| ModelCatalog.FailFastIgnoresNetwork | MyEnhancer/ModelManager.swift:76-78 | those outcomes do not depend on the network |
| ModelCatalog.OllamaAsksStoredServer | MyEnhancer/ModelManager.swift:99-103 | Ollama needs no key and, with nothing stored, asks localhost:11434; its transport error is thrown |
| ModelCatalog.ModelsForKnownAndUnknown | MyEnhancer/ModelManager.swift:113-115 | under the catalog invariant, X offers its fallback list, an unknown provider nothing, and a known one its entry |
| ModelCatalog.Refreshed | MyEnhancer/ModelManager.swift:31-39 | a success replaces only the provider's entry; a failure leaves the catalog unchanged |
| ModelCatalog.FetchAllKeepsTable | MyEnhancer/ModelManager.swift:105-109 | a fetch for X yields X's fallback list, and one for a provider outside the table yields no model |
| ModelCatalog.RefreshKeepsInvariant | MyEnhancer/ModelManager.swift:24-43 | a refresh keeps the catalog invariant |
| ModelCatalog.ApplyFetchesAt | MyEnhancer/ModelManager.swift:53-66 | after the task group, each answered provider holds its answer and every other entry is as before |
| ModelCatalog.ApplyFetchesOrderIrrelevant | MyEnhancer/ModelManager.swift:53-66 | the catalog does not depend on the order in which the concurrent fetches complete |
| ModelCatalog.RefreshAllLeavesX | MyEnhancer/ModelManager.swift:51 | refreshing all providers never touches X |
| ModelCatalog.ApplyFetchesKeepsInvariant | MyEnhancer/ModelManager.swift:45-71 | refreshing all providers keeps the catalog invariant |
| ModelCatalog.FailureMessage | MyEnhancer/ModelManager.swift:38 | the message starts with "Failed to fetch " and the provider, and ends with the error's description |
| ModelCatalog.ModelManager.constructor | MyEnhancer/ModelManager.swift:20-22 | the catalog starts as the fallback table, not loading, without error |
| ModelCatalog.ModelManager.GetModels | MyEnhancer/ModelManager.swift:113-115 | under the catalog invariant, a provider in the table gets its current entry, and any other provider an empty list |
| ModelCatalog.ModelManager.RefreshModels | MyEnhancer/ModelManager.swift:24-43 | the catalog after one fetch; no error after a success, "Failed to fetch … models: …" after a failure; loading has ended |
| ModelCatalog.ModelManager.RefreshAllModels | MyEnhancer/ModelManager.swift:45-71 | the catalog after the four fetches; no error recorded, even when a fetch failed; loading has ended |
| ModelCatalog.ModelManager.ApplyEach | MyEnhancer/ModelManager.swift:53-66 | the task group writes each success to its own entry |
| ContentView.CurrentSettings | MyEnhancer/ContentView.swift:50-62 | nothing unless a provider and a model are stored; the OpenAI key for "OpenAI" and the Grok key for every other provider |
| ContentView.Validate | MyEnhancer/ContentView.swift:65-83 | each of the three errors, in order, exactly when its check is the first to fail; otherwise the stored settings |
| ContentView.AIError.Description | MyEnhancer/ContentView.swift:17-28 | an API error reads "API Error: " and its message; every other error starts with "Please " |
| ContentView.ErrorMessagesDistinct | MyEnhancer/ContentView.swift:17-28 | different errors show different messages |
| ContentView.OpenAISendsOpenAIRequest | MyEnhancer/ContentView.swift:89-91 | for a valid request with "OpenAI" selected, the key is the stored OpenAI key and the outcome is OpenAI's reply to the stored model and the prompt, or its error thrown as unexpected |
| ContentView.TranslatePromptShape | MyEnhancer/ContentView.swift:192-194 | the Translate template with the language substituted is TRANSLATE's text before the placeholder, the language, and the text after it |
| ContentView.InvalidSendsNothing | MyEnhancer/ContentView.swift:80 | a request that fails its checks gives the same failure whatever adapter or network answers |
| ContentView.ErrorText | MyEnhancer/ContentView.swift:101-110 | an adapter's error shows "Unexpected error: " and its description; a failed check shows its own message |
| ContentView.PromptFor | MyEnhancer/ContentView.swift:146-194 | Proofread sends PROOFREAD followed by the input, Shorten SHORTEN followed by the input, and Translate TRANSLATE with the language in place of the placeholder followed by the input; every prompt ends with the unaltered input after a blank line |
| ContentView.TemplateEndsWithBlankLine | MyEnhancer/Prompts.swift:4-14 | PROOFREAD, SHORTEN and the substituted TRANSLATE all end with a blank line |
| ContentView.OtherProvidersNeedGrokKey | MyEnhancer/ContentView.swift:57-59 | with any provider but "OpenAI" selected and no Grok key stored, the request fails for want of a key |
| ContentView.OtherProvidersSendGrokRequest | MyEnhancer/ContentView.swift:92-95 | for a valid request with any provider but "OpenAI", the key is the stored Grok key and the outcome is Grok's reply to the stored model and the prompt, or its error thrown as unexpected |
| ContentView.BlankKeyPasses | MyEnhancer/ContentView.swift:69 | only emptiness is checked: a key of blanks passes, and is sent trimmed to "Bearer " |
| ContentView.ContentState.constructor | MyEnhancer/ContentView.swift:32-37 | empty input and output, English, "1920s Gangster", not processing, no error |
| ContentView.ContentState.ProcessAIRequest | MyEnhancer/ContentView.swift:78-116 | a reply replaces the output and clears the error; a failed check keeps the output and shows its message; an adapter's error shows "Unexpected error: " and its text; input, language and personality are unchanged; processing has ended |
| ContentView.ContentState.Press | MyEnhancer/ContentView.swift:144-197 | As Personality changes nothing; Proofread, Shorten and Translate send the prompt `PromptFor` gives for the current input and language, keeping input, language and personality |
| SettingsView.Saved | MyEnhancer/SettingsView.swift:180-191 | Save writes exactly the twelve settings keys and keeps every other stored entry |
| SettingsView.LoadAfterSave | MyEnhancer/SettingsView.swift:36-49 | reopening the window after Save shows exactly what was saved |
| SettingsView.SelectionAfterSave | MyEnhancer/SettingsView.swift:180-181 | the saved provider and model are read back |
| SettingsView.KeysAfterSave | MyEnhancer/SettingsView.swift:182-185 | the four saved keys are read back |
| SettingsView.OthersAfterSave | MyEnhancer/SettingsView.swift:186-191 | the saved server, switches and proxy are read back |
| SettingsView.LoadDefaults | MyEnhancer/SettingsView.swift:36-49 | on a fresh store: OpenAI, gpt-4-turbo, no keys, localhost:11434, switches off, no proxy |
| SettingsView.KeyOf | MyEnhancer/SettingsView.swift:54-62 | the key field shows the OpenAI key for OpenAI, the Grok key for X, the DeepSeek key for DeepSeek, the Gemini key for Gemini, and is empty for Ollama and unknown providers |
| SettingsView.WithKey | MyEnhancer/SettingsView.swift:63-71 | writing the key field of a provider that has one reads back the new value; for others nothing changes; only the four key fields can change, so provider, model, server, switches and proxy are kept |
| SettingsView.KeySetAfterGet | MyEnhancer/SettingsView.swift:52-73 | writing back the key just read changes nothing |
| SettingsView.KeySetTouchesOneKey | MyEnhancer/SettingsView.swift:63-70 | setting the key changes no other provider's key |
| SettingsView.ReconciledIsOffered | MyEnhancer/SettingsView.swift:113-119 | after reconciling, the model is one the catalog offers, unless it offers none; only the model changes; an offered model is kept |
| SettingsView.ReconcileIdempotent | MyEnhancer/SettingsView.swift:200-206 | reconciling twice is reconciling once |
| SettingsView.ProviderChangeNeedsNoReconcile | MyEnhancer/SettingsView.swift:98-119 | after a provider change the model is offered, so reconciling changes nothing |
| SettingsView.SavedProxyConfiguresSession | MyEnhancer/SettingsView.swift:189-191 | after Save, sessions use a proxy exactly when the switch was on, the host non-empty and the port text a number `Int` accepts; the proxy is that host and parsed port |
| SettingsView.SavedSelectionReachesMainWindow | MyEnhancer/SettingsView.swift:180-183 | after Save the main window uses the saved provider, model, and OpenAI or Grok key |
| SettingsView.SavedKeysReachCatalog | MyEnhancer/SettingsView.swift:182-187 | after Save the catalog uses the saved keys and Ollama server |
| SettingsView.SettingsEditor.constructor | MyEnhancer/SettingsView.swift:18-49 | the working copy is loaded from the store; the window's own catalog holds the fallback table |
| SettingsView.SettingsEditor.SetCurrentApiKey | MyEnhancer/SettingsView.swift:63-70 | the working copy after the key setter |
| SettingsView.SettingsEditor.SelectProvider | MyEnhancer/SettingsView.swift:93-104 | picking the provider already selected changes nothing; picking another sets it and moves the model to the new provider's first offered model, if any |
| SettingsView.SettingsEditor.Reconcile | MyEnhancer/SettingsView.swift:200-206 | the working copy after reconciling with the catalog |
| SettingsView.SettingsEditor.Refresh | MyEnhancer/SettingsView.swift:113-124 | the catalog refreshes the selected provider; its error is "Failed to fetch …" exactly when the fetch failed; loading has ended; the model is reconciled only when the catalog changed |
| SettingsView.SettingsEditor.Save | MyEnhancer/SettingsView.swift:178-193 | the store with the working copy written back, which loads back as the working copy |

## Left out

- Logging: the adapters' and the window's `print` calls write only to the console.
- Rendering: layout, the picker lists of languages and personalities, the window-on-top switch's effect, and `dismiss()` are user interface only. Cancel only dismisses the window, so it is not modelled.
- Concurrency: each `async` call and each `MainActor.run` block is a single step. The task group of `refreshAllModels` runs its fetches one after another, and `ModelCatalog.ApplyFetchesOrderIrrelevant` shows the result is the same in any order. Every fetch is assumed to see the same store and the same network answers.
- OpenAI.fetchAvailableModels: the catalog calls this method but OpenAI.swift does not define it. Its result is the `openAIModels` parameter of `ModelCatalog.Network`.
- The transport: the `Exchange` parameter stands for everything between building a request and holding its JSON body. That covers `URL(string:)` rejecting a URL (such as a Gemini model name with spaces), network errors, HTTP status codes, and bodies that are not JSON. Its error text stands for Foundation's `localizedDescription`.
- Http.Request: a session is modelled only by its proxy. The request body is the JSON value, not its serialized bytes, so member order and number formatting on the wire are not modelled.
- Json.Value: `0.7` is written as `JNumber(7, -1)`. Floating point is not modelled.
- Decoding of optional struct fields the app never reads (Gemini's `finishReason`, `index`, `safetyRatings` and the content's `role`; Ollama's durations, counts and model details; DeepSeek's `created` and `owned_by`; the `version`, `displayName`, `description`, token limits, `supportedGenerationMethods`, `temperature`, `topP` and `topK` of Gemini's model entries) is not modelled. The source fails to decode a body where such a field is present with the wrong type; the model accepts it.
- Defaults.BoolFor: only a stored `true` flag reads as true. Swift's `bool(forKey:)` also reads the strings "YES" and "true" and non-zero numbers as true; the app itself only writes flags under these keys.
- Defaults.StringFor: the store holds text and flags only. The number-to-string conversion `string(forKey:)` performs on a stored number is not modelled. Foundation stores a flag as a number, so `string(forKey:)` on a key holding a flag gives "1" or "0"; the model gives nil.
- NetworkConfig.ParseInt: Swift's `Int(_:)` is modelled for ASCII decimal digits with an optional sign. That is the whole of what it accepts.
- The As Personality button: its action is empty in the source, so `ContentView.Button.AsPersonality` sends nothing and changes nothing. The PERSONALITY template's `{TARGET_CHARACTER}` is never filled in by the app, and no prompt is built from it.
- String comparison: strings are compared and searched code point by code point. `Sorting.LexLe` stands for Swift's `<` on `String`, and `Text.Contains` and `Text.ReplaceAll` for Foundation's `contains` and `replacingOccurrences`, which treat canonically equivalent text as equal; the model does not.
- The `disabled(isProcessing)` and `disabled(isLoading)` guards: requests are single steps, so `isProcessing` and `isLoading` are always false between steps.
- ContentView.Validate: the second `getCurrentSettings()` in `processAIRequest` reads the same store as the first, so its failure branch cannot be taken and is not modelled.
- ModelCatalog.ModelError: `networkError` and `apiError` are never raised by the source; they are modelled with their messages only.
