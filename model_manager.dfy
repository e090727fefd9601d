/** The model catalog (`ModelManager`): per provider, the model names the
    settings screen offers, seeded from a fixed table and refreshed from the
    providers' listing endpoints. */
module ModelCatalog {
  import opened Wrappers
  import Http
  import Text
  import Defaults
  import OpenAI
  import DeepSeek
  import Gemini
  import Ollama

  /** `ModelError`, thrown by the catalog itself. */
  datatype ModelError = NoApiKey(provider: string) | NetworkError(message: string) | ApiError(message: string) {
    /** `errorDescription`: the message names the provider without a key,
      or ends with the underlying message; the three kinds start
      differently. */
    function Description(): (r: string)
      ensures NoApiKey? ==> Text.EndsWith(r, provider)
      ensures !NoApiKey? ==> Text.EndsWith(r, message)
      ensures NoApiKey? <==> |r| >= 3 && r[..3] == "No "
      ensures NetworkError? <==> |r| >= 8 && r[..8] == "Network "
    {
      var r := match this
        case NoApiKey(p) => "No API key configured for " + p
        case NetworkError(m) => "Network error: " + m
        case ApiError(m) => "API error: " + m;
      Text.EndsWithConcat(match this case NoApiKey(_) => "No API key configured for " case NetworkError(_) => "Network error: " case ApiError(_) => "API error: ",
                          if NoApiKey? then provider else message);
      assert NoApiKey? ==> r[..3] == "No ";
      assert NetworkError? ==> r[..8] == "Network ";
      assert r[0] == (if ApiError? then 'A' else 'N') && r[1] == (if NoApiKey? then 'o' else if NetworkError? then 'e' else 'P');
      assert |r| >= 3 ==> r[..3][0] == r[0] && r[..3][1] == r[1];
      assert |r| >= 8 ==> r[..8][0] == r[0] && r[..8][1] == r[1];
      r
    }
  }

  /** Whatever a fetch can throw: the catalog's own error, an adapter's
      error, or the error of OpenAI's listing. */
  datatype FetchError = Catalog(error: ModelError) | Adapter(failure: Http.AdapterError) | OpenAIListing(description: string) {
    function Description(): string {
      match this
      case Catalog(e) => e.Description()
      case Adapter(e) => e.Description()
      case OpenAIListing(d) => d
    }
  }

  type Catalog = map<string, seq<string>>

  /** `fallbackModels`. */
  const FallbackModels: Catalog := map[
    "OpenAI" := ["gpt-4o", "gpt-4o-mini", "o1", "o1-mini", "o3-mini", "gpt-4-turbo", "gpt-4", "gpt-3.5-turbo"],
    "X" := ["grok-2-vision-1212", "grok-2-1212", "grok-beta"],
    "DeepSeek" := ["deepseek-chat", "deepseek-coder"],
    "Gemini" := ["gemini-1.5-pro", "gemini-1.5-flash", "gemini-1.0-pro"],
    "Ollama" := ["llama3.2", "llama3.1", "codellama", "mistral", "qwen2.5"]
  ]

  /** `fallbackModels[provider] ?? []`. */
  function Fallback(provider: string): seq<string> {
    if provider in FallbackModels then FallbackModels[provider] else []
  }

  /** The table names the five providers, each with at least one model. */
  lemma FallbackCoversProviders()
    ensures FallbackModels.Keys == {"OpenAI", "X", "DeepSeek", "Gemini", "Ollama"}
    ensures |Fallback("OpenAI")| == 8 && |Fallback("X")| == 3 && |Fallback("DeepSeek")| == 2
    ensures |Fallback("Gemini")| == 3 && |Fallback("Ollama")| == 5
  {
  }

  /** What the fetches need from outside: the exchange the adapters use,
      and OpenAI's model listing, whose implementation is not part of this
      model. */
  datatype Network = Network(exchange: Http.Exchange, openAIModels: OpenAI.Client -> Result<seq<string>, string>)

  function LiftAdapter(r: Result<seq<string>, Http.AdapterError>): Result<seq<string>, FetchError> {
    match r
    case Ok(models) => Ok(models)
    case Err(e) => Err(Adapter(e))
  }

  /** The stored key each keyed provider needs. */
  function KeyName(provider: string): string {
    if provider == "OpenAI" then Defaults.OpenAIKey
    else if provider == "DeepSeek" then Defaults.DeepSeekKey
    else Defaults.GeminiKey
  }

  predicate IsKeyed(provider: string) {
    provider == "OpenAI" || provider == "DeepSeek" || provider == "Gemini"
  }

  predicate IsListed(provider: string) {
    IsKeyed(provider) || provider == "Ollama"
  }

  /** `fetchModelsForProvider(_:)`: a keyed provider without a stored key
      fails before any adapter exists; with one, it asks its own adapter,
      built with that key. Ollama asks the stored server, by default port
      11434 of `localhost`. Any provider that has no listing (X, and every
      name the switch does not know) gets its fallback list without
      touching the network. */
  function FetchModelsForProvider(provider: string, d: Defaults.Store, net: Network): (r: Result<seq<string>, FetchError>)
    ensures IsKeyed(provider) && Defaults.StringOr(d, KeyName(provider), "") == "" ==> r == Err(Catalog(NoApiKey(provider)))
    ensures !IsListed(provider) ==> r == Ok(Fallback(provider))
    ensures provider == "OpenAI" && Defaults.StringOr(d, Defaults.OpenAIKey, "") != "" ==>
      match net.openAIModels(OpenAI.New(d, Defaults.StringOr(d, Defaults.OpenAIKey, "")))
      case Ok(models) => r == Ok(models)
      case Err(e) => r == Err(OpenAIListing(e))
    ensures provider == "DeepSeek" && Defaults.StringOr(d, Defaults.DeepSeekKey, "") != "" ==>
      r == LiftAdapter(DeepSeek.FetchAvailableModels(DeepSeek.New(d, Defaults.StringOr(d, Defaults.DeepSeekKey, "")), net.exchange))
    ensures provider == "Gemini" && Defaults.StringOr(d, Defaults.GeminiKey, "") != "" ==>
      r == LiftAdapter(Gemini.FetchAvailableModels(Gemini.New(d, Defaults.StringOr(d, Defaults.GeminiKey, "")), net.exchange))
    ensures provider == "Ollama" ==>
      var host := Defaults.StringOr(d, Defaults.OllamaHost, "localhost");
      var port := Defaults.StringOr(d, Defaults.OllamaPort, "11434");
      r == LiftAdapter(Ollama.FetchAvailableModels(Ollama.New(d, host := host, port := port), net.exchange))
  {
    if IsKeyed(provider) then
      var apiKey := Defaults.StringOr(d, KeyName(provider), "");
      if apiKey == "" then Err(Catalog(NoApiKey(provider)))
      else if provider == "OpenAI" then
        match net.openAIModels(OpenAI.New(d, apiKey))
        case Ok(models) => Ok(models)
        case Err(e) => Err(OpenAIListing(e))
      else if provider == "DeepSeek" then LiftAdapter(DeepSeek.FetchAvailableModels(DeepSeek.New(d, apiKey), net.exchange))
      else LiftAdapter(Gemini.FetchAvailableModels(Gemini.New(d, apiKey), net.exchange))
    else if provider == "Ollama" then
      var host := Defaults.StringOr(d, Defaults.OllamaHost, "localhost");
      var port := Defaults.StringOr(d, Defaults.OllamaPort, "11434");
      LiftAdapter(Ollama.FetchAvailableModels(Ollama.New(d, host := host, port := port), net.exchange))
    else
      Ok(Fallback(provider))
  }

  /** Without a key, a keyed provider's outcome does not depend on the
      network at all; nor does that of a provider without a listing. */
  lemma FailFastIgnoresNetwork(provider: string, d: Defaults.Store, net1: Network, net2: Network)
    requires (IsKeyed(provider) && Defaults.StringOr(d, KeyName(provider), "") == "") || !IsListed(provider)
    ensures FetchModelsForProvider(provider, d, net1) == FetchModelsForProvider(provider, d, net2)
  {
  }

  /** Ollama needs no key: it always asks the stored server, by default
      port 11434 of `localhost`. */
  lemma OllamaAsksStoredServer(d: Defaults.Store, net: Network, failure: string)
    requires Defaults.StringFor(d, Defaults.OllamaHost).None? && Defaults.StringFor(d, Defaults.OllamaPort).None?
    requires net.exchange(Ollama.ModelsRequest(Ollama.New(d))) == Err(failure)
    ensures FetchModelsForProvider("Ollama", d, net) == Err(Adapter(Http.Transport(failure)))
  {
  }

  // ---------------------------------------------------------------------
  // The catalog as a value

  /** `getModels(for:)`: the catalog's entry, else the fallback entry, else
      nothing. */
  function ModelsFor(catalog: Catalog, provider: string): seq<string> {
    if provider in catalog then catalog[provider] else Fallback(provider)
  }

  /** What every catalog the manager holds satisfies: the five providers
      have an entry, X's entry is its fallback list, and a provider outside
      the table maps to no model. */
  predicate CatalogInvariant(catalog: Catalog) {
    && FallbackModels.Keys <= catalog.Keys
    && catalog["X"] == FallbackModels["X"]
    && forall p :: p in catalog && p !in FallbackModels ==> catalog[p] == []
  }

  /** Under the invariant, `getModels` offers X's fallback list and nothing
      for a provider outside the table, and always answers from the catalog. */
  lemma ModelsForKnownAndUnknown(catalog: Catalog, provider: string)
    requires CatalogInvariant(catalog)
    ensures ModelsFor(catalog, "X") == Fallback("X")
    ensures provider !in FallbackModels ==> ModelsFor(catalog, provider) == []
    ensures provider in FallbackModels ==> ModelsFor(catalog, provider) == catalog[provider]
  {
  }

  /** One fetch's effect on the catalog: its list replaces the provider's
      entry on success; a failure leaves the catalog as it was. */
  function Refreshed(catalog: Catalog, provider: string, result: Result<seq<string>, FetchError>): (c: Catalog)
    ensures result.Ok? ==> c.Keys == catalog.Keys + {provider} && c[provider] == result.value
    ensures result.Ok? ==> forall p :: p in catalog && p != provider ==> c[p] == catalog[p]
    ensures result.Err? ==> c == catalog
  {
    if result.Ok? then catalog[provider := result.value] else catalog
  }

  /** The outcome of a fetch, provider by provider. */
  type Fetcher = string -> Result<seq<string>, FetchError>

  /** The fetches as the catalog makes them, against `d` and `net`. */
  function FetchAll(d: Defaults.Store, net: Network): Fetcher {
    provider => FetchModelsForProvider(provider, d, net)
  }

  /** A fetcher that can only ever yield X's fallback list for X, and no
      model for a provider outside the table. */
  ghost predicate KeepsTable(fetch: Fetcher) {
    forall p :: fetch(p).Ok? ==>
      && (p == "X" ==> fetch(p).value == FallbackModels["X"])
      && (p !in FallbackModels ==> fetch(p).value == [])
  }

  /** The catalog's own fetches keep to the table. */
  lemma FetchAllKeepsTable(d: Defaults.Store, net: Network)
    ensures KeepsTable(FetchAll(d, net))
  {
    forall p | FetchAll(d, net)(p).Ok?
      ensures p == "X" ==> FetchAll(d, net)(p).value == FallbackModels["X"]
      ensures p !in FallbackModels ==> FetchAll(d, net)(p).value == []
    {
      if p !in FallbackModels {
        assert !IsListed(p);
      }
    }
  }

  /** Refreshing any provider keeps the invariant. */
  lemma RefreshKeepsInvariant(catalog: Catalog, provider: string, fetch: Fetcher)
    requires CatalogInvariant(catalog) && KeepsTable(fetch)
    ensures CatalogInvariant(Refreshed(catalog, provider, fetch(provider)))
  {
    var r := fetch(provider);
    if r.Ok? && provider != "X" {
      var c := Refreshed(catalog, provider, r);
      assert c["X"] == catalog["X"];
    }
  }

  /** The providers `refreshAllModels()` asks, in the order it starts them. */
  const RefreshedProviders := ["OpenAI", "DeepSeek", "Gemini", "Ollama"]

  /** The catalog after the fetches for `providers` complete in that order. */
  function ApplyFetches(catalog: Catalog, providers: seq<string>, fetch: Fetcher): Catalog
    decreases |providers|
  {
    if providers == [] then catalog
    else
      var last := providers[|providers| - 1];
      Refreshed(ApplyFetches(catalog, providers[..|providers| - 1], fetch), last, fetch(last))
  }

  /** Entry by entry: a provider that was asked and answered holds its
      answer; every other entry, a failed provider's included, is as before. */
  lemma {:induction false} ApplyFetchesAt(catalog: Catalog, providers: seq<string>, fetch: Fetcher, p: string)
    ensures var c := ApplyFetches(catalog, providers, fetch);
      if p in providers && fetch(p).Ok? then p in c && c[p] == fetch(p).value
      else (p in c <==> p in catalog) && (p in catalog ==> c[p] == catalog[p])
    decreases |providers|
  {
    if providers != [] {
      var front := providers[..|providers| - 1];
      ApplyFetchesAt(catalog, front, fetch, p);
      assert providers == front + [providers[|providers| - 1]];
      assert p in providers <==> p in front || p == providers[|providers| - 1];
    }
  }

  /** The result does not depend on the order in which the fetches
      complete: any arrangement of the same providers gives the same
      catalog, because each fetch writes only its own entry. */
  lemma ApplyFetchesOrderIrrelevant(catalog: Catalog, ps: seq<string>, qs: seq<string>, fetch: Fetcher)
    requires forall p :: p in ps <==> p in qs
    ensures ApplyFetches(catalog, ps, fetch) == ApplyFetches(catalog, qs, fetch)
  {
    var c1 := ApplyFetches(catalog, ps, fetch);
    var c2 := ApplyFetches(catalog, qs, fetch);
    forall p
      ensures (p in c1 <==> p in c2) && (p in c1 ==> c1[p] == c2[p])
    {
      ApplyFetchesAt(catalog, ps, fetch, p);
      ApplyFetchesAt(catalog, qs, fetch, p);
    }
    assert c1.Keys == c2.Keys;
  }

  /** `refreshAllModels()` never touches X's entry. */
  lemma RefreshAllLeavesX(catalog: Catalog, fetch: Fetcher)
    requires "X" in catalog
    ensures var c := ApplyFetches(catalog, RefreshedProviders, fetch);
      "X" in c && c["X"] == catalog["X"]
  {
    ApplyFetchesAt(catalog, RefreshedProviders, fetch, "X");
  }

  /** The fetches keep the invariant. */
  lemma {:induction false} ApplyFetchesKeepsInvariant(catalog: Catalog, providers: seq<string>, fetch: Fetcher)
    requires CatalogInvariant(catalog) && KeepsTable(fetch)
    ensures CatalogInvariant(ApplyFetches(catalog, providers, fetch))
    decreases |providers|
  {
    if providers != [] {
      var front := providers[..|providers| - 1];
      ApplyFetchesKeepsInvariant(catalog, front, fetch);
      RefreshKeepsInvariant(ApplyFetches(catalog, front, fetch), providers[|providers| - 1], fetch);
    }
  }

  /** `"Failed to fetch \(provider) models: \(error.localizedDescription)"`:
      the message names the provider right after its fixed opening and ends
      with the error's own description. */
  function FailureMessage(provider: string, e: FetchError): (r: string)
    ensures |r| >= 16 + |provider| && r[..16] == "Failed to fetch " && r[16..16 + |provider|] == provider
    ensures Text.EndsWith(r, e.Description())
  {
    var head := "Failed to fetch " + provider + " models: ";
    Text.EndsWithConcat(head, e.Description());
    assert ("Failed to fetch " + provider)[16..] == provider;
    head + e.Description()
  }

  class ModelManager {
    var modelsByProvider: Catalog
    var isLoading: bool
    var lastError: Option<string>

    predicate Valid()
      reads this
    {
      CatalogInvariant(modelsByProvider)
    }

    /** `init()`: the catalog starts as the fallback table. */
    constructor()
      ensures Valid()
      ensures modelsByProvider == FallbackModels && !isLoading && lastError == None
    {
      modelsByProvider := FallbackModels;
      isLoading := false;
      lastError := None;
    }

    /** `getModels(for:)`: the catalog's entry for a provider of the
      table; for any other provider, nothing. */
    function GetModels(provider: string): (models: seq<string>)
      reads this
      ensures Valid() && provider in FallbackModels ==> models == modelsByProvider[provider]
      ensures Valid() && provider !in FallbackModels ==> models == []
    {
      ModelsFor(modelsByProvider, provider)
    }

    /** `refreshModels(for:)`: a success replaces the provider's entry and
      clears the error; a failure keeps the catalog and records the error;
      either way loading ends. */
    method RefreshModels(provider: string, d: Defaults.Store, net: Network)
      requires Valid()
      modifies this
      ensures Valid()
      ensures var r := FetchModelsForProvider(provider, d, net);
        && modelsByProvider == Refreshed(old(modelsByProvider), provider, r)
        && lastError == (if r.Ok? then None else Some(FailureMessage(provider, r.error)))
      ensures !isLoading
    {
      isLoading := true;
      lastError := None;
      var result := FetchModelsForProvider(provider, d, net);
      FetchAllKeepsTable(d, net);
      RefreshKeepsInvariant(modelsByProvider, provider, FetchAll(d, net));
      match result {
        case Ok(models) =>
          modelsByProvider := modelsByProvider[provider := models];
          isLoading := false;
        case Err(e) =>
          lastError := Some(FailureMessage(provider, e));
          isLoading := false;
      }
    }

    /** `refreshAllModels()`: the four listed providers are fetched and each
      success written to its own entry; failures are only logged, so the
      error stays cleared. The concurrent tasks are run one after another:
      by `ApplyFetchesOrderIrrelevant` the order does not matter. */
    method RefreshAllModels(d: Defaults.Store, net: Network)
      requires Valid()
      modifies this
      ensures Valid()
      ensures modelsByProvider == ApplyFetches(old(modelsByProvider), RefreshedProviders, FetchAll(d, net))
      ensures !isLoading && lastError == None
    {
      isLoading := true;
      lastError := None;
      FetchAllKeepsTable(d, net);
      ApplyEach(RefreshedProviders, FetchAll(d, net));
      isLoading := false;
    }

    /** The task group of `refreshAllModels()`: one fetch per provider, each
      success written to the provider's entry. */
    method ApplyEach(providers: seq<string>, fetch: Fetcher)
      requires Valid() && KeepsTable(fetch)
      modifies this
      ensures Valid()
      ensures modelsByProvider == ApplyFetches(old(modelsByProvider), providers, fetch)
      ensures isLoading == old(isLoading) && lastError == old(lastError)
    {
      for i := 0 to |providers|
        invariant modelsByProvider == ApplyFetches(old(modelsByProvider), providers[..i], fetch)
        invariant isLoading == old(isLoading) && lastError == old(lastError)
      {
        var provider := providers[i];
        var result := fetch(provider);
        if result.Ok? {
          modelsByProvider := modelsByProvider[provider := result.value];
        }
        assert providers[..i + 1][..i] == providers[..i];
      }
      assert providers[..|providers|] == providers;
      ApplyFetchesKeepsInvariant(old(modelsByProvider), providers, fetch);
    }
  }
}
