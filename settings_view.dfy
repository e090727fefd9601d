/** The settings window (`SettingsView`): a working copy of every stored
    setting that the user edits, the model picker kept in step with the
    model catalog, and Save, which writes the copy back to the store. */
module SettingsView {
  import opened Wrappers
  import Defaults
  import NetworkConfig
  import ModelCatalog
  import ContentView

  /** The twelve settings the window edits, as its `temp…` state holds them. */
  datatype Values = Values(
    provider: string,
    model: string,
    openaiKey: string,
    grokKey: string,
    deepseekKey: string,
    geminiKey: string,
    ollamaHost: string,
    ollamaPort: string,
    showOnTop: bool,
    useProxy: bool,
    proxyHost: string,
    proxyPort: string)

  /** The window's `init()`: each value as stored, or its default. */
  function Load(d: Defaults.Store): Values {
    Values(
      Defaults.StringOr(d, Defaults.SelectedProvider, "OpenAI"),
      Defaults.StringOr(d, Defaults.SelectedModel, "gpt-4-turbo"),
      Defaults.StringOr(d, Defaults.OpenAIKey, ""),
      Defaults.StringOr(d, Defaults.GrokKey, ""),
      Defaults.StringOr(d, Defaults.DeepSeekKey, ""),
      Defaults.StringOr(d, Defaults.GeminiKey, ""),
      Defaults.StringOr(d, Defaults.OllamaHost, "localhost"),
      Defaults.StringOr(d, Defaults.OllamaPort, "11434"),
      Defaults.BoolFor(d, Defaults.ShowOnTop),
      Defaults.BoolFor(d, Defaults.UseProxy),
      Defaults.StringOr(d, Defaults.ProxyHost, ""),
      Defaults.StringOr(d, Defaults.ProxyPort, ""))
  }

  /** The twelve keys the window writes. */
  const EditedKeys: set<string> := {
    Defaults.SelectedProvider, Defaults.SelectedModel, Defaults.OpenAIKey, Defaults.GrokKey,
    Defaults.DeepSeekKey, Defaults.GeminiKey, Defaults.OllamaHost, Defaults.OllamaPort,
    Defaults.ShowOnTop, Defaults.UseProxy, Defaults.ProxyHost, Defaults.ProxyPort}

  /** The store after Save: every value written under its key, and every
      other key of the store left as it was. */
  function Saved(d: Defaults.Store, v: Values): (r: Defaults.Store)
    ensures r.Keys == d.Keys + EditedKeys
    ensures forall k :: k in d && k !in EditedKeys ==> r[k] == d[k]
  {
    d[Defaults.SelectedProvider := Defaults.Text(v.provider)]
     [Defaults.SelectedModel := Defaults.Text(v.model)]
     [Defaults.OpenAIKey := Defaults.Text(v.openaiKey)]
     [Defaults.GrokKey := Defaults.Text(v.grokKey)]
     [Defaults.DeepSeekKey := Defaults.Text(v.deepseekKey)]
     [Defaults.GeminiKey := Defaults.Text(v.geminiKey)]
     [Defaults.OllamaHost := Defaults.Text(v.ollamaHost)]
     [Defaults.OllamaPort := Defaults.Text(v.ollamaPort)]
     [Defaults.ShowOnTop := Defaults.Flag(v.showOnTop)]
     [Defaults.UseProxy := Defaults.Flag(v.useProxy)]
     [Defaults.ProxyHost := Defaults.Text(v.proxyHost)]
     [Defaults.ProxyPort := Defaults.Text(v.proxyPort)]
  }

  /** Reopening the window after Save shows exactly what was saved. */
  lemma LoadAfterSave(d: Defaults.Store, v: Values)
    ensures Load(Saved(d, v)) == v
  {
    SelectionAfterSave(d, v);
    KeysAfterSave(d, v);
    OthersAfterSave(d, v);
  }

  lemma SelectionAfterSave(d: Defaults.Store, v: Values)
    ensures var s := Saved(d, v);
      && Defaults.StringFor(s, Defaults.SelectedProvider) == Some(v.provider)
      && Defaults.StringFor(s, Defaults.SelectedModel) == Some(v.model)
  {
  }

  lemma KeysAfterSave(d: Defaults.Store, v: Values)
    ensures var s := Saved(d, v);
      && Defaults.StringFor(s, Defaults.OpenAIKey) == Some(v.openaiKey)
      && Defaults.StringFor(s, Defaults.GrokKey) == Some(v.grokKey)
      && Defaults.StringFor(s, Defaults.DeepSeekKey) == Some(v.deepseekKey)
      && Defaults.StringFor(s, Defaults.GeminiKey) == Some(v.geminiKey)
  {
  }

  lemma OthersAfterSave(d: Defaults.Store, v: Values)
    ensures var s := Saved(d, v);
      && Defaults.StringFor(s, Defaults.OllamaHost) == Some(v.ollamaHost)
      && Defaults.StringFor(s, Defaults.OllamaPort) == Some(v.ollamaPort)
      && Defaults.BoolFor(s, Defaults.ShowOnTop) == v.showOnTop
      && Defaults.BoolFor(s, Defaults.UseProxy) == v.useProxy
      && Defaults.StringFor(s, Defaults.ProxyHost) == Some(v.proxyHost)
      && Defaults.StringFor(s, Defaults.ProxyPort) == Some(v.proxyPort)
  {
  }

  /** On a fresh store the window shows the defaults. */
  lemma LoadDefaults()
    ensures Load(map[]) == Values("OpenAI", "gpt-4-turbo", "", "", "", "", "localhost", "11434", false, false, "", "")
  {
  }

  predicate HasKeyField(provider: string) {
    provider == "OpenAI" || provider == "X" || provider == "DeepSeek" || provider == "Gemini"
  }

  /** The `currentApiKey` getter: the key of the selected provider; Ollama
      and unknown providers have none. */
  function KeyOf(v: Values): (k: string)
    ensures v.provider == "OpenAI" ==> k == v.openaiKey
    ensures v.provider == "X" ==> k == v.grokKey
    ensures v.provider == "DeepSeek" ==> k == v.deepseekKey
    ensures v.provider == "Gemini" ==> k == v.geminiKey
    ensures !HasKeyField(v.provider) ==> k == ""
  {
    match v.provider
    case "OpenAI" => v.openaiKey
    case "X" => v.grokKey
    case "DeepSeek" => v.deepseekKey
    case "Gemini" => v.geminiKey
    case _ => ""
  }

  /** The `currentApiKey` setter: reading the key back gives the new key
      for a provider that has one; for any other provider nothing changes.
      Only the key fields can change. */
  function WithKey(v: Values, newValue: string): (w: Values)
    ensures HasKeyField(v.provider) ==> KeyOf(w) == newValue
    ensures !HasKeyField(v.provider) ==> w == v
    ensures w.provider == v.provider && w.model == v.model
    ensures w.(openaiKey := v.openaiKey, grokKey := v.grokKey, deepseekKey := v.deepseekKey, geminiKey := v.geminiKey) == v
  {
    match v.provider
    case "OpenAI" => v.(openaiKey := newValue)
    case "X" => v.(grokKey := newValue)
    case "DeepSeek" => v.(deepseekKey := newValue)
    case "Gemini" => v.(geminiKey := newValue)
    case _ => v
  }

  /** Writing back the key just read changes nothing. */
  lemma KeySetAfterGet(v: Values)
    ensures WithKey(v, KeyOf(v)) == v
  {
  }

  /** The setter touches only the selected provider's key: the provider,
      the model and every other provider's key stay as they were. */
  lemma KeySetTouchesOneKey(v: Values, newValue: string, other: string)
    requires other != v.provider
    ensures var w := WithKey(v, newValue);
      && w.provider == v.provider && w.model == v.model
      && KeyOf(w.(provider := other)) == KeyOf(v.(provider := other))
  {
  }

  /** `onChange(of: tempProvider)`: the first model of the new provider, if
      the catalog offers any. */
  function ProviderChanged(v: Values, models: seq<string>): (w: Values)
    ensures models != [] ==> w == v.(model := models[0])
    ensures models == [] ==> w == v
  {
    if models != [] then v.(model := models[0]) else v
  }

  /** `onAppear` and `onChange(of: modelsByProvider)`: a model the catalog
      no longer offers is replaced by the first one offered. */
  function Reconciled(v: Values, models: seq<string>): Values {
    if v.model !in models && models != [] then v.(model := models[0]) else v
  }

  /** After reconciling, the selected model is one the catalog offers,
      unless it offers none; only the model can have changed, and a model
      already offered is kept. */
  lemma ReconciledIsOffered(v: Values, models: seq<string>)
    ensures var w := Reconciled(v, models);
      && (models != [] ==> w.model in models)
      && (models == [] || v.model in models ==> w == v)
      && w.(model := v.model) == v
  {
  }

  /** Reconciling twice is reconciling once. */
  lemma ReconcileIdempotent(v: Values, models: seq<string>)
    ensures Reconciled(Reconciled(v, models), models) == Reconciled(v, models)
  {
    ReconciledIsOffered(v, models);
  }

  /** After a provider change the model is one the catalog offers, so a
      reconciliation right after it changes nothing. */
  lemma ProviderChangeNeedsNoReconcile(v: Values, models: seq<string>)
    requires models != []
    ensures ProviderChanged(v, models).model in models
    ensures Reconciled(ProviderChanged(v, models), models) == ProviderChanged(v, models)
  {
  }

  // What a save means to the rest of the app.

  /** After Save, every configured session goes through a SOCKS proxy
      exactly when the switch is on, a host is given and `Int(_:)` reads
      the port; the proxy is then the saved host and that port. */
  lemma SavedProxyConfiguresSession(d: Defaults.Store, v: Values)
    ensures NetworkConfig.ConfiguredSession(Saved(d, v)).proxy.Some? <==>
      v.useProxy && v.proxyHost != "" && NetworkConfig.ParseInt(v.proxyPort).Some?
    ensures NetworkConfig.ConfiguredSession(Saved(d, v)).proxy.Some? ==>
      NetworkConfig.ConfiguredSession(Saved(d, v)).proxy.value
        == NetworkConfig.Socks(v.proxyHost, NetworkConfig.ParseInt(v.proxyPort).value)
  {
    OthersAfterSave(d, v);
  }

  /** After Save, the main window uses the saved provider and model, and the
      saved OpenAI key for OpenAI but the saved Grok key for every other
      provider. */
  lemma SavedSelectionReachesMainWindow(d: Defaults.Store, v: Values)
    ensures ContentView.CurrentSettings(Saved(d, v)) ==
      Some(ContentView.Settings(v.provider, v.model, if v.provider == "OpenAI" then v.openaiKey else v.grokKey))
  {
    SelectionAfterSave(d, v);
    KeysAfterSave(d, v);
  }

  /** After Save, the catalog's keyed providers use the saved keys, and
      Ollama the saved server. */
  lemma SavedKeysReachCatalog(d: Defaults.Store, v: Values)
    ensures Defaults.StringOr(Saved(d, v), ModelCatalog.KeyName("OpenAI"), "") == v.openaiKey
    ensures Defaults.StringOr(Saved(d, v), ModelCatalog.KeyName("DeepSeek"), "") == v.deepseekKey
    ensures Defaults.StringOr(Saved(d, v), ModelCatalog.KeyName("Gemini"), "") == v.geminiKey
    ensures Defaults.StringOr(Saved(d, v), Defaults.OllamaHost, "localhost") == v.ollamaHost
    ensures Defaults.StringOr(Saved(d, v), Defaults.OllamaPort, "11434") == v.ollamaPort
  {
    KeysAfterSave(d, v);
    OthersAfterSave(d, v);
  }

  /** The window's state: the working copy and its own model catalog. */
  class SettingsEditor {
    var tempProvider: string
    var tempModel: string
    var tempOpenAIKey: string
    var tempGrokKey: string
    var tempDeepSeekKey: string
    var tempGeminiKey: string
    var tempOllamaHost: string
    var tempOllamaPort: string
    var tempShowOnTop: bool
    var tempUseProxy: bool
    var tempProxyHost: string
    var tempProxyPort: string
    const modelManager: ModelCatalog.ModelManager

    /** The working copy as one value. */
    function Current(): Values
      reads this
    {
      Values(tempProvider, tempModel, tempOpenAIKey, tempGrokKey, tempDeepSeekKey, tempGeminiKey,
             tempOllamaHost, tempOllamaPort, tempShowOnTop, tempUseProxy, tempProxyHost, tempProxyPort)
    }

    predicate Valid()
      reads this, modelManager
    {
      modelManager.Valid()
    }

    /** `init()`: the working copy loaded from the store, and a new catalog
      holding the fallback table. */
    constructor(d: Defaults.Store)
      ensures Valid() && fresh(modelManager)
      ensures Current() == Load(d)
      ensures modelManager.modelsByProvider == ModelCatalog.FallbackModels
    {
      var v := Load(d);
      tempProvider := v.provider;
      tempModel := v.model;
      tempOpenAIKey := v.openaiKey;
      tempGrokKey := v.grokKey;
      tempDeepSeekKey := v.deepseekKey;
      tempGeminiKey := v.geminiKey;
      tempOllamaHost := v.ollamaHost;
      tempOllamaPort := v.ollamaPort;
      tempShowOnTop := v.showOnTop;
      tempUseProxy := v.useProxy;
      tempProxyHost := v.proxyHost;
      tempProxyPort := v.proxyPort;
      modelManager := new ModelCatalog.ModelManager();
    }

    /** Typing into the API key field. */
    method SetCurrentApiKey(newValue: string)
      modifies this
      ensures Current() == WithKey(old(Current()), newValue)
    {
      match tempProvider {
        case "OpenAI" => tempOpenAIKey := newValue;
        case "X" => tempGrokKey := newValue;
        case "DeepSeek" => tempDeepSeekKey := newValue;
        case "Gemini" => tempGeminiKey := newValue;
        case _ =>
      }
    }

    /** Picking a provider. Its `onChange` handler runs only when the pick
      differs from the current provider: picking the current one again
      changes nothing. */
    method SelectProvider(provider: string)
      modifies this
      ensures provider == old(tempProvider) ==> Current() == old(Current())
      ensures provider != old(tempProvider) ==>
        Current() == ProviderChanged(old(Current()).(provider := provider), modelManager.GetModels(provider))
    {
      if provider != tempProvider {
        tempProvider := provider;
        var models := modelManager.GetModels(tempProvider);
        if models != [] {
          tempModel := models[0];
        }
      }
    }

    /** `onAppear`, and the handler run when the catalog changes. */
    method Reconcile()
      modifies this
      ensures Current() == Reconciled(old(Current()), modelManager.GetModels(tempProvider))
    {
      var models := modelManager.GetModels(tempProvider);
      if tempModel !in models && models != [] {
        tempModel := models[0];
      }
    }

    /** The refresh button: the catalog refreshes the selected provider and
      shows the failure, if any; if that changed the catalog, the model
      selection is reconciled with it. */
    method Refresh(d: Defaults.Store, net: ModelCatalog.Network)
      requires Valid()
      modifies this, modelManager
      ensures Valid()
      ensures var r := ModelCatalog.FetchModelsForProvider(old(tempProvider), d, net);
        && modelManager.modelsByProvider == ModelCatalog.Refreshed(old(modelManager.modelsByProvider), old(tempProvider), r)
        && modelManager.lastError == (if r.Ok? then None else Some(ModelCatalog.FailureMessage(old(tempProvider), r.error)))
      ensures !modelManager.isLoading
      ensures modelManager.modelsByProvider == old(modelManager.modelsByProvider) ==> Current() == old(Current())
      ensures modelManager.modelsByProvider != old(modelManager.modelsByProvider) ==>
        Current() == Reconciled(old(Current()), modelManager.GetModels(tempProvider))
    {
      var before := modelManager.modelsByProvider;
      modelManager.RefreshModels(tempProvider, d, net);
      if modelManager.modelsByProvider != before {
        Reconcile();
      }
    }

    /** Save: the store with the working copy written back. */
    method Save(d: Defaults.Store) returns (stored: Defaults.Store)
      ensures stored == Saved(d, Current())
      ensures Load(stored) == Current()
    {
      stored := d[Defaults.SelectedProvider := Defaults.Text(tempProvider)];
      stored := stored[Defaults.SelectedModel := Defaults.Text(tempModel)];
      stored := stored[Defaults.OpenAIKey := Defaults.Text(tempOpenAIKey)];
      stored := stored[Defaults.GrokKey := Defaults.Text(tempGrokKey)];
      stored := stored[Defaults.DeepSeekKey := Defaults.Text(tempDeepSeekKey)];
      stored := stored[Defaults.GeminiKey := Defaults.Text(tempGeminiKey)];
      stored := stored[Defaults.OllamaHost := Defaults.Text(tempOllamaHost)];
      stored := stored[Defaults.OllamaPort := Defaults.Text(tempOllamaPort)];
      stored := stored[Defaults.ShowOnTop := Defaults.Flag(tempShowOnTop)];
      stored := stored[Defaults.UseProxy := Defaults.Flag(tempUseProxy)];
      stored := stored[Defaults.ProxyHost := Defaults.Text(tempProxyHost)];
      stored := stored[Defaults.ProxyPort := Defaults.Text(tempProxyPort)];
      LoadAfterSave(d, Current());
    }
  }
}
