/** The app's persisted settings: the flat key-value store (UserDefaults,
    read directly or through `@AppStorage`) that every component reads
    afresh on each use. */
module Defaults {
  import opened Wrappers

  /** A stored setting: the app keeps strings and booleans. */
  datatype Stored = Text(s: string) | Flag(b: bool)

  type Store = map<string, Stored>

  /** The keys the app reads and writes. */
  const SelectedProvider := "selectedProvider"
  const SelectedModel := "selectedModel"
  const OpenAIKey := "openaiKey"
  const GrokKey := "grokKey"
  const DeepSeekKey := "deepseekKey"
  const GeminiKey := "geminiKey"
  const OllamaHost := "ollamaHost"
  const OllamaPort := "ollamaPort"
  const ShowOnTop := "showOnTop"
  const UseProxy := "useProxy"
  const ProxyHost := "proxyHost"
  const ProxyPort := "proxyPort"

  /** `string(forKey:)`: the text stored under `key`, or nil. */
  function StringFor(d: Store, key: string): (r: Option<string>)
    ensures r.Some? <==> key in d && d[key].Text?
    ensures r.Some? ==> d[key] == Text(r.value)
  {
    if key in d && d[key].Text? then Some(d[key].s) else None
  }

  /** `bool(forKey:)`: the flag stored under `key`; false when there is none. */
  function BoolFor(d: Store, key: string): (r: bool)
    ensures r <==> key in d && d[key] == Flag(true)
  {
    key in d && d[key].Flag? && d[key].b
  }

  /** `string(forKey: key) ?? default`: the text stored under `key`, and the
      default only when the key holds no text. */
  function StringOr(d: Store, key: string, default: string): (r: string)
    ensures key in d && d[key].Text? ==> d[key] == Text(r)
    ensures key !in d || d[key].Flag? ==> r == default
  {
    StringFor(d, key).GetOr(default)
  }
}
