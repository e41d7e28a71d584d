/**
 * The engine registry, the storage keys and the default settings.
 */
module Constants {
  import opened Wrappers
  import opened OrderedDict

  /**
   * A detection pattern. Every built-in pattern has the shape `/H.*[?&]P=/`:
   * host text `H`, then (on the same line) `?` or `&` immediately followed by
   * `P=`. A custom engine keeps the source text of the expression its user
   * typed; detection never looks at it.
   */
  datatype Pattern = HostParam(host: string, param: string) | CustomRegExp(source: string)

  /**
   * An engine record. Built-in records carry their own `id`; custom records
   * are stored without one and get it from their key when listed.
   */
  datatype Engine = Engine(
    id: Option<string>,
    name: string,
    searchUrl: string,
    patterns: seq<Pattern>,
    queryParam: string,
    enabled: bool)

  const Placeholder: string := "{query}"

  const Google: Engine := Engine(
    Some("google"), "Google", "https://www.google.com/search?q={query}",
    [HostParam("google.com", "q"), HostParam("google.com", "query")], "q", true)

  const Baidu: Engine := Engine(
    Some("baidu"), "Baidu", "https://www.baidu.com/s?wd={query}",
    [HostParam("baidu.com", "wd"), HostParam("baidu.com", "word")], "wd", true)

  const Bing: Engine := Engine(
    Some("bing"), "Bing", "https://www.bing.com/search?q={query}",
    [HostParam("bing.com", "q")], "q", true)

  const Yahoo: Engine := Engine(
    Some("yahoo"), "Yahoo", "https://search.yahoo.com/search?p={query}",
    [HostParam("yahoo.com", "p"), HostParam("search.yahoo.com", "p")], "p", true)

  const DuckDuckGo: Engine := Engine(
    Some("duckduckgo"), "DuckDuckGo", "https://duckduckgo.com/?q={query}",
    [HostParam("duckduckgo.com", "q")], "q", true)

  /** `BUILTIN_ENGINES`, in its entry order. */
  const BuiltinEngines: Dict<Engine> := [
    ("google", Google), ("baidu", Baidu), ("bing", Bing), ("yahoo", Yahoo), ("duckduckgo", DuckDuckGo)]

  // ---------------------------------------------------------------- storage

  const EnginesKey: string := "engines"
  const CustomEnginesKey: string := "customEngines"
  const SettingsKey: string := "settings"

  datatype Settings = Settings(language: string, showContextMenu: bool, openInBackground: bool)

  const DefaultSettings: Settings := Settings("en", true, false)

  /**
   * What `chrome.storage.sync` holds under the three keys; `None` is a
   * missing key. `engines` maps an engine id to its `enabled` flag.
   */
  datatype SyncStorage = SyncStorage(
    engines: Option<map<string, bool>>,
    customEngines: Option<Dict<Engine>>,
    settings: Option<Settings>)

  // ---------------------------------------------------------------- lemmas

  /** Five built-ins, in the order google, baidu, bing, yahoo, duckduckgo, with distinct keys. */
  lemma BuiltinOrder()
    ensures Keys(BuiltinEngines) == ["google", "baidu", "bing", "yahoo", "duckduckgo"]
    ensures DistinctKeys(BuiltinEngines)
  {
  }

  /** Every built-in's `id` is its key, and every built-in pattern is a host-and-parameter pattern. */
  lemma BuiltinIds(i: nat)
    requires i < |BuiltinEngines|
    ensures BuiltinEngines[i].1.id == Some(BuiltinEngines[i].0)
    ensures forall k | 0 <= k < |BuiltinEngines[i].1.patterns| :: BuiltinEngines[i].1.patterns[k].HostParam?
  {
  }

  /** The three storage keys are distinct, and the default language is English. */
  lemma StorageKeysDistinct()
    ensures EnginesKey != CustomEnginesKey && CustomEnginesKey != SettingsKey && EnginesKey != SettingsKey
    ensures DefaultSettings.language == "en"
  {
  }
}
