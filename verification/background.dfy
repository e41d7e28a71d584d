/**
 * The service worker's decisions: which notification a switch request ends
 * in or which tab it opens, how a context-menu item or a command names its
 * target engine, and how the active tab's query is reported.
 * Browser calls are inputs here: the active tabs, the outcome of the storage
 * read, and whether tab creation succeeds.
 */
module Background {
  import opened Wrappers
  import opened Strings
  import opened OrderedDict
  import opened Constants
  import opened Utils

  /** A browser tab; `url` is `None` when the tab has no readable URL. */
  datatype Tab = Tab(id: int, url: Option<string>)

  /** A notification: its title and its message. */
  datatype Notice = Notice(title: string, message: string)

  /** What a switch request ends in: a notification, or a new tab at `index` showing `url`. */
  datatype SwitchOutcome = Notify(notice: Notice) | OpenTab(url: string, index: int)

  const MenuPrefix: string := "queryswitch-switch-to-"
  const CommandPrefix: string := "switch-to-"

  const CannotAccess := Notice("Error", "Cannot access current page. Please refresh and try again.")
  const NotSearchPage := Notice("Not a search page", "Current page is not a recognized search results page")
  const NoQuery := Notice("No query found", "Could not extract search query from current page")
  const SwitchFailed := Notice("Error", "Failed to switch search engine")
  const NoActiveTab := Notice("No active tab", "Please switch to a search results page first")

  function EngineNotFound(id: string): Notice
  {
    Notice("Engine not found", "Search engine '" + id + "' is not available")
  }

  /** What `onInstalled` stores on a fresh install: no flags, no custom engines, the default settings. */
  const InstallStorage: SyncStorage := SyncStorage(Some(map[]), Some([]), Some(DefaultSettings))

  // ---------------------------------------------------------------- engines.find

  /** `engines.find(e => e.id === id)`: the first engine carrying that id. */
  function FindById(engines: seq<Engine>, id: string): (r: Option<Engine>)
    ensures r.None? <==> forall i | 0 <= i < |engines| :: engines[i].id != Some(id)
    ensures r.Some? ==> exists i | 0 <= i < |engines| ::
      && engines[i] == r.value && engines[i].id == Some(id)
      && forall j | 0 <= j < i :: engines[j].id != Some(id)
  {
    if engines == [] then None
    else if engines[0].id == Some(id) then Some(engines[0])
    else
      var r := FindById(engines[1..], id);
      assert forall j | 1 <= j < |engines| :: engines[j] == engines[1..][j - 1];
      r
  }

  /**
   * The target a switch finds among the enabled engines: the engine stored
   * under that key (the custom one when a custom engine has it), tagged with
   * the key, when the key exists and its flag is not `false`; otherwise none.
   */
  lemma FindEnabled(flags: map<string, bool>, custom: Dict<Engine>, id: string)
    requires DistinctKeys(custom)
    ensures var m := ToMap(BuiltinEngines) + ToMap(custom);
      FindById(EnabledEngines(flags, custom), id)
        == if id in m && IsEnabled(flags, id) then Some(Tag(id, m[id])) else None
  {
    var r := EnabledEngines(flags, custom);
    EnabledEnginesSpec(flags, custom);
    EnabledEnginesListed(flags, custom, id);
  }

  // ---------------------------------------------------------------- handleSwitch

  /** `!tab || !tab.url`: no tab, or a missing or empty URL. */
  predicate HasUrl(tab: Option<Tab>)
  {
    tab.Some? && tab.value.url.Some? && tab.value.url.value != ""
  }

  /**
   * `handleSwitch(tab, targetEngineId)`. `stored` is the result of the
   * storage read `getEnabledEngines` makes (`None`: it threw) and `created`
   * whether `chrome.tabs.create` succeeded; either failure lands in the
   * `catch`, which reports the generic error.
   */
  function HandleSwitch(tab: Option<Tab>, targetId: string, stored: Option<SyncStorage>, created: bool): (r: SwitchOutcome)
    ensures r.OpenTab? ==> HasUrl(tab) && stored.Some? && created && r.index == tab.value.id + 1
  {
    if !HasUrl(tab) then Notify(CannotAccess)
    else SwitchOnPage(tab.value.url.value, Detect(tab.value.url.value), tab.value.id, targetId, stored, created)
  }

  /** The rest of the switch once the page's URL is known and `detected` is what detection made of it. */
  function SwitchOnPage(url: string, detected: Option<Engine>, tabId: int, targetId: string,
                        stored: Option<SyncStorage>, created: bool): SwitchOutcome
  {
    match detected
    case None => Notify(NotSearchPage)
    case Some(current) => SwitchWithQuery(ExtractQueryFromURL(url, current), tabId, targetId, stored, created)
  }

  /** The rest of the switch once the query has been extracted (`None`: `null`). */
  function SwitchWithQuery(query: Option<string>, tabId: int, targetId: string,
                           stored: Option<SyncStorage>, created: bool): SwitchOutcome
  {
    match query
    case None => Notify(NoQuery)
    case Some(q) =>
      if q == "" then Notify(NoQuery)
      else if stored.None? then Notify(SwitchFailed)
      else
        var engines := EnabledEngines(stored.value.engines.GetOr(map[]), stored.value.customEngines.GetOr([]));
        SwitchToTarget(q, FindById(engines, targetId), tabId, targetId, created)
  }

  /** The end of the switch: `found` is the target among the enabled engines. */
  function SwitchToTarget(query: string, found: Option<Engine>, tabId: int, targetId: string, created: bool): SwitchOutcome
  {
    match found
    case None => Notify(EngineNotFound(targetId))
    case Some(target) =>
      if created then OpenTab(BuildSearchURL(query, target), tabId + 1)
      else Notify(SwitchFailed)
  }

  /**
   * A tab is opened exactly when every check passes, in order: the tab has
   * a URL, the page is detected, a non-empty query comes out with the
   * detected engine's parameter, storage is read, the target is enabled, and
   * the tab is created. The tab shows the target's search for that query
   * and is placed at the current tab's id plus one.
   */
  lemma HandleSwitchOpens(tab: Option<Tab>, targetId: string, stored: Option<SyncStorage>, created: bool)
    ensures HandleSwitch(tab, targetId, stored, created).OpenTab? <==>
      && HasUrl(tab)
      && Detect(tab.value.url.value).Some?
      && ExtractQueryFromURL(tab.value.url.value, Detect(tab.value.url.value).value) !in {None, Some("")}
      && stored.Some?
      && FindById(EnabledEngines(stored.value.engines.GetOr(map[]), stored.value.customEngines.GetOr([])), targetId).Some?
      && created
    ensures HandleSwitch(tab, targetId, stored, created).OpenTab? ==>
      var url := tab.value.url.value;
      var target := FindById(EnabledEngines(stored.value.engines.GetOr(map[]), stored.value.customEngines.GetOr([])), targetId).value;
      && HandleSwitch(tab, targetId, stored, created).url
         == BuildSearchURL(ExtractQueryFromURL(url, Detect(url).value).value, target)
      && HandleSwitch(tab, targetId, stored, created).index == tab.value.id + 1
      && target.id == Some(targetId)
  {
    if HasUrl(tab) && Detect(tab.value.url.value).Some? {
      var url := tab.value.url.value;
      SwitchOnPageStep(tab.value, Detect(url).value, targetId, stored, created);
      QueryStageOpens(ExtractQueryFromURL(url, Detect(url).value), tab.value.id, targetId, stored, created);
    }
  }

  /** The query stage opens a tab exactly when the query is non-empty, storage is read, the target is found and the tab is created. */
  lemma QueryStageOpens(query: Option<string>, tabId: int, targetId: string, stored: Option<SyncStorage>, created: bool)
    ensures SwitchWithQuery(query, tabId, targetId, stored, created).OpenTab? <==>
      && query !in {None, Some("")}
      && stored.Some?
      && FindById(EnabledEngines(stored.value.engines.GetOr(map[]), stored.value.customEngines.GetOr([])), targetId).Some?
      && created
    ensures SwitchWithQuery(query, tabId, targetId, stored, created).OpenTab? ==>
      var target := FindById(EnabledEngines(stored.value.engines.GetOr(map[]), stored.value.customEngines.GetOr([])), targetId).value;
      && SwitchWithQuery(query, tabId, targetId, stored, created) == OpenTab(BuildSearchURL(query.value, target), tabId + 1)
      && target.id == Some(targetId)
  {
  }

  /**
   * The checks run in a fixed order: a check that fails decides the
   * notification whatever the later inputs are, so a page that is not a
   * search page reports that even when storage fails.
   */
  lemma HandleSwitchGuardOrder(tab: Option<Tab>, targetId: string, targetId': string,
                               stored: Option<SyncStorage>, stored': Option<SyncStorage>, created: bool, created': bool)
    ensures !HasUrl(tab) ==> HandleSwitch(tab, targetId, stored, created) == Notify(CannotAccess)
    ensures HasUrl(tab) && Detect(tab.value.url.value).None? ==>
      HandleSwitch(tab, targetId, stored, created) == Notify(NotSearchPage)
    ensures (&& HasUrl(tab) && Detect(tab.value.url.value).Some?
             && ExtractQueryFromURL(tab.value.url.value, Detect(tab.value.url.value).value) in {None, Some("")}) ==>
      HandleSwitch(tab, targetId, stored, created) == Notify(NoQuery)
    ensures HandleSwitch(tab, targetId, stored, created) in {Notify(CannotAccess), Notify(NotSearchPage), Notify(NoQuery)} ==>
      HandleSwitch(tab, targetId', stored', created') == HandleSwitch(tab, targetId, stored, created)
  {
    if HasUrl(tab) {
      var url := tab.value.url.value;
      if Detect(url).Some? {
        var query := ExtractQueryFromURL(url, Detect(url).value);
        SwitchOnPageStep(tab.value, Detect(url).value, targetId, stored, created);
        SwitchOnPageStep(tab.value, Detect(url).value, targetId', stored', created');
        QueryStageOutcome(query, tab.value.id, targetId, stored, created);
        QueryStageOutcome(query, tab.value.id, targetId', stored', created');
      }
    }
  }

  /** The query stage reports "no query" exactly for a missing or empty query, and otherwise none of the earlier notices. */
  lemma QueryStageOutcome(query: Option<string>, tabId: int, targetId: string, stored: Option<SyncStorage>, created: bool)
    ensures query in {None, Some("")} ==> SwitchWithQuery(query, tabId, targetId, stored, created) == Notify(NoQuery)
    ensures query !in {None, Some("")} ==>
      SwitchWithQuery(query, tabId, targetId, stored, created) !in {Notify(CannotAccess), Notify(NotSearchPage), Notify(NoQuery)}
  {
  }

  /**
   * Every outcome is one of the six the handler knows: the three early
   * notices, the generic error, the missing-engine notice naming the
   * target, or an opened tab.
   */
  lemma HandleSwitchOutcomes(tab: Option<Tab>, targetId: string, stored: Option<SyncStorage>, created: bool)
    ensures var o := HandleSwitch(tab, targetId, stored, created);
      || o in {Notify(CannotAccess), Notify(NotSearchPage), Notify(NoQuery), Notify(SwitchFailed)}
      || o == Notify(EngineNotFound(targetId))
      || o.OpenTab?
    ensures !created ==> !HandleSwitch(tab, targetId, stored, created).OpenTab?
    ensures stored.None? ==> !HandleSwitch(tab, targetId, stored, created).OpenTab?
  {
    if HasUrl(tab) && Detect(tab.value.url.value).Some? {
      var url := tab.value.url.value;
      var query := ExtractQueryFromURL(url, Detect(url).value);
      SwitchOnPageStep(tab.value, Detect(url).value, targetId, stored, created);
      QueryStageOpens(query, tab.value.id, targetId, stored, created);
      QueryStageOutcome(query, tab.value.id, targetId, stored, created);
    }
  }

  /**
   * Switching to the engine the page is already on is not refused: when
   * the current engine's key is enabled and no custom engine reuses it, the
   * same search opens again in a new tab.
   */
  lemma SameEngineAllowed(tab: Tab, n: nat, stored: SyncStorage)
    requires n < |BuiltinEngines|
    requires tab.url.Some? && tab.url.value != ""
    requires Detect(tab.url.value) == Some(BuiltinEngines[n].1)
    requires ExtractQueryFromURL(tab.url.value, BuiltinEngines[n].1) !in {None, Some("")}
    requires stored.customEngines.None? || !HasKey(stored.customEngines.value, BuiltinEngines[n].0)
    requires stored.customEngines.None? || DistinctKeys(stored.customEngines.value)
    requires IsEnabled(stored.engines.GetOr(map[]), BuiltinEngines[n].0)
    ensures HandleSwitch(Some(tab), BuiltinEngines[n].0, Some(stored), true)
         == OpenTab(BuildSearchURL(ExtractQueryFromURL(tab.url.value, BuiltinEngines[n].1).value, BuiltinEngines[n].1),
                    tab.id + 1)
  {
    FindBuiltin(n, stored);
    OpensWith(tab, BuiltinEngines[n].0, stored, BuiltinEngines[n].1,
              ExtractQueryFromURL(tab.url.value, BuiltinEngines[n].1).value, BuiltinEngines[n].1);
  }

  /** When every check passes, the switch opens the target's search for the extracted query. */
  lemma OpensWith(tab: Tab, targetId: string, stored: SyncStorage, current: Engine, query: string, target: Engine)
    requires tab.url.Some? && tab.url.value != "" && Detect(tab.url.value) == Some(current)
    requires ExtractQueryFromURL(tab.url.value, current) == Some(query) && query != ""
    requires FindById(EnabledEngines(stored.engines.GetOr(map[]), stored.customEngines.GetOr([])), targetId) == Some(target)
    ensures HandleSwitch(Some(tab), targetId, Some(stored), true) == OpenTab(BuildSearchURL(query, target), tab.id + 1)
  {
    SwitchOnPageStep(tab, current, targetId, Some(stored), true);
    QueryStageOpens(Some(query), tab.id, targetId, Some(stored), true);
  }

  /** On a detected page the switch goes on with the query extracted for the detected engine. */
  lemma SwitchOnPageStep(tab: Tab, current: Engine, targetId: string, stored: Option<SyncStorage>, created: bool)
    requires tab.url.Some? && tab.url.value != "" && Detect(tab.url.value) == Some(current)
    ensures HandleSwitch(Some(tab), targetId, stored, created)
         == SwitchWithQuery(ExtractQueryFromURL(tab.url.value, current), tab.id, targetId, stored, created)
  {
  }

  /** An enabled built-in whose key no custom engine reuses is found as the built-in record itself. */
  lemma FindBuiltin(n: nat, stored: SyncStorage)
    requires n < |BuiltinEngines|
    requires stored.customEngines.None? || !HasKey(stored.customEngines.value, BuiltinEngines[n].0)
    requires stored.customEngines.None? || DistinctKeys(stored.customEngines.value)
    requires IsEnabled(stored.engines.GetOr(map[]), BuiltinEngines[n].0)
    ensures FindById(EnabledEngines(stored.engines.GetOr(map[]), stored.customEngines.GetOr([])), BuiltinEngines[n].0)
         == Some(BuiltinEngines[n].1)
  {
    var custom := stored.customEngines.GetOr([]);
    BuiltinLookup(n, custom);
    FindEnabled(stored.engines.GetOr(map[]), custom, BuiltinEngines[n].0);
  }

  /** A built-in key the custom engines do not reuse maps to the built-in record, which already carries its key. */
  lemma BuiltinLookup(n: nat, custom: Dict<Engine>)
    requires n < |BuiltinEngines| && !HasKey(custom, BuiltinEngines[n].0)
    ensures var m := ToMap(BuiltinEngines) + ToMap(custom);
      && BuiltinEngines[n].0 in m
      && m[BuiltinEngines[n].0] == BuiltinEngines[n].1
      && Tag(BuiltinEngines[n].0, BuiltinEngines[n].1) == BuiltinEngines[n].1
  {
    BuiltinOrder();
    BuiltinIds(n);
    assert HasKey(BuiltinEngines, BuiltinEngines[n].0);
    GetToMap(BuiltinEngines, BuiltinEngines[n].0);
    BuiltinGet(n);
  }

  lemma BuiltinGet(n: nat)
    requires n < |BuiltinEngines|
    ensures Get(BuiltinEngines, BuiltinEngines[n].0) == Some(BuiltinEngines[n].1)
  {
    BuiltinOrder();
  }

  /**
   * Switching between built-in engines from a page built for engine `a`
   * with a non-empty query free of `%`: the new tab shows engine `b`'s
   * search for the very same query.
   */
  lemma SwitchBetweenBuiltins(query: string, a: nat, b: nat, tab: Tab, stored: SyncStorage)
    requires a < |BuiltinEngines| && b < |BuiltinEngines|
    requires query != "" && '%' !in query
    requires tab.url == Some(BuildSearchURL(query, BuiltinEngines[a].1))
    requires stored.customEngines.None? || !HasKey(stored.customEngines.value, BuiltinEngines[b].0)
    requires stored.customEngines.None? || DistinctKeys(stored.customEngines.value)
    requires IsEnabled(stored.engines.GetOr(map[]), BuiltinEngines[b].0)
    ensures HandleSwitch(Some(tab), BuiltinEngines[b].0, Some(stored), true)
         == OpenTab(BuildSearchURL(query, BuiltinEngines[b].1), tab.id + 1)
  {
    BuiltPage(query, a);
    FindBuiltin(b, stored);
    OpensWith(tab, BuiltinEngines[b].0, stored, BuiltinEngines[a].1, query, BuiltinEngines[b].1);
  }

  /** A page built for a built-in with a non-empty query free of `%` is detected and gives the query back. */
  lemma BuiltPage(query: string, n: nat)
    requires n < |BuiltinEngines| && query != "" && '%' !in query
    ensures var url := BuildSearchURL(query, BuiltinEngines[n].1);
      && url != ""
      && Detect(url) == Some(BuiltinEngines[n].1)
      && ExtractQueryFromURL(url, BuiltinEngines[n].1) == Some(query)
  {
    BuiltinDetected(query, n);
    BuiltinRoundTrip(query, n);
    if BuildSearchURL(query, BuiltinEngines[n].1) == "" {
      DetectNoQueryMark("");
    }
  }

  // ---------------------------------------------------------------- menu and command entry points

  /**
   * `contextMenus.onClicked`: an item whose id starts with the switch prefix
   * runs the switch for the rest of the id; any other item does nothing
   * (`None`).
   */
  function OnMenuClicked(menuItemId: string, tab: Option<Tab>, stored: Option<SyncStorage>, created: bool): (r: Option<SwitchOutcome>)
    ensures r.Some? <==> StartsWith(menuItemId, MenuPrefix)
    ensures r.Some? ==> r.value == HandleSwitch(tab, menuItemId[|MenuPrefix|..], stored, created)
  {
    if StartsWith(menuItemId, MenuPrefix) then
      ReplacePrefix(menuItemId, MenuPrefix);
      Some(HandleSwitch(tab, ReplaceFirst(menuItemId, MenuPrefix, ""), stored, created))
    else None
  }

  /** The item created for engine `id` switches to `id`. */
  lemma MenuItemRoundTrip(id: string, tab: Option<Tab>, stored: Option<SyncStorage>, created: bool)
    ensures OnMenuClicked(MenuPrefix + id, tab, stored, created) == Some(HandleSwitch(tab, id, stored, created))
  {
    assert (MenuPrefix + id)[..|MenuPrefix|] == MenuPrefix;
    assert (MenuPrefix + id)[|MenuPrefix|..] == id;
  }

  /**
   * `commands.onCommand`: a command named `switch-to-<id>` switches to `<id>`
   * in the tab it came with or, failing that, the first active tab; with
   * neither it only reports that there is no active tab, and opens nothing.
   * Other commands do nothing.
   */
  function OnCommand(command: string, tab: Option<Tab>, activeTabs: seq<Tab>,
                     stored: Option<SyncStorage>, created: bool): (r: Option<SwitchOutcome>)
    ensures r.Some? <==> StartsWith(command, CommandPrefix)
    ensures r.Some? && tab.None? && activeTabs == [] ==> r.value == Notify(NoActiveTab)
    ensures r.Some? && (tab.Some? || activeTabs != []) ==>
      r.value == HandleSwitch(Some(if tab.Some? then tab.value else activeTabs[0]), command[|CommandPrefix|..], stored, created)
  {
    if !StartsWith(command, CommandPrefix) then None
    else
      ReplacePrefix(command, CommandPrefix);
      var targetId := ReplaceFirst(command, CommandPrefix, "");
      if tab.None? && activeTabs == [] then Some(Notify(NoActiveTab))
      else
        var t := if tab.Some? then tab.value else activeTabs[0];
        Some(HandleSwitch(Some(t), targetId, stored, created))
  }

  // ---------------------------------------------------------------- getCurrentQuery

  /** The reply to `getCurrentQuery`. */
  datatype QueryReply =
    | ErrorReply(error: string)
    | NotSearchPageReply
    | SearchPageReply(query: Option<string>, currentEngine: Option<string>)

  /**
   * The reply for the active tabs of the current window. A tab without a
   * URL is matched as the text `undefined`, which is what a regular
   * expression's `test` makes of a missing argument. The reply is an error
   * exactly without an active tab, says "not a search page" exactly when
   * detection fails on the first tab, and otherwise carries the extracted
   * query (possibly `null`), read with the detected built-in's parameter,
   * and that built-in's key.
   */
  function GetCurrentQuery(activeTabs: seq<Tab>): (r: QueryReply)
    ensures r.ErrorReply? <==> activeTabs == []
    ensures activeTabs != [] ==>
      var url := activeTabs[0].url.GetOr("undefined");
      && (r.NotSearchPageReply? <==> Detect(url).None?)
      && (Detect(url).Some? ==>
           exists n | 0 <= n < |BuiltinEngines| ::
             && Detect(url) == Some(BuiltinEngines[n].1)
             && r == SearchPageReply(ExtractQueryFromURL(url, BuiltinEngines[n].1), Some(BuiltinEngines[n].0)))
  {
    if activeTabs == [] then ErrorReply("No active tab")
    else
      var url := activeTabs[0].url.GetOr("undefined");
      match Detect(url)
      case None => NotSearchPageReply
      case Some(engine) =>
        var n :| 0 <= n < |BuiltinEngines| && engine == BuiltinEngines[n].1;
        BuiltinIds(n);
        SearchPageReply(ExtractQueryFromURL(url, engine), engine.id)
  }

  /** A tab without a URL is not a search page. */
  lemma NoUrlNotSearchPage(tab: Tab, rest: seq<Tab>)
    requires tab.url.None?
    ensures GetCurrentQuery([tab] + rest) == NotSearchPageReply
  {
    assert ([tab] + rest)[0] == tab;
    DetectNoQueryMark("undefined");
  }

  /**
   * On a results page built for built-in `n`, the popup is told it is on
   * engine `n` and is given the query back.
   */
  lemma CurrentQueryOfBuiltPage(query: string, n: nat, id: int, rest: seq<Tab>)
    requires n < |BuiltinEngines| && query != "" && '%' !in query
    ensures GetCurrentQuery([Tab(id, Some(BuildSearchURL(query, BuiltinEngines[n].1)))] + rest)
         == SearchPageReply(Some(query), Some(BuiltinEngines[n].0))
  {
    var url := BuildSearchURL(query, BuiltinEngines[n].1);
    var tabs := [Tab(id, Some(url))] + rest;
    assert tabs[0].url.GetOr("undefined") == url;
    BuiltPage(query, n);
    var r := GetCurrentQuery(tabs);
    var m :| 0 <= m < |BuiltinEngines|
      && Detect(url) == Some(BuiltinEngines[m].1)
      && r == SearchPageReply(ExtractQueryFromURL(url, BuiltinEngines[m].1), Some(BuiltinEngines[m].0));
    BuiltinIds(m);
    BuiltinIds(n);
  }

  // ---------------------------------------------------------------- onInstalled

  /** After a fresh install every built-in engine is enabled, in table order, and nothing else is. */
  lemma InstallEnablesBuiltins()
    ensures EnabledEngines(InstallStorage.engines.value, InstallStorage.customEngines.value)
         == [Google, Baidu, Bing, Yahoo, DuckDuckGo]
    ensures InstallStorage.settings == Some(DefaultSettings)
  {
    assert Spread(BuiltinEngines, []) == BuiltinEngines;
    InstallEnabledOf();
  }

  lemma InstallEnabledOf()
    ensures EnabledOf(BuiltinEngines, map[]) == [Google, Baidu, Bing, Yahoo, DuckDuckGo]
  {
    var d := BuiltinEngines;
    assert EnabledOf(d[4..], map[]) == [DuckDuckGo];
    assert EnabledOf(d[3..], map[]) == [Yahoo, DuckDuckGo];
    assert EnabledOf(d[2..], map[]) == [Bing, Yahoo, DuckDuckGo];
    assert EnabledOf(d[1..], map[]) == [Baidu, Bing, Yahoo, DuckDuckGo];
  }
}
