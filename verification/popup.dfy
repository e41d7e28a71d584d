/**
 * The popup: which view it shows for the active tab, and the list of other
 * engines `loadEngines` offers (merged, enabled, not the current one, tagged
 * with their keys).
 */
module Popup {
  import opened Wrappers
  import opened OrderedDict
  import opened Constants
  import opened Utils

  /** The content script's `getPageInfo` reply: `isSearchPage`, the extracted query and the detected engine's id. */
  datatype PageInfo = PageInfo(isSearchPage: bool, query: Option<string>, engine: Option<string>)

  /** What the engines section shows. */
  datatype EngineList = Items(engines: seq<Engine>) | NoOtherEngines | LoadError

  datatype PopupView = NoSearchPageView | SearchPageView(shownQuery: string, list: EngineList)

  /** The `filter` and `map` of `loadEngines` over the merged entries, in their order. */
  function OtherEnabledOf(entries: Dict<Engine>, flags: map<string, bool>, current: Option<string>): seq<Engine>
  {
    if entries == [] then []
    else
      var (k, e) := entries[0];
      var rest := OtherEnabledOf(entries[1..], flags, current);
      if IsEnabled(flags, k) && current != Some(k) then [Tag(k, e)] + rest else rest
  }

  /** The engines the popup offers: `{ ...BUILTIN_ENGINES, ...customEngines }` filtered and tagged. */
  function ListedEngines(flags: map<string, bool>, custom: Dict<Engine>, current: Option<string>): seq<Engine>
  {
    OtherEnabledOf(Spread(BuiltinEngines, custom), flags, current)
  }

  /** The records of `engines` whose `id` is not `current`, in order. */
  function DropId(engines: seq<Engine>, current: Option<string>): (r: seq<Engine>)
    ensures |r| <= |engines|
  {
    if engines == [] then []
    else (if engines[0].id != current then [engines[0]] else []) + DropId(engines[1..], current)
  }

  /** Some record of `engines` has `id` as its id. */
  predicate HasId(engines: seq<Engine>, id: string)
  {
    exists i | 0 <= i < |engines| :: engines[i].id == Some(id)
  }

  lemma HasIdCons(h: seq<Engine>, rest: seq<Engine>, id: string)
    requires |h| <= 1
    ensures HasId(h + rest, id) <==> (h != [] && h[0].id == Some(id)) || HasId(rest, id)
  {
    var r := h + rest;
    if HasId(rest, id) {
      var j :| 0 <= j < |rest| && rest[j].id == Some(id);
      assert r[j + |h|] == rest[j];
    }
    if h != [] && h[0].id == Some(id) {
      assert r[0] == h[0];
    }
    if HasId(r, id) && !(h != [] && h[0].id == Some(id)) {
      var j :| 0 <= j < |r| && r[j].id == Some(id);
      assert j >= |h|;
      assert rest[j - |h|] == r[j];
    }
  }

  lemma {:induction false} DropIdMembers(engines: seq<Engine>, current: Option<string>, id: string)
    ensures HasId(DropId(engines, current), id) <==> current != Some(id) && HasId(engines, id)
  {
    if engines != [] {
      DropIdMembers(engines[1..], current, id);
      var h := if engines[0].id != current then [engines[0]] else [];
      assert DropId(engines, current) == h + DropId(engines[1..], current);
      HasIdCons(h, DropId(engines[1..], current), id);
      assert engines == [engines[0]] + engines[1..];
      HasIdCons([engines[0]], engines[1..], id);
    }
  }

  /** The popup's filter is the background's enabled list with the current engine dropped. */
  lemma {:induction false} OtherEnabledIsDropped(entries: Dict<Engine>, flags: map<string, bool>, current: Option<string>)
    ensures OtherEnabledOf(entries, flags, current) == DropId(EnabledOf(entries, flags), current)
  {
    if entries != [] {
      OtherEnabledIsDropped(entries[1..], flags, current);
      var (k, e) := entries[0];
      var tail := EnabledOf(entries[1..], flags);
      if IsEnabled(flags, k) {
        assert EnabledOf(entries, flags) == [Tag(k, e)] + tail;
        assert ([Tag(k, e)] + tail)[1..] == tail;
        assert Tag(k, e).id == Some(k);
      } else {
        assert EnabledOf(entries, flags) == [] + tail == tail;
      }
    }
  }

  /**
   * `ListedEngines` is `getEnabledEngines`' list without the current engine:
   * same order, every record tagged with its key, custom records overriding
   * built-in ones; an id is listed exactly when it is a merged key, its flag
   * is not `false`, and it is not the current engine's id.
   */
  lemma ListedEnginesSpec(flags: map<string, bool>, custom: Dict<Engine>, current: Option<string>, id: string)
    requires DistinctKeys(custom)
    ensures ListedEngines(flags, custom, current) == DropId(EnabledEngines(flags, custom), current)
    ensures HasId(ListedEngines(flags, custom, current), id)
        <==> id in ToMap(BuiltinEngines) + ToMap(custom) && IsEnabled(flags, id) && current != Some(id)
  {
    OtherEnabledIsDropped(Spread(BuiltinEngines, custom), flags, current);
    DropIdMembers(EnabledEngines(flags, custom), current, id);
    EnabledEnginesListed(flags, custom, id);
  }

  /** `loadEngines(currentEngineId)`; `None` storage is a failed read. */
  function LoadEngines(stored: Option<SyncStorage>, current: Option<string>): (r: EngineList)
    ensures r == LoadError <==> stored.None?
    ensures r.Items? ==> r.engines != [] && forall i | 0 <= i < |r.engines| :: r.engines[i].id != current
  {
    match stored
    case None => LoadError
    case Some(s) =>
      var flags, custom := s.engines.GetOr(map[]), s.customEngines.GetOr([]);
      var listed := ListedEngines(flags, custom, current);
      OtherEnabledIsDropped(Spread(BuiltinEngines, custom), flags, current);
      DropIdOmits(EnabledEngines(flags, custom), current);
      if listed == [] then NoOtherEngines else Items(listed)
  }

  /**
   * The list reads "No other engines available" exactly when every merged
   * engine is disabled or is the current one; it never offers the current engine.
   */
  lemma LoadEnginesCases(stored: SyncStorage, current: Option<string>)
    requires DistinctKeys(stored.customEngines.GetOr([]))
    ensures var m := ToMap(BuiltinEngines) + ToMap(stored.customEngines.GetOr([]));
      var flags := stored.engines.GetOr(map[]);
      (LoadEngines(Some(stored), current) == NoOtherEngines)
        <==> forall id | id in m :: !IsEnabled(flags, id) || current == Some(id)
    ensures LoadEngines(Some(stored), current).Items? ==>
      forall i | 0 <= i < |LoadEngines(Some(stored), current).engines| ::
        LoadEngines(Some(stored), current).engines[i].id != current
  {
    var flags := stored.engines.GetOr(map[]);
    var custom := stored.customEngines.GetOr([]);
    var m := ToMap(BuiltinEngines) + ToMap(custom);
    var listed := ListedEngines(flags, custom, current);
    forall id | id in m && IsEnabled(flags, id) && current != Some(id)
      ensures listed != []
    {
      ListedEnginesSpec(flags, custom, current, id);
    }
    if listed != [] {
      var e := listed[0];
      EnabledEnginesSpec(flags, custom);
      ListedEnginesSpec(flags, custom, current, "");
      DropIdTagged(EnabledEngines(flags, custom), current);
      var id := e.id.value;
      ListedEnginesSpec(flags, custom, current, id);
      assert listed[0].id == Some(id);
    }
    ListedEnginesSpec(flags, custom, current, "");
    DropIdOmits(EnabledEngines(flags, custom), current);
  }

  lemma {:induction false} DropIdOmits(engines: seq<Engine>, current: Option<string>)
    ensures forall i | 0 <= i < |DropId(engines, current)| :: DropId(engines, current)[i].id != current
  {
    if engines != [] {
      DropIdOmits(engines[1..], current);
    }
  }

  lemma {:induction false} DropIdTagged(engines: seq<Engine>, current: Option<string>)
    requires forall i | 0 <= i < |engines| :: engines[i].id.Some?
    ensures forall i | 0 <= i < |DropId(engines, current)| :: DropId(engines, current)[i].id.Some?
  {
    if engines != [] {
      DropIdTagged(engines[1..], current);
    }
  }

  /** `query || '-'`. */
  function ShownQuery(query: Option<string>): (r: string)
    ensures r == "-" <==> query.None? || query == Some("") || query == Some("-")
    ensures r != "-" ==> query == Some(r)
  {
    if query.None? || query.value == "" then "-" else query.value
  }

  /**
   * `initializePopup`: `hasTab` says whether an active tab exists, `reply` is
   * the content script's answer (`None` when the message fails or the reply is
   * empty), and `stored` what `loadEngines` reads. The search-page view shows
   * exactly when there is a tab and a reply that says search page; then it
   * shows that reply's query (or `-`) and the engines other than the
   * reported one.
   */
  function InitializePopup(hasTab: bool, reply: Option<PageInfo>, stored: Option<SyncStorage>): (r: PopupView)
    ensures r.SearchPageView? <==> hasTab && reply.Some? && reply.value.isSearchPage
    ensures r.SearchPageView? ==>
      && r.shownQuery == ShownQuery(reply.value.query)
      && r.list == LoadEngines(stored, reply.value.engine)
    ensures stored.None? && r.SearchPageView? ==> r.list == LoadError
    ensures r.SearchPageView? && r.list.Items? ==>
      forall i | 0 <= i < |r.list.engines| :: r.list.engines[i].id != reply.value.engine
  {
    if !hasTab then NoSearchPageView
    else match reply
      case None => NoSearchPageView
      case Some(info) =>
        if !info.isSearchPage then NoSearchPageView
        else SearchPageView(ShownQuery(info.query), LoadEngines(stored, info.engine))
  }
}
