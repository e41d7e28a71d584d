# QuerySwitch in Dafny

QuerySwitch is a browser extension. On a search-results page it reads the
query out of the URL, and then it opens the same query on another search engine.
The engine can be chosen from a context menu, a keyboard command or the popup.
This project models the decision logic of the extension, and proves what it
does:

- **Engine registry** (`Constants`): five built-in engines in a fixed order,
  the storage keys and the default settings.
- **URL query codec** (`Strings`, `UriCodec`, `Url`, `Utils`):
  - `extractQueryFromURL` parses the URL, reads the first value of the engine's
    query parameter with form-urlencoded parsing (section 5.1 of the WHATWG URL
    Standard), and then percent-decodes it a second time with ECMAScript's
    `decodeURIComponent`.
  - `buildSearchURL` splices `encodeURIComponent(query)` (UTF-8
    percent-encoding, section 2.1 of RFC 3986) into the first `{query}` of the
    template.
- **Detection** (`Utils`):
  - `detectSearchEngine` is a first-match search over the built-in patterns. It
    is modelled as a method with nested loops, proved against the recursive
    first-match function `DetectFrom`.
  - Each pattern `/H.*[?&]P=/` is a declarative predicate. A recursive matcher
    is proved equivalent to it.
- **Enabled engines** (`Utils`): `getEnabledEngines` merges the built-in and
  custom tables (custom wins) and keeps an engine unless its flag is `false`.
  Each kept record is tagged with its key. It is a loop, proved against a
  filter function.
- **Switch pipeline** (`Background`): the `handleSwitch` guard chain, the
  menu-item and command prefix stripping, the `getCurrentQuery` reply, and the
  install-time storage.
- **Options page** (`Options`): a class `OptionsPage` whose fields are the
  `shortcutInputs` map, the page's view of sync storage, and the page's own
  `DEFAULT_SETTINGS` object. Its methods are:
  - key capture and clearing of shortcuts;
  - loading the shortcuts from the commands;
  - toggle, delete, add and reset of the engine tables;
  - the language change.
- **Popup** (`Popup`): the "enabled and not the current engine" list, and which
  view the popup shows.

A JavaScript plain object used as a table is an insertion-ordered list of
key/value pairs (`OrderedDict`). Its operations are assignment `o[k] = v`,
`delete o[k]` and the spread `{ ...a, ...b }`. Strings are sequences of
Unicode scalar values.

Three behaviours of the code are worth knowing:

- Building a URL and extracting from it gives back a non-empty query only
  when the query has no `%`. The code decodes twice: the form parser of
  `URLSearchParams` decodes once and `decodeURIComponent` decodes again. So
  the round trip fails for every query containing `%`
  (`Utils.BuiltinRoundTrip`, `Utils.ExtractDecodesTwice`).
- A built URL can contain `{query}`. No `{query}` survives when the
  placeholder is the template's only `{` (`Utils.BuildLeavesNoPlaceholder`).
  But the custom template `{{query}ery}` with query `qu` recreates `{query}`
  (`Utils.BuildCanRecreatePlaceholder`).
- The language handler on the options page falls back to the page's
  `DEFAULT_SETTINGS` object when no settings are stored. It then modifies that
  object in place, so a later reset stores the changed language rather than
  `'en'` (`Options.OptionsPage.LanguageSurvivesReset`).

## Model

| member | source | states |
|---|---|---|
| Constants.BuiltinOrder | shared/constants.js:6-60 | exactly five built-ins, keyed google, baidu, bing, yahoo, duckduckgo in that order, with distinct keys |
| Constants.BuiltinIds | shared/constants.js:7-59 | each built-in's `id` equals its key, and every built-in pattern is a host-and-parameter pattern |
| Constants.StorageKeysDistinct | shared/constants.js:63-74 | the three storage keys are distinct and the default language is `'en'` |
| OrderedDict.Get | shared/utils.js:80 | `o[k]` is undefined exactly when no entry has key `k`, and otherwise is the value of an entry with that key |
| OrderedDict.ToMap | shared/utils.js:75 | the table as a map has exactly the table's keys |
| OrderedDict.PutKeys | options/options.js:300 | assignment keeps the key order and appends the key when it is new |
| OrderedDict.PutToMap | options/options.js:300 | assignment changes that key's value and no other |
| OrderedDict.PutDistinct | options/options.js:300 | assignment keeps the keys distinct |
| OrderedDict.RemoveToMap | options/options.js:252 | `delete` removes exactly that key |
| OrderedDict.RemoveKeys | options/options.js:252 | `delete` keeps the other keys in their order |
| OrderedDict.RemoveDistinct | options/options.js:252 | `delete` keeps the keys distinct |
| OrderedDict.SpreadToMap | shared/utils.js:75 | the spread's map is the first table's map overridden by the second's |
| OrderedDict.SpreadKeys | shared/utils.js:75 | the spread's keys are the first table's keys followed by the second table's new keys, in order |
| OrderedDict.SpreadDistinct | shared/utils.js:75 | the spread of a table with distinct keys has distinct keys |
| Strings.IndexOf | shared/utils.js:33 | `indexOf` finds a position exactly when the pattern occurs, and it is the first occurrence |
| Strings.ReplaceFirst | shared/utils.js:33 | `replace` with a string pattern splices the replacement at the first occurrence, and returns the string unchanged when there is none |
| Strings.Trim | options/options.js:273-276 | `trim` returns a slice with no white space at either end, and everything cut off is white space |
| Strings.JoinSplit | options/options.js:208 | joining the pieces of a split gives back the string |
| Strings.SplitJoin | options/options.js:208 | splitting a join of separator-free pieces gives back the pieces |
| Strings.NatToString | options/options.js:288 | `String(n)` is a non-empty string of decimal digits |
| Strings.NatToStringInjective | options/options.js:288 | different timestamps give different digit strings |
| UriCodec.Utf8RoundTrip | shared/utils.js:17-32 | UTF-8 decoding undoes UTF-8 encoding |
| UriCodec.PercentEscape | shared/utils.js:32 | each byte becomes `%` and two hex digits that denote that byte |
| UriCodec.EncodedTextOnly | shared/utils.js:32 | `encodeURIComponent` output consists of unreserved characters and `%XX` triples |
| UriCodec.EncodedTextExcludes | shared/utils.js:32-33 | encoded text contains no `{`, `}`, `?`, `&`, `#`, `=`, `+`, `$` and no control or space character |
| UriCodec.EncodeURIComponent | shared/utils.js:32 | encoding never shortens a string, gives the empty string only for the empty string, and copies a string of unreserved characters unchanged |
| UriCodec.DecodeURIComponent | shared/utils.js:17 | a successful decoding is empty exactly when its input is |
| UriCodec.DecodeEncode | shared/utils.js:17-32 | `decodeURIComponent(encodeURIComponent(s))` is `s` |
| UriCodec.DecodeIdentityIff | shared/utils.js:17 | `decodeURIComponent` returns its input unchanged exactly when the input has no `%` |
| UriCodec.DecodeShrinks | shared/utils.js:17 | a successful decode is never longer than its input, and is strictly shorter when the input has a `%` |
| Url.SearchParamsGet | shared/utils.js:15 | `params.get` is absent exactly when no pair has the name, and otherwise is the first such pair's value |
| Url.NameValue | shared/utils.js:14 | a form piece splits at its first `=` into name and value, or into the whole piece and an empty value |
| Url.UrlQuery | shared/utils.js:13-14 | the query read from a parsed URL never holds a `#`: the fragment is cut off first |
| Url.UrlQueryOf | shared/utils.js:13-14 | for a URL with a scheme, no `?` before the query and no `#`, the parsed query is the text after `?` |
| Url.FormParse | shared/utils.js:14 | a query without `&` parses to no pair when empty and to exactly one pair otherwise |
| Url.FormParseSingle | shared/utils.js:14 | a single `name=value` query parses to one decoded pair |
| Url.FirstEqualsUnique | shared/utils.js:14 | a `name=value` text with no `=` in either name determines both name and value |
| Url.PercentDecodeEncoded | shared/utils.js:14-32 | the form parser's percent-decoding of an encoded query gives the query's UTF-8 bytes |
| Url.FormDecodeEncoded | shared/utils.js:14-32 | the form parser's decoding undoes `encodeURIComponent` |
| Url.FormDecodePlain | shared/utils.js:14 | a value with no `%` or `+` is decoded to itself |
| Utils.ExtractQueryFromURL | shared/utils.js:11-23 | an extracted query is never empty, and comes only from a URL that parses and holds the engine's parameter |
| Utils.ExtractFailures | shared/utils.js:12-22 | an unparsable URL, a missing parameter or an empty value gives `null` |
| Utils.ExtractDecodesTwice | shared/utils.js:14-17 | a present, non-empty value is passed through `decodeURIComponent` again, and comes back unchanged exactly when it has no `%` |
| Utils.BuildSearchURL | shared/utils.js:31-34 | the result is the template before the first `{query}`, then the encoded query, then the rest; a template with no placeholder is returned unchanged |
| Utils.BuildLeavesNoPlaceholder | shared/utils.js:31-34 | in a template whose only `{` is the placeholder, the built URL has no `{` and no `{query}` |
| Utils.BuildCanRecreatePlaceholder | shared/utils.js:33 | the template `{{query}ery}` with query `qu` builds exactly `{query}` |
| Utils.BuiltinTemplate | shared/constants.js:10-57 | every built-in template is `base?param={query}`, with its own query parameter and a single placeholder |
| Utils.ExtractBuilt | shared/utils.js:11-34 | extracting from a URL built from such a template gives `null` for the empty query and otherwise decodes the query once more |
| Utils.BuiltinRoundTrip | shared/utils.js:11-34 | for every built-in, a non-empty query without `%` comes back unchanged, and a query with `%` never comes back unchanged |
| Utils.PatternTestMatches | shared/constants.js:12-55 | the executable matcher accepts a URL exactly when the pattern `/H.*[?&]P=/` matches it |
| Utils.EngineMatchesRegex | shared/utils.js:43-44 | an engine matches exactly when one of its patterns matches |
| Utils.DetectFrom | shared/utils.js:42-49 | the search from position `n` returns the first matching engine at or after `n`, or nothing when none matches |
| Utils.DetectSearchEngine | shared/utils.js:41-50 | the nested loops return `Detect(url)`, the first-match result of `DetectFrom` |
| Utils.AnyPatternMatches | shared/utils.js:43-47 | the inner loop over one engine's patterns answers whether some pattern of that engine matches the URL |
| Utils.IsSearchResultsPage | shared/utils.js:57-59 | true exactly when detection finds an engine, that is, when some built-in pattern matches |
| Utils.DetectNoneIff | shared/utils.js:41-50 | detection fails exactly when no built-in engine matches |
| Utils.DetectFirstMatch | shared/utils.js:41-50 | detection returns engine `n` exactly when engine `n` matches and no earlier engine does |
| Utils.GetEnabledEngines | shared/utils.js:65-87 | the loop returns `EnabledEngines`, the merged, filtered and tagged list |
| Utils.EnabledOfConcat | shared/utils.js:79-84 | filtering a concatenation filters each part |
| Utils.EnabledKeysIn | shared/utils.js:80 | a key survives the filter exactly when it is present and its flag is not `false` |
| Utils.EnabledEnginesSpec | shared/utils.js:75-86 | the list follows the built-in keys then the new custom keys, filtered by flag; each item is the merged record (custom wins) with `id` set to its key |
| Utils.EnabledEnginesListed | shared/utils.js:75-86 | an id is listed exactly when it is a merged key whose flag is not `false` |
| Utils.BuiltMatches | shared/utils.js:44 | a built URL `base?param=enc` matches pattern `(H, P)` exactly when `H` occurs in the base and `P` is the query parameter |
| Utils.BuiltMatchTable | shared/constants.js:6-60 | a URL built by built-in `n` is matched by built-in `m` exactly when `m` is `n` |
| Utils.BuiltinDetected | shared/utils.js:31-50 | detecting a URL built by any built-in, for any query, returns that same engine |
| Utils.DetectNoQueryMark | shared/utils.js:41-50 | a URL with no `?` and no `&` is never detected |
| Utils.HostSuffixMatches | shared/constants.js:44-45 | a pattern whose host ends in another pattern's host (same parameter) implies that other pattern |
| Utils.YahooSecondRedundant | shared/constants.js:44-45 | any URL that Yahoo's second pattern matches, its first pattern also matches |
| Utils.GoogleQueryParamPage | shared/constants.js:13-15 | a Google URL with only `query=` is detected as Google, but extraction (which reads `q`) gives `null` |
| Utils.BaiduWordParamPage | shared/constants.js:24-26 | a Baidu URL with only `word=` is detected as Baidu, but extraction (which reads `wd`) gives `null` |
| Utils.PlainQuery | shared/utils.js:13-14 | a URL `base?name=value` of plain characters has query `name=value`, which parses to the single pair |
| Background.FindById | background.js:190 | `find` returns the first record with that id, and nothing exactly when no record has it |
| Background.FindEnabled | background.js:189-190 | the target lookup yields the merged record for the id, tagged, exactly when the id is a merged key that is enabled |
| Background.HandleSwitch | background.js:156-210 | a tab is opened only for a tab with a URL, a successful storage read and a successful tab creation, and always at index tab id + 1 |
| Background.HandleSwitchOpens | background.js:156-210 | a tab is opened exactly when there is a URL, the page is detected, a non-empty query is extracted, storage is read, the target is enabled, and tab creation succeeds. It opens the target's URL for that query at index tab id + 1 |
| Background.HandleSwitchGuardOrder | background.js:159-186 | a missing tab or URL, an undetected page and a missing query each give their own notification, in that order, whatever the target and storage |
| Background.HandleSwitchOutcomes | background.js:156-210 | the only outcomes are the five notifications and opening a tab; a failed storage read or tab creation gives the generic failure |
| Background.SameEngineAllowed | background.js:188-201 | switching to the engine the page is already on opens a tab rather than being refused |
| Background.OpensWith | background.js:178-201 | with the guards passed, the URL opened is built from the query extracted with the current engine's parameter and from the found target |
| Background.FindBuiltin | background.js:189-190 | an enabled built-in that no custom engine overrides is found as its own record |
| Background.SwitchBetweenBuiltins | background.js:156-210 | from a page built by one built-in with a query without `%`, switching to an enabled built-in opens that engine's URL for the same query |
| Background.BuiltPage | shared/utils.js:11-50 | a page built by a built-in for a non-empty query without `%` is non-empty, detected as that engine, and yields the query back |
| Background.OnMenuClicked | background.js:120-125 | a menu click switches exactly for ids starting with `queryswitch-switch-to-`, targeting the rest of the id |
| Background.MenuItemRoundTrip | background.js:120-125 | clicking the item `queryswitch-switch-to-<id>` switches to `<id>` |
| Background.OnCommand | background.js:130-149 | a command switches exactly for names starting with `switch-to-`, targeting the rest. With no tab given and no active tab it reports `No active tab`; otherwise it uses the given tab, or else the first active tab |
| Background.GetCurrentQuery | background.js:239-262 | no active tab gives an error; an undetected page gives not-a-search-page; otherwise the reply holds the query extracted with the parameter of the built-in that `Detect` found (possibly `null`) and that built-in's key |
| Background.NoUrlNotSearchPage | background.js:246-251 | a tab without a URL is reported as not a search page |
| Background.CurrentQueryOfBuiltPage | background.js:246-258 | on the results page that a built-in builds for a non-empty query without `%`, the reply names that built-in and carries the query back |
| Background.InstallEnablesBuiltins | background.js:22-29 | after install, the enabled list is the five built-ins in order and the settings are the defaults |
| Options.ShortcutsOfSpec | options/options.js:97-132 | the shortcut map has an entry exactly for each `switch-to-` command, holding the last such command's shortcut, or `''` when unset |
| Options.FormatKey | options/options.js:205 | a one-unit key that is a lower-case ASCII letter comes out as its upper case, and any other one-unit key is kept; the result is never a lower-case ASCII letter; any other key is kept verbatim |
| Options.ShortcutText | options/options.js:194-208 | joining the held modifiers and the key with `+` is `Ctrl+`, `Alt+`, `Shift+`, `Command+` (only those held, in that order) followed by the key |
| Options.KeydownShortcut | options/options.js:181-210 | a key press leaves the shortcut alone exactly on Escape, an empty key or a lone modifier; clears it exactly on Backspace or Delete; otherwise writes the modifier text and the key |
| Options.ShortcutSplits | options/options.js:208 | a captured shortcut whose key is not `+` splits on `+` back into the modifiers and the key |
| Options.CtrlShiftLetter | options/options.js:194-208 | Ctrl+Shift and a lower-case letter capture as `Ctrl+Shift+` and the upper-case letter |
| Options.DefaultShortcutsCapturable | options/options.js:9-13 | each of the three default shortcuts is exactly what capturing Ctrl+Shift and that engine's letter writes |
| Options.CustomIdFresh | options/options.js:288 | a `custom_` id never names a built-in, and two timestamps give two ids |
| Options.EngineFormAlert | options/options.js:272-286 | the form is accepted exactly when every trimmed field is non-empty and the trimmed URL holds `{query}`; the fill-all-fields alert comes exactly when a trimmed field is empty, so it wins over the placeholder alert; the placeholder alert comes exactly when every trimmed field is non-empty and the trimmed URL lacks `{query}` |
| Options.AcceptedEngineBuilds | options/options.js:272-295 | an accepted form gives a record with non-empty fields, enabled and without `id`, whose template builds URLs by substituting its first `{query}` |
| Options.AddedEngineKept | options/options.js:288-301 | adding under a new id appends exactly that key and leaves the other custom engines unchanged; every other id is found as before, whatever the flags |
| Options.AddedEngineListed | options/options.js:288-301 | when no flag disables the new id, the added engine is listed under it |
| Options.DeletedEngineGone | options/options.js:244-258 | delete drops exactly that key, keeping the others in order; afterwards the id is found only when it is an enabled built-in key |
| Options.ToggledEngine | options/options.js:230-241 | after a toggle, the id is listed exactly when enabled and present, and every other id is found as before |
| Options.OptionsPage.constructor | options/options.js:6 | the page starts with an empty shortcut map, the stored tables and the default settings |
| Options.OptionsPage.LoadShortcuts | options/options.js:97-119 | the loop rebuilds the map as `ShortcutsOf(commands)`, or leaves it empty when the commands cannot be read |
| Options.OptionsPage.ClearShortcut | options/options.js:165-168 | only that command's shortcut changes, to `''` |
| Options.OptionsPage.HandleShortcutKeydown | options/options.js:176-212 | the shortcut map changes only at the pressed command's entry, to what the capture writes, and nothing else changes |
| Options.OptionsPage.ChangeLanguage | options/options.js:219-227 | writes the language into the stored settings, or, when none are stored, into the page's default settings object, which is then stored; the selected language becomes the new one |
| Options.OptionsPage.ToggleEngine | options/options.js:230-241 | only `engines[id]` changes, to the new flag, starting from `{}` when no flags are stored |
| Options.OptionsPage.DeleteEngine | options/options.js:244-258 | once confirmed, only the custom key is removed; otherwise nothing changes |
| Options.OptionsPage.AddEngine | options/options.js:272-306 | raises `Please fill in all fields` when any trimmed field is empty, else `URL must contain {query} placeholder` when the URL lacks it. Otherwise, if the pattern compiles, stores the trimmed engine under `custom_<now>`; in every other case storage is unchanged |
| Options.OptionsPage.StoreCustomEngine | options/options.js:297-301 | `customEngines[id] = engine` is written back, starting from `{}` when none are stored, keeping keys distinct |
| Options.OptionsPage.Reset | options/options.js:315-327 | once confirmed, stores `{}`, `{}` and the page's default settings, and reloads the shortcuts |
| Options.OptionsPage.LanguageSurvivesReset | options/options.js:219-227 | a language change made while no settings are stored is what a later reset stores |
| Popup.OtherEnabledIsDropped | popup/popup.js:84-92 | the popup's filter is the enabled list with the current engine's id dropped |
| Popup.DropIdMembers | popup/popup.js:87-91 | after dropping the current id, an id is present exactly when it differs from the current one and was present before |
| Popup.ListedEnginesSpec | popup/popup.js:84-92 | the list is the enabled engines, in merged order and tagged with their keys, minus the current one; an id is listed exactly when it is a merged key, its flag is not `false` and it is not the current engine's |
| Popup.LoadEngines | popup/popup.js:69-109 | the error list shows exactly when storage cannot be read; a shown list is non-empty and never holds the current engine |
| Popup.LoadEnginesCases | popup/popup.js:69-109 | "No other engines available" shows exactly when every merged engine is disabled or current, and a shown list never holds the current engine |
| Popup.ShownQuery | popup/popup.js:53 | the query shown is `-` exactly when the query is `null`, empty or itself `-`, and otherwise is the query |
| Popup.InitializePopup | popup/popup.js:13-54 | the search-page view shows exactly when there is an active tab and a reply saying search page; it shows that reply's query and the engines other than the reported one (never the reported engine), and an error list when storage cannot be read |

## Left out

- All browser calls are left out: storage get and set, tabs, notifications, commands, context menus and `i18n`. Storage reads are parameters. Writes are new values of the `OptionsPage` fields or of the returned outcome. In the background script and the popup, a failed storage read or tab creation is a parameter (`None`, `created = false`). On the options page, read and write failures are not modelled: there a failed read throws and nothing is written, but the model's `ToggleEngine`, `DeleteEngine`, `AddEngine` and `ChangeLanguage` always read the `OptionsPage` fields and always write.
- DOM rendering, event wiring, `escapeHtml`, focus and blur handling, and the text of `alert`/`confirm` dialogs are left out. A confirmation is a boolean parameter.
- `createContextMenu` is left out, because it is asynchronous I/O over `Promise.all`. So is the `switchToEngine` message reply, which answers before the switch finishes.
- `shared/i18n.js` is not part of this model. Neither is `content.js`: its `getCurrentPageQuery` only composes detection and extraction, which are modelled. The popup takes its reply as a `PageInfo` parameter.
- `saveShortcuts` and `resetShortcuts` are left out. They only call `chrome.commands.update`.
- `loadSettings` and `loadEngines` on the options page only render. The language they select is `Options.OptionsPage.SelectedLanguage`.
- `openSearchInNewTab` is represented only by its outcome: the URL, and the tab id + 1 that the code passes as the new tab's index.
- `Date.now()` is the parameter `now`. Whether `new RegExp(pattern)` throws is the parameter `compiles`.
- Custom engines' regular expressions are kept as their source text, because detection never consults them. Storage would serialise a `RegExp` object to `{}`; that is not modelled.
- `new URL(url)` is modelled as:
  - stripping leading and trailing C0 control and space characters, and removing tabs and newlines;
  - a scheme check;
  - the query between the first `?` and the first `#`.

  Host and port validation are not modelled, nor is the parser's own percent-encoding of the query. The form parser's percent-decoding undoes that encoding byte for byte.
- Options.FormatKey: upper-cases only ASCII `a`-`z`. JavaScript's `toUpperCase` also maps other letters, and some of them to several characters.
- `encodeURIComponent` throwing on lone surrogates is left out. Strings are sequences of Unicode scalar values.
- The engine flags are modelled as `map<string, bool>`. The code only ever stores `{ enabled: <boolean> }`, and reads only `.enabled !== false`.
- Concurrency is left out. Each options handler's read-modify-write of storage happens at once.
