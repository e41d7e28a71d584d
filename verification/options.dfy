/**
 * The options page: capturing keyboard shortcuts into `shortcutInputs`, and
 * the handlers that edit the engine flags, the custom engines and the
 * settings in sync storage.
 */
module Options {
  import opened Wrappers
  import opened Strings
  import opened OrderedDict
  import opened Constants
  import opened Utils
  import opened UriCodec
  import Background

  /** A command as `chrome.commands.getAll` reports it; `None` is an unset shortcut. */
  datatype Command = Command(name: string, shortcut: Option<string>)

  /** The parts of a `keydown` event the shortcut capture reads. */
  datatype KeyEvent = KeyEvent(key: string, ctrlKey: bool, altKey: bool, shiftKey: bool, metaKey: bool)

  /** `DEFAULT_SHORTCUTS`, the manifest's suggested keys. */
  const DefaultShortcuts: map<string, string> := map[
    "switch-to-google" := "Ctrl+Shift+G",
    "switch-to-baidu" := "Ctrl+Shift+B",
    "switch-to-bing" := "Ctrl+Shift+M"]

  const FillAllFields: string := "Please fill in all fields"
  const NeedPlaceholder: string := "URL must contain {query} placeholder"
  const CustomIdPrefix: string := "custom_"

  // ---------------------------------------------------------------- shortcuts

  /** The shortcut map `loadShortcuts` builds: one entry per `switch-to-` command, a later command overriding an earlier one. */
  function ShortcutsOf(commands: seq<Command>): map<string, string>
  {
    if commands == [] then map[]
    else
      var m := ShortcutsOf(commands[..|commands| - 1]);
      var c := commands[|commands| - 1];
      if StartsWith(c.name, Background.CommandPrefix) then m[c.name := c.shortcut.GetOr("")] else m
  }

  /**
   * A command name is in the map exactly when it is a `switch-to-` command,
   * and its shortcut is that of the last command of that name (empty when unset).
   */
  lemma {:induction false} ShortcutsOfSpec(commands: seq<Command>, k: string)
    ensures k in ShortcutsOf(commands) <==>
      StartsWith(k, Background.CommandPrefix) && exists i | 0 <= i < |commands| :: commands[i].name == k
    ensures k in ShortcutsOf(commands) ==> exists i | 0 <= i < |commands| ::
      && commands[i].name == k
      && ShortcutsOf(commands)[k] == commands[i].shortcut.GetOr("")
      && forall j | i < j < |commands| :: commands[j].name != k
  {
    if commands != [] {
      var n := |commands| - 1;
      var init := commands[..n];
      ShortcutsOfSpec(init, k);
      if commands[n].name == k {
        assert commands[n].name == k;
      } else {
        if exists i | 0 <= i < |commands| :: commands[i].name == k {
          var i :| 0 <= i < |commands| && commands[i].name == k;
          assert init[i].name == k;
        }
        if k in ShortcutsOf(init) {
          var i :| 0 <= i < |init| && init[i].name == k && ShortcutsOf(init)[k] == init[i].shortcut.GetOr("")
            && forall j | i < j < |init| :: init[j].name != k;
          assert commands[i] == init[i];
          assert forall j | i < j < |commands| :: commands[j].name != k by {
            forall j | i < j < |commands| ensures commands[j].name != k {
              if j < n {
                assert commands[j] == init[j];
              }
            }
          }
        }
      }
    }
  }

  predicate IsModifierKey(key: string)
  {
    key == "Control" || key == "Alt" || key == "Shift" || key == "Meta"
  }

  /** `toUpperCase` on the ASCII letters. */
  function AsciiUpper(c: char): char
  {
    if 'a' <= c <= 'z' then (c as int - 32) as char else c
  }

  /**
   * `key.length === 1 ? key.toUpperCase() : key`. A JavaScript length of one
   * is a single character below U+10000; such a key that is a lower-case
   * ASCII letter comes out as its upper case, any other key as it was.
   */
  function FormatKey(key: string): (r: string)
    ensures |key| == 1 && key[0] as int < 0x1_0000 ==>
      && |r| == 1 && !('a' <= r[0] <= 'z')
      && ('a' <= key[0] <= 'z' ==> r[0] as int + 32 == key[0] as int)
      && (!('a' <= key[0] <= 'z') ==> r == key)
    ensures !(|key| == 1 && key[0] as int < 0x1_0000) ==> r == key
  {
    if |key| == 1 && key[0] as int < 0x1_0000 then [AsciiUpper(key[0])] else key
  }

  /** A modifier's name when it is held. */
  function Held(pressed: bool, name: string): seq<string>
  {
    if pressed then [name] else []
  }

  /** A modifier's name and `+` when it is held. */
  function HeldText(pressed: bool, name: string): string
  {
    if pressed then name + "+" else ""
  }

  /** The modifier names the handler pushes, in its order Ctrl, Alt, Shift, Command. */
  function Modifiers(ev: KeyEvent): seq<string>
  {
    Held(ev.ctrlKey, "Ctrl") + Held(ev.altKey, "Alt") + Held(ev.shiftKey, "Shift") + Held(ev.metaKey, "Command")
  }

  /** The same modifiers written as text, each followed by `+`. */
  function ModifierPrefix(ev: KeyEvent): string
  {
    HeldText(ev.ctrlKey, "Ctrl") + HeldText(ev.altKey, "Alt") + HeldText(ev.shiftKey, "Shift") + HeldText(ev.metaKey, "Command")
  }

  /**
   * What a key press writes into its command's shortcut: it leaves the
   * shortcut alone (`None`) exactly on Escape, an empty key or a lone
   * modifier; it clears it exactly on Backspace or Delete; otherwise it
   * writes the modifier text followed by the key.
   */
  function KeydownShortcut(ev: KeyEvent): (r: Option<string>)
    ensures r.None? <==> ev.key == "Escape" || ev.key == [] || IsModifierKey(ev.key)
    ensures r == Some("") <==> ev.key == "Backspace" || ev.key == "Delete"
    ensures r.Some? && r != Some("") ==> r.value == ModifierPrefix(ev) + FormatKey(ev.key)
  {
    if ev.key == "Escape" then None
    else if ev.key == "Backspace" || ev.key == "Delete" then Some("")
    else if ev.key == [] || IsModifierKey(ev.key) then None
    else
      ShortcutText(ev, FormatKey(ev.key));
      Some(Join(Modifiers(ev) + [FormatKey(ev.key)], "+"))
  }

  /** Putting a held modifier's name in front of a non-empty list puts its text in front of the join. */
  lemma JoinHeld(pressed: bool, name: string, rest: seq<string>)
    requires rest != []
    ensures Join(Held(pressed, name) + rest, "+") == HeldText(pressed, name) + Join(rest, "+")
  {
    if pressed {
      assert ([name] + rest)[1..] == rest;
    } else {
      assert [] + rest == rest;
    }
  }

  /** Joining the modifiers and a key with `+` is the modifier text followed by the key. */
  lemma ShortcutText(ev: KeyEvent, k: string)
    ensures Join(Modifiers(ev) + [k], "+") == ModifierPrefix(ev) + k
  {
    var h1, h2, h3, h4 := Held(ev.ctrlKey, "Ctrl"), Held(ev.altKey, "Alt"), Held(ev.shiftKey, "Shift"), Held(ev.metaKey, "Command");
    var x1, x2, x3, x4 := HeldText(ev.ctrlKey, "Ctrl"), HeldText(ev.altKey, "Alt"), HeldText(ev.shiftKey, "Shift"), HeldText(ev.metaKey, "Command");
    JoinHeld(ev.metaKey, "Command", [k]);
    assert Join([k], "+") == k;
    JoinHeld(ev.shiftKey, "Shift", h4 + [k]);
    JoinHeld(ev.altKey, "Alt", h3 + (h4 + [k]));
    JoinHeld(ev.ctrlKey, "Ctrl", h2 + (h3 + (h4 + [k])));
    assert Join(h1 + (h2 + (h3 + (h4 + [k]))), "+") == x1 + (x2 + (x3 + (x4 + k)));
    SeqAssoc4(h1, h2, h3, h4, [k]);
    SeqAssoc4(x1, x2, x3, x4, k);
  }

  lemma SeqAssoc4<T>(a: seq<T>, b: seq<T>, c: seq<T>, d: seq<T>, e: seq<T>)
    ensures a + b + c + d + e == a + (b + (c + (d + e)))
  {
  }

  /**
   * A captured shortcut splits on `+` back into the modifiers and the key,
   * as long as the key itself is not `+`.
   */
  lemma ShortcutSplits(ev: KeyEvent)
    requires KeydownShortcut(ev).Some? && ev.key != "Backspace" && ev.key != "Delete"
    requires '+' !in FormatKey(ev.key)
    ensures Split(KeydownShortcut(ev).value, '+') == Modifiers(ev) + [FormatKey(ev.key)]
  {
    var parts := Modifiers(ev) + [FormatKey(ev.key)];
    assert KeydownShortcut(ev).value == Join(parts, "+");
    PartsWithoutPlus(ev, FormatKey(ev.key));
    assert "+" == ['+'];
    SplitJoin(parts, '+');
  }

  /** No modifier name holds `+`, so the parts of a shortcut with a `+`-free key are `+`-free. */
  lemma PartsWithoutPlus(ev: KeyEvent, k: string)
    requires '+' !in k
    ensures forall i | 0 <= i < |Modifiers(ev) + [k]| :: '+' !in (Modifiers(ev) + [k])[i]
  {
  }

  /** Ctrl+Shift and a lower-case letter capture as `Ctrl+Shift+` and the upper-case letter. */
  lemma CtrlShiftLetter(c: char)
    requires 'a' <= c <= 'z'
    ensures KeydownShortcut(KeyEvent([c], true, false, true, false)) == Some("Ctrl+Shift+" + [AsciiUpper(c)])
  {
    var ev := KeyEvent([c], true, false, true, false);
    ShortcutText(ev, [AsciiUpper(c)]);
    assert ModifierPrefix(ev) == "Ctrl+Shift+";
  }

  /** Every default shortcut is what the capture writes for Ctrl, Shift and the engine's letter. */
  lemma DefaultShortcutsCapturable()
    ensures DefaultShortcuts.Keys == {"switch-to-google", "switch-to-baidu", "switch-to-bing"}
    ensures KeydownShortcut(KeyEvent("g", true, false, true, false)) == Some(DefaultShortcuts["switch-to-google"])
    ensures KeydownShortcut(KeyEvent("b", true, false, true, false)) == Some(DefaultShortcuts["switch-to-baidu"])
    ensures KeydownShortcut(KeyEvent("m", true, false, true, false)) == Some(DefaultShortcuts["switch-to-bing"])
  {
    CtrlShiftLetter('g');
    CtrlShiftLetter('b');
    CtrlShiftLetter('m');
    assert "g" == ['g'] && "b" == ['b'] && "m" == ['m'];
    assert AsciiUpper('g') == 'G' && AsciiUpper('b') == 'B' && AsciiUpper('m') == 'M';
    assert "Ctrl+Shift+" + ['G'] == DefaultShortcuts["switch-to-google"];
    assert "Ctrl+Shift+" + ['B'] == DefaultShortcuts["switch-to-baidu"];
    assert "Ctrl+Shift+" + ['M'] == DefaultShortcuts["switch-to-bing"];
  }

  // ---------------------------------------------------------------- custom engines

  /** `'custom_' + Date.now()`. */
  function CustomId(now: nat): string
  {
    CustomIdPrefix + NatToString(now)
  }

  /** A custom id never names a built-in engine, and two timestamps give two ids. */
  lemma CustomIdFresh(now: nat, other: nat)
    ensures !HasKey(BuiltinEngines, CustomId(now))
    ensures now != other ==> CustomId(now) != CustomId(other)
  {
    var id := CustomId(now);
    assert id[0] == 'c';
    forall i | 0 <= i < |BuiltinEngines| ensures BuiltinEngines[i].0 != id {
      assert BuiltinEngines[i].0[0] != 'c';
    }
    if CustomId(now) == CustomId(other) {
      assert NatToString(now) == CustomId(now)[|CustomIdPrefix|..];
      assert NatToString(other) == CustomId(other)[|CustomIdPrefix|..];
      NatToStringInjective(now, other);
    }
  }

  /** The alert the add-engine form raises for its (untrimmed) fields, `None` when it accepts them. */
  function EngineFormAlert(name: string, url: string, pattern: string, param: string): (r: Option<string>)
    ensures r.None? <==>
      && Trim(name) != [] && Trim(url) != [] && Trim(pattern) != [] && Trim(param) != []
      && exists k | 0 <= k <= |Trim(url)| - |Placeholder| :: OccursAt(Trim(url), Placeholder, k)
    ensures r == Some(FillAllFields) <==> Trim(name) == [] || Trim(url) == [] || Trim(pattern) == [] || Trim(param) == []
    ensures r == Some(NeedPlaceholder) <==>
      && Trim(name) != [] && Trim(url) != [] && Trim(pattern) != [] && Trim(param) != []
      && !Contains(Trim(url), Placeholder)
  {
    if Trim(name) == [] || Trim(url) == [] || Trim(pattern) == [] || Trim(param) == [] then Some(FillAllFields)
    else if !Contains(Trim(url), Placeholder) then Some(NeedPlaceholder)
    else None
  }

  /** The record the form stores: trimmed fields, one pattern, enabled, no `id`. */
  function NewCustomEngine(name: string, url: string, pattern: string, param: string): Engine
  {
    Engine(None, Trim(name), Trim(url), [CustomRegExp(Trim(pattern))], Trim(param), true)
  }

  /**
   * An accepted form yields a record whose fields are non-empty and whose
   * search URL has a placeholder, so building a search URL from it puts the
   * encoded query in place of the first `{query}`.
   */
  lemma AcceptedEngineBuilds(name: string, url: string, pattern: string, param: string, query: string)
    requires EngineFormAlert(name, url, pattern, param).None?
    ensures var e := NewCustomEngine(name, url, pattern, param);
      && e.name != [] && e.queryParam != [] && e.patterns[0].source != [] && e.enabled && e.id.None?
      && exists k | 0 <= k <= |e.searchUrl| - |Placeholder| ::
        && OccursAt(e.searchUrl, Placeholder, k)
        && BuildSearchURL(query, e) == e.searchUrl[..k] + EncodeURIComponent(query) + e.searchUrl[k + |Placeholder|..]
  {
  }

  /**
   * Adding an engine under a new custom id appends exactly that key, leaves
   * every other custom engine as it was, and `getEnabledEngines` finds every
   * other id as before, whatever the flags say.
   */
  lemma AddedEngineKept(flags: map<string, bool>, custom: Dict<Engine>, now: nat, e: Engine, other: string)
    requires DistinctKeys(custom)
    ensures !HasKey(custom, CustomId(now)) ==> Keys(Put(custom, CustomId(now), e)) == Keys(custom) + [CustomId(now)]
    ensures ToMap(Put(custom, CustomId(now), e)) == ToMap(custom)[CustomId(now) := e]
    ensures other != CustomId(now) ==>
      Background.FindById(EnabledEngines(flags, Put(custom, CustomId(now), e)), other)
        == Background.FindById(EnabledEngines(flags, custom), other)
  {
    var id := CustomId(now);
    PutKeys(custom, id, e);
    PutDistinct(custom, id, e);
    PutToMap(custom, id, e);
    Background.FindEnabled(flags, Put(custom, id, e), other);
    Background.FindEnabled(flags, custom, other);
  }

  /** When no flag disables the new id, `getEnabledEngines` lists the added engine under it. */
  lemma AddedEngineListed(flags: map<string, bool>, custom: Dict<Engine>, now: nat, e: Engine)
    requires DistinctKeys(custom) && IsEnabled(flags, CustomId(now))
    ensures Background.FindById(EnabledEngines(flags, Put(custom, CustomId(now), e)), CustomId(now))
      == Some(Tag(CustomId(now), e))
  {
    var id := CustomId(now);
    PutDistinct(custom, id, e);
    PutToMap(custom, id, e);
    Background.FindEnabled(flags, Put(custom, id, e), id);
  }

  /**
   * Deleting a custom engine drops exactly that key, keeping the others in
   * order. Afterwards its id is found again only when it is a
   * built-in key that is enabled: deleting a custom record that reused a
   * built-in key brings the built-in back.
   */
  lemma DeletedEngineGone(flags: map<string, bool>, custom: Dict<Engine>, id: string)
    requires DistinctKeys(custom)
    ensures Keys(Remove(custom, id)) == Without(Keys(custom), id)
    ensures ToMap(Remove(custom, id)) == ToMap(custom) - {id}
    ensures Background.FindById(EnabledEngines(flags, Remove(custom, id)), id)
      == if id in ToMap(BuiltinEngines) && IsEnabled(flags, id) then Some(Tag(id, ToMap(BuiltinEngines)[id])) else None
  {
    RemoveDistinct(custom, id);
    RemoveToMap(custom, id);
    RemoveKeys(custom, id);
    Background.FindEnabled(flags, Remove(custom, id), id);
  }

  /**
   * Toggling an engine decides whether `getEnabledEngines` lists it, and
   * leaves every other engine as it was.
   */
  lemma ToggledEngine(flags: map<string, bool>, custom: Dict<Engine>, id: string, enabled: bool, other: string)
    requires DistinctKeys(custom)
    ensures var m := ToMap(BuiltinEngines) + ToMap(custom);
      Background.FindById(EnabledEngines(flags[id := enabled], custom), id)
        == if enabled && id in m then Some(Tag(id, m[id])) else None
    ensures other != id ==>
      Background.FindById(EnabledEngines(flags[id := enabled], custom), other)
        == Background.FindById(EnabledEngines(flags, custom), other)
  {
    Background.FindEnabled(flags[id := enabled], custom, id);
    Background.FindEnabled(flags[id := enabled], custom, other);
    Background.FindEnabled(flags, custom, other);
  }

  // ---------------------------------------------------------------- the page

  /**
   * The options page's state: the shortcut map, its view of sync storage,
   * and its own `DEFAULT_SETTINGS` object, which a language change can modify.
   */
  class OptionsPage {
    /** `shortcutInputs`: command name to the shortcut shown in its input. */
    var shortcutInputs: map<string, string>
    var storage: SyncStorage
    var defaults: Settings

    /** Stored custom engines have distinct keys, as every object does. */
    predicate Valid()
      reads this
    {
      storage.customEngines.Some? ==> DistinctKeys(storage.customEngines.value)
    }

    /** The language `loadSettings` selects: the stored one, else the default's, and `'en'` when that is empty. */
    function SelectedLanguage(): string
      reads this
    {
      var language := storage.settings.GetOr(defaults).language;
      if language == "" then "en" else language
    }

    constructor(stored: SyncStorage)
      requires stored.customEngines.Some? ==> DistinctKeys(stored.customEngines.value)
      ensures Valid()
      ensures shortcutInputs == map[] && storage == stored && defaults == DefaultSettings
    {
      shortcutInputs := map[];
      storage := stored;
      defaults := DefaultSettings;
    }

    /** `loadShortcuts`: rebuilds the map from the commands, or leaves it empty when they cannot be read. */
    method LoadShortcuts(commands: Option<seq<Command>>)
      modifies this
      ensures shortcutInputs == ShortcutsOf(commands.GetOr([]))
      ensures storage == old(storage) && defaults == old(defaults)
    {
      shortcutInputs := map[];
      if commands.Some? {
        var cs := commands.value;
        var i := 0;
        while i < |cs|
          invariant 0 <= i <= |cs|
          invariant shortcutInputs == ShortcutsOf(cs[..i])
          invariant storage == old(storage) && defaults == old(defaults)
        {
          if StartsWith(cs[i].name, Background.CommandPrefix) {
            shortcutInputs := shortcutInputs[cs[i].name := cs[i].shortcut.GetOr("")];
          }
          assert cs[..i + 1][..i] == cs[..i];
          i := i + 1;
        }
        assert cs[..|cs|] == cs;
      }
    }

    /** The clear button: empties one command's shortcut. */
    method ClearShortcut(command: string)
      requires command in shortcutInputs
      modifies this
      ensures shortcutInputs == old(shortcutInputs)[command := ""]
      ensures storage == old(storage) && defaults == old(defaults)
    {
      shortcutInputs := shortcutInputs[command := ""];
    }

    /** `handleShortcutKeydown`: at most the pressed command's shortcut changes, to what `KeydownShortcut` says. */
    method HandleShortcutKeydown(command: string, ev: KeyEvent)
      requires command in shortcutInputs
      modifies this
      ensures shortcutInputs == match KeydownShortcut(ev)
        case None => old(shortcutInputs)
        case Some(s) => old(shortcutInputs)[command := s]
      ensures storage == old(storage) && defaults == old(defaults)
    {
      if ev.key == "Escape" {
        return;
      }
      if ev.key == "Backspace" || ev.key == "Delete" {
        shortcutInputs := shortcutInputs[command := ""];
        return;
      }
      var parts: seq<string> := [];
      if ev.ctrlKey { parts := parts + ["Ctrl"]; }
      assert parts == Held(ev.ctrlKey, "Ctrl");
      if ev.altKey { parts := parts + ["Alt"]; }
      assert parts == Held(ev.ctrlKey, "Ctrl") + Held(ev.altKey, "Alt");
      if ev.shiftKey { parts := parts + ["Shift"]; }
      assert parts == Held(ev.ctrlKey, "Ctrl") + Held(ev.altKey, "Alt") + Held(ev.shiftKey, "Shift");
      if ev.metaKey { parts := parts + ["Command"]; }
      assert parts == Modifiers(ev);
      var key := ev.key;
      if key != [] && !IsModifierKey(key) {
        var formatted := if |key| == 1 && key[0] as int < 0x1_0000 then [AsciiUpper(key[0])] else key;
        parts := parts + [formatted];
        assert parts == Modifiers(ev) + [FormatKey(key)];
        var shortcut := Join(parts, "+");
        shortcutInputs := shortcutInputs[command := shortcut];
      }
    }

    /** The language select: writes the language into the stored settings, or into `DEFAULT_SETTINGS` itself when none are stored. */
    method ChangeLanguage(language: string)
      modifies this
      ensures old(storage.settings).Some? ==>
        && storage == old(storage).(settings := Some(old(storage.settings.value).(language := language)))
        && defaults == old(defaults)
      ensures old(storage.settings).None? ==>
        && defaults == old(defaults).(language := language)
        && storage == old(storage).(settings := Some(defaults))
      ensures shortcutInputs == old(shortcutInputs)
      ensures language != "" ==> SelectedLanguage() == language
    {
      var settings: Settings;
      if storage.settings.Some? {
        settings := storage.settings.value.(language := language);
      } else {
        defaults := defaults.(language := language);
        settings := defaults;
      }
      storage := storage.(settings := Some(settings));
    }

    /** The engine toggle: `engines[engineId] = { enabled }`. */
    method ToggleEngine(id: string, enabled: bool)
      requires Valid()
      modifies this
      ensures Valid()
      ensures storage == old(storage).(engines := Some(old(storage).engines.GetOr(map[])[id := enabled]))
      ensures shortcutInputs == old(shortcutInputs) && defaults == old(defaults)
    {
      var engines := storage.engines.GetOr(map[]);
      engines := engines[id := enabled];
      storage := storage.(engines := Some(engines));
    }

    /** The delete button: `delete customEngines[engineId]` once confirmed. */
    method DeleteEngine(id: string, confirmed: bool)
      requires Valid()
      modifies this
      ensures Valid()
      ensures confirmed ==>
        storage == old(storage).(customEngines := Some(Remove(old(storage).customEngines.GetOr([]), id)))
      ensures !confirmed ==> storage == old(storage)
      ensures shortcutInputs == old(shortcutInputs) && defaults == old(defaults)
    {
      if confirmed {
        var custom := storage.customEngines.GetOr([]);
        RemoveDistinct(custom, id);
        custom := Remove(custom, id);
        storage := storage.(customEngines := Some(custom));
      }
    }

    /**
     * The confirm-add button. `now` is `Date.now()`; `compiles` says whether
     * `new RegExp(pattern)` succeeds, and when it throws nothing is stored
     * and no alert is shown.
     */
    method AddEngine(name: string, url: string, pattern: string, param: string, now: nat, compiles: bool)
      returns (alert: Option<string>)
      requires Valid()
      modifies this
      ensures Valid()
      ensures alert == EngineFormAlert(name, url, pattern, param)
      ensures alert.None? && compiles ==>
        storage == old(storage).(customEngines := Some(Put(old(storage).customEngines.GetOr([]),
          CustomId(now), NewCustomEngine(name, url, pattern, param))))
      ensures alert.Some? || !compiles ==> storage == old(storage)
      ensures shortcutInputs == old(shortcutInputs) && defaults == old(defaults)
    {
      alert := EngineFormAlert(name, url, pattern, param);
      if alert.Some? || !compiles {
        return;
      }
      StoreCustomEngine(CustomId(now), NewCustomEngine(name, url, pattern, param));
    }

    /** `customEngines[engineId] = newEngine`, written back to storage. */
    method StoreCustomEngine(id: string, engine: Engine)
      requires Valid()
      modifies this
      ensures Valid()
      ensures storage == old(storage).(customEngines := Some(Put(old(storage).customEngines.GetOr([]), id, engine)))
      ensures shortcutInputs == old(shortcutInputs) && defaults == old(defaults)
    {
      var custom := storage.customEngines.GetOr([]);
      PutDistinct(custom, id, engine);
      custom := Put(custom, id, engine);
      storage := storage.(customEngines := Some(custom));
    }

    /** The reset button: once confirmed, stores empty tables and `DEFAULT_SETTINGS`, then reloads the shortcuts. */
    method Reset(confirmed: bool, commands: Option<seq<Command>>)
      requires Valid()
      modifies this
      ensures Valid()
      ensures confirmed ==>
        && storage == SyncStorage(Some(map[]), Some([]), Some(old(defaults)))
        && shortcutInputs == ShortcutsOf(commands.GetOr([]))
      ensures !confirmed ==> storage == old(storage) && shortcutInputs == old(shortcutInputs)
      ensures defaults == old(defaults)
    {
      if confirmed {
        storage := SyncStorage(Some(map[]), Some([]), Some(defaults));
        LoadShortcuts(commands);
      }
    }

    /**
     * A language change made while no settings are stored survives a later
     * reset: the reset stores the modified `DEFAULT_SETTINGS`.
     */
    method LanguageSurvivesReset(language: string, commands: Option<seq<Command>>)
      requires Valid() && storage.settings.None?
      modifies this
      ensures storage.settings == Some(old(defaults).(language := language))
      ensures language != "" ==> SelectedLanguage() == language
    {
      ChangeLanguage(language);
      Reset(true, commands);
    }
  }
}
