/** The key/value settings table: upserts, the row fold that rebuilds the
    settings object, and the defaulting projections read by the rest of the app. */
module SettingsDb {
  import opened Common

  /** What `JSON.parse` yields for the JSON texts a boolean setting is saved as.
      Any other text is treated as a parse failure. */
  datatype Json = JBool(b: bool) | JNull

  function ParseJson(text: string): (r: Option<Json>)
    ensures r == Some(JBool(true)) <==> text == "true"
    ensures r == Some(JBool(false)) <==> text == "false"
    ensures r == Some(JNull) <==> text == "null"
  {
    if text == "true" then Some(JBool(true))
    else if text == "false" then Some(JBool(false))
    else if text == "null" then Some(JNull)
    else None
  }

  /** A value handed to `saveSetting`: a string, a boolean or `null`. */
  datatype Value = Str(s: string) | Bool(b: bool) | Null

  /** Strings are stored verbatim, everything else as `JSON.stringify(value)`. */
  function Stringify(v: Value): string {
    match v
    case Str(s) => s
    case Bool(b) => if b then "true" else "false"
    case Null => "null"
  }

  /** A non-string value is read back by `JSON.parse` as itself. */
  lemma ParseOfStringify(v: Value)
    requires !v.Str?
    ensures ParseJson(Stringify(v)) == Some(if v.Bool? then JBool(v.b) else JNull)
  {
  }

  /** The `Settings` object: a field is present only when its row was read. */
  datatype Settings = Settings(
    apiKey: Option<string>, voice: Option<string>, prompt: Option<string>,
    selectedMicId: Option<string>, selectedSpeakerId: Option<string>,
    darkMode: Option<Json>, model: Option<string>)

  const NoSettings := Settings(None, None, None, None, None, None, None)

  const StringKeys := {"apiKey", "voice", "prompt", "selectedMicId", "selectedSpeakerId", "model"}

  predicate Recognised(key: string) {
    key in StringKeys || key == "darkMode"
  }

  /** One iteration of the fold in `getSettings`: a recognised key sets its field;
      a `darkMode` value that does not parse leaves the object as it was. */
  function ApplyRow(s: Settings, key: string, value: string): Settings {
    if key == "apiKey" then s.(apiKey := Some(value))
    else if key == "voice" then s.(voice := Some(value))
    else if key == "prompt" then s.(prompt := Some(value))
    else if key == "selectedMicId" then s.(selectedMicId := Some(value))
    else if key == "selectedSpeakerId" then s.(selectedSpeakerId := Some(value))
    else if key == "darkMode" then
      (match ParseJson(value) case Some(j) => s.(darkMode := Some(j)) case None => s)
    else if key == "model" then s.(model := Some(value))
    else s
  }

  function Field(table: map<string, string>, key: string): Option<string> {
    if key in table then Some(table[key]) else None
  }

  /** The settings a table describes, field by field. */
  function SettingsOf(table: map<string, string>): Settings {
    Settings(
      Field(table, "apiKey"), Field(table, "voice"), Field(table, "prompt"),
      Field(table, "selectedMicId"), Field(table, "selectedSpeakerId"),
      if "darkMode" in table then ParseJson(table["darkMode"]) else None,
      Field(table, "model"))
  }

  /** Folding a row of a key not yet seen is reading the table with that row added. */
  lemma ApplyRowAdds(m: map<string, string>, key: string, value: string)
    requires key !in m
    ensures ApplyRow(SettingsOf(m), key, value) == SettingsOf(m[key := value])
  {
  }

  /** Rows of unrecognised keys do not reach the settings object. */
  lemma UnrecognisedIgnored(m: map<string, string>, key: string, value: string)
    requires !Recognised(key)
    ensures SettingsOf(m[key := value]) == SettingsOf(m)
  {
    assert forall k :: Recognised(k) ==> Field(m[key := value], k) == Field(m, k);
  }

  /** A `darkMode` row that fails to parse leaves that field unset and every other field as read. */
  lemma DarkModeParseFailureIsolated(m: map<string, string>)
    requires "darkMode" in m && ParseJson(m["darkMode"]).None?
    ensures SettingsOf(m).darkMode.None?
    ensures SettingsOf(m) == SettingsOf(m - {"darkMode"})
  {
    var m' := m - {"darkMode"};
    assert forall k :: k in StringKeys ==> Field(m, k) == Field(m', k);
  }

  /** Saving a string under a string-valued key reads back as that string. */
  lemma StringRoundTrip(m: map<string, string>, key: string, s: string)
    requires key in StringKeys
    ensures var r := SettingsOf(m[key := Stringify(Str(s))]);
      match key
      case "apiKey" => r.apiKey == Some(s)
      case "voice" => r.voice == Some(s)
      case "prompt" => r.prompt == Some(s)
      case "selectedMicId" => r.selectedMicId == Some(s)
      case "selectedSpeakerId" => r.selectedSpeakerId == Some(s)
      case _ => r.model == Some(s)
  {
  }

  /** Saving a boolean dark-mode flag reads back as that boolean. */
  lemma DarkModeRoundTrip(m: map<string, string>, b: bool)
    ensures SettingsOf(m["darkMode" := Stringify(Bool(b))]).darkMode == Some(JBool(b))
  {
  }

  /** `null` saved under a string key comes back as the four-letter string "null". */
  lemma NullReadsBackAsText(m: map<string, string>)
    ensures SettingsOf(m["selectedMicId" := Stringify(Null)]).selectedMicId == Some("null")
  {
  }

  /** Restriction of the table to the rows already folded. */
  function Restrict(table: map<string, string>, keys: set<string>): map<string, string> {
    map k | k in table && k in keys :: table[k]
  }

  /** The writes of `saveSettings`, in the order of `Object.entries`: a key whose
      value is `undefined` (`None`) is skipped. */
  function WriteAll(table: map<string, string>, entries: seq<(string, Option<Value>)>): map<string, string>
    decreases |entries|
  {
    if entries == [] then table
    else
      var (k, v) := entries[0];
      WriteAll(if v.Some? then table[k := Stringify(v.value)] else table, entries[1..])
  }

  predicate DistinctKeys(entries: seq<(string, Option<Value>)>) {
    forall i, j :: 0 <= i < j < |entries| ==> entries[i].0 != entries[j].0
  }

  /** After `saveSettings` a key given a value maps to its text, a key given
      `undefined` or not given keeps what it had, and nothing else changes. */
  lemma {:induction false} WriteAllEffect(table: map<string, string>, entries: seq<(string, Option<Value>)>, key: string)
    requires DistinctKeys(entries)
    decreases |entries|
    ensures (exists i :: 0 <= i < |entries| && entries[i].0 == key && entries[i].1.Some?)
      ==> key in WriteAll(table, entries)
    ensures forall i :: (0 <= i < |entries| && entries[i].0 == key && entries[i].1.Some?
      ==> WriteAll(table, entries)[key] == Stringify(entries[i].1.value))
    ensures (forall i :: 0 <= i < |entries| && entries[i].0 == key ==> entries[i].1.None?)
      ==> Field(WriteAll(table, entries), key) == Field(table, key)
  {
    if entries != [] {
      var (k, v) := entries[0];
      var table' := if v.Some? then table[k := Stringify(v.value)] else table;
      assert DistinctKeys(entries[1..]);
      WriteAllEffect(table', entries[1..], key);
      if k == key {
        assert forall i :: 1 <= i < |entries| ==> entries[i].0 != key;
        FieldUnwritten(table', entries[1..], key);
      }
    }
  }

  lemma {:induction false} FieldUnwritten(table: map<string, string>, entries: seq<(string, Option<Value>)>, key: string)
    requires forall i :: 0 <= i < |entries| ==> entries[i].0 != key
    decreases |entries|
    ensures Field(WriteAll(table, entries), key) == Field(table, key)
  {
    if entries != [] {
      var (k, v) := entries[0];
      FieldUnwritten(if v.Some? then table[k := Stringify(v.value)] else table, entries[1..], key);
    }
  }

  // ---------------------------------------------------------------------------
  // Projections

  datatype DeviceSettings = DeviceSettings(selectedMicId: Option<string>, selectedSpeakerId: Option<string>)

  /** `getDeviceSettings`: a missing or empty id becomes `null`. */
  function DeviceSettingsOf(s: Settings): (d: DeviceSettings)
    ensures d.selectedMicId.None? <==> !Truthy(s.selectedMicId)
    ensures d.selectedSpeakerId.None? <==> !Truthy(s.selectedSpeakerId)
    ensures d.selectedMicId.Some? ==> d.selectedMicId == s.selectedMicId
    ensures d.selectedSpeakerId.Some? ==> d.selectedSpeakerId == s.selectedSpeakerId
  {
    DeviceSettings(OrElse(s.selectedMicId, None), OrElse(s.selectedSpeakerId, None))
  }

  datatype OpenAISettings = OpenAISettings(
    apiKey: string, voice: string, prompt: Option<string>, darkMode: bool, model: string)

  const DefaultModel := "gpt-4o-realtime-preview"
  const DefaultVoice := "alloy"

  /** `getOpenAISettings`: nothing unless one of the four provider fields is
      non-empty; then each field, or its default when missing or empty. */
  function OpenAISettingsOf(s: Settings): (r: Option<OpenAISettings>)
    ensures r.None? <==> !Truthy(s.apiKey) && !Truthy(s.voice) && !Truthy(s.prompt) && !Truthy(s.model)
    ensures r.Some? ==> (Truthy(s.apiKey) ==> r.value.apiKey == s.apiKey.value) && (!Truthy(s.apiKey) ==> r.value.apiKey == "")
    ensures r.Some? ==> (Truthy(s.voice) ==> r.value.voice == s.voice.value) && (!Truthy(s.voice) ==> r.value.voice == DefaultVoice)
    ensures r.Some? ==> (Truthy(s.model) ==> r.value.model == s.model.value) && (!Truthy(s.model) ==> r.value.model == DefaultModel)
    ensures r.Some? ==> r.value.prompt == s.prompt && (r.value.darkMode <==> s.darkMode == Some(JBool(true)))
  {
    if Truthy(s.apiKey) || Truthy(s.voice) || Truthy(s.prompt) || Truthy(s.model) then
      Some(OpenAISettings(
        OrDefault(s.apiKey, ""), OrDefault(s.voice, DefaultVoice), s.prompt,
        s.darkMode == Some(JBool(true)), OrDefault(s.model, DefaultModel)))
    else None
  }

  /** Saving only an API key is enough for the provider settings to exist, with every other default. */
  lemma ApiKeyAloneGivesDefaults(key: string)
    requires key != ""
    ensures OpenAISettingsOf(SettingsOf(map["apiKey" := key]))
         == Some(OpenAISettings(key, DefaultVoice, None, false, DefaultModel))
  {
  }

  // ---------------------------------------------------------------------------
  // The store, updated in place

  class SettingsStore {
    /** The `settings` table, key to stored text. */
    var table: map<string, string>
    /** Whether the module-level `db` handle is set. */
    var loaded: bool
    /** How many times `Database.load` has been called. */
    var loads: nat
    /** Calls of `getDB` still awaiting their `Database.load`. */
    var loading: nat

    /** Until a load settles, every load called is still awaited; once the
        handle is set, at least one load was called. */
    ghost predicate Valid()
      reads this
    {
      loading <= loads && (!loaded ==> loads == loading) && (loaded ==> loads >= 1)
    }

    constructor (initial: map<string, string>)
      ensures Valid() && table == initial && !loaded && loads == 0 && loading == 0
    {
      table, loaded, loads, loading := initial, false, 0, 0;
    }

    /** `getDB` up to its `await`: with the handle set it returns at once;
        otherwise it calls `Database.load`, even when an earlier call's load
        is still awaited, since the handle is assigned only after the load. */
    method StartGetDB() returns (ready: bool)
      requires Valid()
      modifies this`loads, this`loading
      ensures Valid()
      ensures ready == old(loaded)
      ensures ready ==> loads == old(loads) && loading == old(loading)
      ensures !ready ==> loads == old(loads) + 1 && loading == old(loading) + 1
    {
      if loaded {
        return true;
      }
      loads, loading := loads + 1, loading + 1;
      return false;
    }

    /** An awaited `Database.load` settles: its handle is assigned to `db`. */
    method LoadSettled()
      requires Valid() && loading > 0
      modifies this`loaded, this`loading
      ensures Valid() && loaded && loading == old(loading) - 1
    {
      loaded, loading := true, loading - 1;
    }

    /** `getDB` run to completion before any other call starts: the first
        such call loads the database, later ones return the cached handle. */
    method GetDB()
      requires Valid()
      modifies this`loaded, this`loads, this`loading
      ensures Valid() && loaded && loading == old(loading)
      ensures loads == if old(loaded) then old(loads) else old(loads) + 1
    {
      var ready := StartGetDB();
      if !ready {
        LoadSettled();
      }
    }

    /** `getSettings`: fold the rows of the table into a settings object. */
    method GetSettings() returns (s: Settings)
      requires Valid()
      modifies this`loaded, this`loads, this`loading
      ensures Valid() && loaded && table == old(table)
      ensures s == SettingsOf(table)
    {
      GetDB();
      s := NoSettings;
      var rest := table.Keys;
      while rest != {}
        invariant Valid() && loaded && table == old(table)
        invariant rest <= table.Keys
        invariant s == SettingsOf(Restrict(table, table.Keys - rest))
        decreases rest
      {
        var key :| key in rest;
        var done := Restrict(table, table.Keys - rest);
        ApplyRowAdds(done, key, table[key]);
        assert done[key := table[key]] == Restrict(table, table.Keys - (rest - {key}));
        s := ApplyRow(s, key, table[key]);
        rest := rest - {key};
      }
      assert Restrict(table, table.Keys) == table;
    }

    /** `saveSetting`: an upsert of one key. */
    method SaveSetting(key: string, value: Value)
      requires Valid()
      modifies this
      ensures Valid() && loaded
      ensures table == old(table)[key := Stringify(value)]
    {
      GetDB();
      table := table[key := Stringify(value)];
    }

    /** `saveSettings`: upsert every entry whose value is not `undefined`. */
    method SaveSettings(entries: seq<(string, Option<Value>)>)
      requires Valid()
      modifies this
      ensures Valid()
      ensures table == WriteAll(old(table), entries)
    {
      var i := 0;
      while i < |entries|
        invariant 0 <= i <= |entries|
        invariant Valid()
        invariant WriteAll(table, entries[i..]) == WriteAll(old(table), entries)
      {
        assert entries[i..][1..] == entries[i + 1..];
        var (key, value) := entries[i];
        if value.Some? {
          SaveSetting(key, value.value);
        }
        i := i + 1;
      }
    }

    /** `getDeviceSettings`. */
    method GetDeviceSettings() returns (d: DeviceSettings)
      requires Valid()
      modifies this`loaded, this`loads, this`loading
      ensures Valid() && table == old(table)
      ensures d == DeviceSettingsOf(SettingsOf(table))
    {
      var s := GetSettings();
      d := DeviceSettingsOf(s);
    }

    /** `getOpenAISettings`. */
    method GetOpenAISettings() returns (r: Option<OpenAISettings>)
      requires Valid()
      modifies this`loaded, this`loads, this`loading
      ensures Valid() && table == old(table)
      ensures r == OpenAISettingsOf(SettingsOf(table))
    {
      var s := GetSettings();
      r := OpenAISettingsOf(s);
    }
  }

  /** At startup several callers reach `getDB` before the first load settles
      (the settings hook, the chat hook's settings effect and the provider
      settings hook): each finds no handle, so the database is loaded once per
      caller. */
  method OverlappingFirstLoads(initial: map<string, string>) returns (store: SettingsStore)
    ensures fresh(store) && store.Valid() && store.loaded && store.loading == 0
    ensures store.loads == 3
  {
    store := new SettingsStore(initial);
    var r1 := store.StartGetDB();
    var r2 := store.StartGetDB();
    var r3 := store.StartGetDB();
    store.LoadSettled();
    store.LoadSettled();
    store.LoadSettled();
  }
}
