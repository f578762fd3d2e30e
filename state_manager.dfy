/**
 * The screen filter's unified settings: the preset list (as the dictionaries
 * stored in the file), the selected displays, the last preset and whether to
 * reset on close, all held in one configuration dictionary. Default preset
 * names are translated on load; `translate` stands for the i18n lookup.
 *
 * The file is modelled by its parsed contents (`None` when it is missing or
 * unreadable) and saving by `written`, the dictionary last written.
 */
module FilterStateManager {
  import opened Wrappers
  import opened Json
  import opened FilterModels

  const PresetsKey: string := "presets"

  /** Every entry of a preset list is a dictionary with the preset's field types. */
  predicate WellFormedEntries(items: seq<Json>)
  {
    forall i :: 0 <= i < |items| ==> items[i].JObj? && WellTypedPresetDict(items[i].fields)
  }

  /** A configuration whose preset list, if it has one, is a list of preset dictionaries. */
  predicate WellFormedConfig(config: map<string, Json>)
  {
    PresetsKey in config ==> config[PresetsKey].JArr? && WellFormedEntries(config[PresetsKey].items)
  }

  /** config.get("presets", []). */
  function Entries(config: map<string, Json>): (items: seq<Json>)
    requires WellFormedConfig(config)
    ensures WellFormedEntries(items)
    ensures PresetsKey !in config ==> items == []
  {
    if PresetsKey in config then config[PresetsKey].items else []
  }

  const DaytimeConfig := FilterConfig(0.0315, 1.5, 0.048, 1.0, 1.0, 1.0, 0.1435, 0.24, -0.21)
  const NighttimeConfig := FilterConfig(0.1855, 1.95, 0.042, 1.0, 1.0, 1.0, 0.2065, 0.74, -0.138)

  /** The three built-in presets, named in the current language. */
  function DefaultPresets(translate: string -> string): (ps: seq<FilterPreset>)
    ensures |ps| == 3 && forall i :: 0 <= i < 3 ==> ps[i].isDefault
    ensures ps[0].id == "default" && ps[1].id == "daytime" && ps[2].id == "nighttime"
    ensures ps[0].hotkey == Some("F2") && ps[1].hotkey == Some("F3") && ps[2].hotkey == Some("F4")
    ensures ps[0].config == DefaultFilterConfig
  {
    [FilterPreset("default", translate("screen_filter.presets.default"), DefaultFilterConfig, Some("F2"), true),
     FilterPreset("daytime", translate("screen_filter.presets.daytime"), DaytimeConfig, Some("F3"), true),
     FilterPreset("nighttime", translate("screen_filter.presets.nighttime"), NighttimeConfig, Some("F4"), true)]
  }

  /** The presets as the dictionaries the file stores. */
  function PresetDicts(ps: seq<FilterPreset>): (items: seq<Json>)
    ensures |items| == |ps| && WellFormedEntries(items)
    ensures forall i :: 0 <= i < |ps| ==> items[i] == JObj(PresetToDict(ps[i]))
  {
    seq(|ps|, i requires 0 <= i < |ps| => JObj(PresetToDict(ps[i])))
  }

  /** _create_default_config: the built-in presets, no displays, no last preset, reset on close. */
  function DefaultConfig(translate: string -> string): (config: map<string, Json>)
    ensures WellFormedConfig(config)
    ensures config.Keys == {PresetsKey, "selected_monitors", "last_preset_id", "reset_on_close"}
    ensures config["selected_monitors"] == JArr([]) && config["last_preset_id"] == JNull
    ensures config["reset_on_close"] == JBool(true)
  {
    map[PresetsKey := JArr(PresetDicts(DefaultPresets(translate))), "selected_monitors" := JArr([]),
        "last_preset_id" := JNull, "reset_on_close" := JBool(true)]
  }

  /** The names of the built-in presets in either language, with their translation keys. */
  const NameToKey: map<string, string> :=
    map["默认" := "screen_filter.presets.default", "白天" := "screen_filter.presets.daytime",
        "夜间" := "screen_filter.presets.nighttime", "Default" := "screen_filter.presets.default",
        "Daytime" := "screen_filter.presets.daytime", "Nighttime" := "screen_filter.presets.nighttime"]

  /** A preset whose is_default holds and whose name is a built-in name in some language. */
  predicate Migratable(fields: map<string, Json>)
  {
    && Get(fields, "is_default", JBool(false)) == JBool(true)
    && "name" in fields && fields["name"].JStr? && fields["name"].s in NameToKey
  }

  /** One entry of _migrate_default_preset_names. */
  function MigrateEntry(e: Json, translate: string -> string): (m: Json)
    requires e.JObj? && WellTypedPresetDict(e.fields)
    ensures m.JObj? && WellTypedPresetDict(m.fields) && m.fields.Keys == e.fields.Keys
    ensures Migratable(e.fields) ==> m.fields == e.fields["name" := JStr(translate(NameToKey[e.fields["name"].s]))]
    ensures !Migratable(e.fields) ==> m == e
  {
    if Migratable(e.fields) then JObj(e.fields["name" := JStr(translate(NameToKey[e.fields["name"].s]))]) else e
  }

  /** _migrate_default_preset_names over a preset list. */
  function MigrateEntries(items: seq<Json>, translate: string -> string): (ms: seq<Json>)
    requires WellFormedEntries(items)
    ensures |ms| == |items| && WellFormedEntries(ms)
    ensures forall i :: 0 <= i < |items| ==> ms[i] == MigrateEntry(items[i], translate)
  {
    seq(|items|, i requires 0 <= i < |items| && WellFormedEntries(items) => MigrateEntry(items[i], translate))
  }

  /** Migration renames and nothing else: only migratable presets change, and only in their name. */
  lemma {:induction false} MigrationOnlyRenames(items: seq<Json>, translate: string -> string, i: nat)
    requires WellFormedEntries(items) && i < |items|
    ensures var m := MigrateEntries(items, translate)[i];
      && (forall k :: k in items[i].fields && k != "name" ==> k in m.fields && m.fields[k] == items[i].fields[k])
      && (m != items[i] ==> Migratable(items[i].fields))
  {
    assert MigrateEntries(items, translate)[i] == MigrateEntry(items[i], translate);
  }

  /** The file's contents, if they are an object whose preset list is well formed. */
  predicate Loadable(file: Option<Json>)
  {
    file.Some? && file.value.JObj? && WellFormedConfig(file.value.fields)
  }

  /** _load_config: the file with its default preset names migrated, or the default configuration. */
  function LoadConfig(file: Option<Json>, translate: string -> string): (config: map<string, Json>)
    ensures WellFormedConfig(config)
    ensures !Loadable(file) ==> config == DefaultConfig(translate)
    ensures Loadable(file) && PresetsKey !in file.value.fields ==> config == file.value.fields
    ensures Loadable(file) && PresetsKey in file.value.fields ==>
      config == file.value.fields[PresetsKey := JArr(MigrateEntries(Entries(file.value.fields), translate))]
  {
    if Loadable(file) then
      var data := file.value.fields;
      if PresetsKey in data then data[PresetsKey := JArr(MigrateEntries(Entries(data), translate))] else data
    else DefaultConfig(translate)
  }

  /** [p.get("name") for p in presets]. */
  function Names(items: seq<Json>): (names: seq<Option<Json>>)
    requires WellFormedEntries(items)
    ensures |names| == |items|
    ensures forall i :: 0 <= i < |items| ==> names[i] == (if "name" in items[i].fields then Some(items[i].fields["name"]) else None)
  {
    seq(|items|, i requires 0 <= i < |items| && WellFormedEntries(items) =>
      if "name" in items[i].fields then Some(items[i].fields["name"]) else None)
  }

  /**
   * Whether the constructor saves: the file's preset names were read and
   * non-empty, and differ from the names after loading.
   */
  function NeedsResave(file: Option<Json>, translate: string -> string): (save: bool)
    ensures save ==> Loadable(file) && Entries(file.value.fields) != []
  {
    if Loadable(file) then
      var oldNames := Names(Entries(file.value.fields));
      oldNames != [] && oldNames != Names(Entries(LoadConfig(file, translate)))
    else false
  }

  /** A file whose names are already in the current language is not rewritten. */
  lemma {:induction false} NoResaveWhenNamesCurrent(file: Option<Json>, translate: string -> string)
    requires Loadable(file)
    requires forall i :: 0 <= i < |Entries(file.value.fields)| ==>
      var f := Entries(file.value.fields)[i].fields;
      Migratable(f) ==> translate(NameToKey[f["name"].s]) == f["name"].s
    ensures !NeedsResave(file, translate)
  {
    var items := Entries(file.value.fields);
    var migrated := Entries(LoadConfig(file, translate));
    if PresetsKey in file.value.fields {
      assert migrated == MigrateEntries(items, translate);
      forall i | 0 <= i < |items|
        ensures migrated[i] == items[i]
      {
        assert migrated[i] == MigrateEntry(items[i], translate);
      }
      assert migrated == items;
    }
  }

  /** The entry's id is this string. */
  predicate HasId(e: Json, id: string)
  {
    e.JObj? && "id" in e.fields && e.fields["id"] == JStr(id)
  }

  /** The index of the first entry with this id, or |items| when there is none. */
  function FirstWithId(items: seq<Json>, id: string): (k: nat)
    ensures k <= |items|
    ensures k < |items| ==> HasId(items[k], id)
    ensures forall j :: 0 <= j < k ==> !HasId(items[j], id)
  {
    if |items| == 0 then 0
    else if HasId(items[0], id) then 0
    else 1 + FirstWithId(items[1..], id)
  }

  /** The entries without this id, in their order. */
  function RemoveId(items: seq<Json>, id: string): (rest: seq<Json>)
    ensures |rest| <= |items|
    ensures forall e :: e in rest <==> e in items && !HasId(e, id)
    ensures WellFormedEntries(items) ==> WellFormedEntries(rest)
  {
    if |items| == 0 then []
    else
      var tail := RemoveId(items[1..], id);
      assert forall e :: e in items <==> e == items[0] || e in items[1..];
      if HasId(items[0], id) then tail else [items[0]] + tail
  }

  /** One unfolding of the comprehension at the front of the list. */
  lemma RemoveIdCons(x: Json, t: seq<Json>, id: string)
    ensures RemoveId([x] + t, id) == (if HasId(x, id) then [] else [x]) + RemoveId(t, id)
  {
    var s := [x] + t;
    assert s[0] == x && s[1..] == t;
  }

  /**
   * The comprehension keeps list order: removing from a concatenation is
   * removing from each part, and a single entry is kept iff it has another
   * id. Together these fix the result entry by entry.
   */
  lemma {:induction false} RemoveIdOrder(a: seq<Json>, b: seq<Json>, x: Json, id: string)
    ensures RemoveId(a + b, id) == RemoveId(a, id) + RemoveId(b, id)
    ensures RemoveId([x], id) == if HasId(x, id) then [] else [x]
  {
    RemoveIdAppend(a, b, id);
    RemoveIdCons(x, [], id);
    assert [x] + [] == [x];
  }

  /** Removal distributes over concatenation, by induction on the first part. */
  lemma {:induction false} RemoveIdAppend(a: seq<Json>, b: seq<Json>, id: string)
    ensures RemoveId(a + b, id) == RemoveId(a, id) + RemoveId(b, id)
  {
    if |a| > 0 {
      var t := a[1..];
      var h := if HasId(a[0], id) then [] else [a[0]];
      var left, right, both := RemoveId(t, id), RemoveId(b, id), RemoveId(t + b, id);
      assert both == left + right by { RemoveIdAppend(t, b, id); }
      assert RemoveId(a + b, id) == h + both by {
        var ab := a + b;
        assert ab[0] == a[0] && ab[1..] == t + b;
      }
      assert RemoveId(a, id) == h + left;
      assert h + (left + right) == (h + left) + right;
    } else {
      assert a + b == b;
    }
  }

  /** Every entry with another id is kept as often as it occurs, and no entry with this id is. */
  lemma {:induction false} RemoveIdEntries(items: seq<Json>, id: string)
    ensures forall e :: multiset(RemoveId(items, id))[e] == if HasId(e, id) then 0 else multiset(items)[e]
  {
    if |items| > 0 {
      var t := items[1..];
      assert items == [items[0]] + t;
      RemoveIdCons(items[0], t, id);
      RemoveIdEntries(t, id);
    }
  }

  /** A list of strings as the JSON list json.dump writes for it. */
  function StrList(names: seq<string>): (j: Json)
    ensures j.JArr? && |j.items| == |names|
    ensures forall i :: 0 <= i < |names| ==> j.items[i] == JStr(names[i])
  {
    JArr(seq(|names|, i requires 0 <= i < |names| => JStr(names[i])))
  }

  /** ConfigManager: the settings dictionary and what was last written to the file. */
  class ConfigManager {
    var config: map<string, Json>
    var written: Option<map<string, Json>>

    predicate Valid()
      reads this
    {
      WellFormedConfig(config)
    }

    /** The constructor loads the file, and saves only when migration changed the stored names. */
    constructor (file: Option<Json>, translate: string -> string)
      ensures Valid()
      ensures config == LoadConfig(file, translate)
      ensures written == (if NeedsResave(file, translate) then Some(config) else None)
    {
      config := LoadConfig(file, translate);
      written := None;
      if NeedsResave(file, translate) {
        written := Some(config);
      }
    }

    /** save_config. */
    method SaveConfig()
      modifies this
      ensures config == old(config) && written == Some(config)
    {
      written := Some(config);
    }

    /** get_selected_monitors: an empty list when the key is absent. */
    function GetSelectedMonitors(): (v: Json)
      reads this
      ensures "selected_monitors" !in config ==> v == JArr([])
      ensures "selected_monitors" in config ==> v == config["selected_monitors"]
    {
      Get(config, "selected_monitors", JArr([]))
    }

    /** set_selected_monitors: stores the list of device names; it does not save. */
    method SetSelectedMonitors(monitors: seq<string>)
      requires Valid()
      modifies this
      ensures Valid()
      ensures config == old(config)["selected_monitors" := StrList(monitors)] && written == old(written)
      ensures GetSelectedMonitors() == StrList(monitors)
    {
      config := config["selected_monitors" := StrList(monitors)];
    }

    /** get_last_preset_id: None when the key is absent. */
    function GetLastPresetId(): (v: Json)
      reads this
      ensures "last_preset_id" !in config ==> v == JNull
      ensures "last_preset_id" in config ==> v == config["last_preset_id"]
    {
      Get(config, "last_preset_id", JNull)
    }

    /** set_last_preset_id: stores the id; it does not save. */
    method SetLastPresetId(id: string)
      requires Valid()
      modifies this
      ensures Valid()
      ensures config == old(config)["last_preset_id" := JStr(id)] && written == old(written)
      ensures GetLastPresetId() == JStr(id)
    {
      config := config["last_preset_id" := JStr(id)];
    }

    /** get_reset_on_close: true when the key is absent. */
    function GetResetOnClose(): (v: Json)
      reads this
      ensures "reset_on_close" !in config ==> v == JBool(true)
      ensures "reset_on_close" in config ==> v == config["reset_on_close"]
    {
      Get(config, "reset_on_close", JBool(true))
    }

    /** set_reset_on_close: stores the flag and saves. */
    method SetResetOnClose(value: bool)
      requires Valid()
      modifies this
      ensures Valid()
      ensures config == old(config)["reset_on_close" := JBool(value)] && written == Some(config)
      ensures GetResetOnClose() == JBool(value)
    {
      config := config["reset_on_close" := JBool(value)];
      SaveConfig();
    }

    /** get_all_presets. */
    function GetAllPresets(): (ps: seq<FilterPreset>)
      requires Valid()
      reads this
      ensures |ps| == |Entries(config)|
      ensures forall i :: 0 <= i < |ps| ==> ps[i] == PresetFromDict(Entries(config)[i].fields)
    {
      var items := Entries(config);
      seq(|items|, i requires 0 <= i < |items| && WellFormedEntries(items) => PresetFromDict(items[i].fields))
    }

    /** get_preset_by_id: the first entry with the id, read as a preset. */
    method GetPresetById(id: string) returns (r: Option<FilterPreset>)
      requires Valid()
      ensures var items := Entries(config); var k := FirstWithId(items, id);
        r == (if k < |items| then Some(PresetFromDict(items[k].fields)) else None)
      ensures r.None? <==> forall i :: 0 <= i < |Entries(config)| ==> !HasId(Entries(config)[i], id)
    {
      var items := Entries(config);
      for i := 0 to |items|
        invariant forall j :: 0 <= j < i ==> !HasId(items[j], id)
      {
        if HasId(items[i], id) {
          FirstWithIdIs(items, id, i);
          return Some(PresetFromDict(items[i].fields));
        }
      }
      FirstWithIdIs(items, id, |items|);
      return None;
    }

    /** add_preset: the preset's dictionary is appended, the list created first if missing. */
    method AddPreset(p: FilterPreset)
      requires Valid()
      modifies this
      ensures Valid()
      ensures config == old(config)[PresetsKey := JArr(Entries(old(config)) + [JObj(PresetToDict(p))])]
      ensures written == old(written)
    {
      var items := Entries(config);
      config := config[PresetsKey := JArr(items + [JObj(PresetToDict(p))])];
      assert WellFormedEntries(items + [JObj(PresetToDict(p))]) by {
        assert forall i :: 0 <= i < |items| ==> (items + [JObj(PresetToDict(p))])[i] == items[i];
      }
    }

    /** update_preset: the first entry with the preset's id is replaced; without one nothing changes. */
    method UpdatePreset(p: FilterPreset)
      requires Valid()
      modifies this
      ensures Valid()
      ensures var items := Entries(old(config)); var k := FirstWithId(items, p.id);
        && (k < |items| ==> config == old(config)[PresetsKey := JArr(items[k := JObj(PresetToDict(p))])])
        && (k == |items| ==> config == old(config))
      ensures written == old(written)
    {
      if PresetsKey !in config {
        return;
      }
      var items := Entries(config);
      for i := 0 to |items|
        invariant forall j :: 0 <= j < i ==> !HasId(items[j], p.id)
        invariant config == old(config)
      {
        if HasId(items[i], p.id) {
          FirstWithIdIs(items, p.id, i);
          config := config[PresetsKey := JArr(items[i := JObj(PresetToDict(p))])];
          return;
        }
      }
      FirstWithIdIs(items, p.id, |items|);
    }

    /** delete_preset: every entry with the id goes, built-in presets included. */
    method DeletePreset(id: string)
      requires Valid()
      modifies this
      ensures Valid()
      ensures config == old(config)[PresetsKey := JArr(RemoveId(Entries(old(config)), id))]
      ensures forall e :: e in Entries(config) <==> e in Entries(old(config)) && !HasId(e, id)
      ensures written == old(written)
    {
      config := config[PresetsKey := JArr(RemoveId(Entries(config), id))];
    }

    /** set_all_presets: the list becomes the given presets' dictionaries. */
    method SetAllPresets(ps: seq<FilterPreset>)
      requires Valid()
      modifies this
      ensures Valid()
      ensures config == old(config)[PresetsKey := JArr(PresetDicts(ps))]
      ensures GetAllPresets() == ps
      ensures written == old(written)
    {
      config := config[PresetsKey := JArr(PresetDicts(ps))];
      forall i | 0 <= i < |ps|
        ensures PresetFromDict(PresetToDict(ps[i])) == ps[i]
      {
        PresetRoundTrip(ps[i]);
      }
    }
  }

  /** FirstWithId is the first index the loops find. */
  lemma {:induction false} FirstWithIdIs(items: seq<Json>, id: string, k: nat)
    requires k <= |items|
    requires k < |items| ==> HasId(items[k], id)
    requires forall j :: 0 <= j < k ==> !HasId(items[j], id)
    ensures FirstWithId(items, id) == k
  {
  }

  /** A fresh default configuration round-trips its built-in presets. */
  lemma {:induction false} DefaultConfigPresets(translate: string -> string)
    ensures var items := Entries(DefaultConfig(translate));
      && |items| == 3
      && forall i :: 0 <= i < 3 ==> PresetFromDict(items[i].fields) == DefaultPresets(translate)[i]
  {
    var ps := DefaultPresets(translate);
    var items := Entries(DefaultConfig(translate));
    assert items == PresetDicts(ps);
    forall i | 0 <= i < 3
      ensures PresetFromDict(items[i].fields) == ps[i]
    {
      PresetRoundTrip(ps[i]);
    }
  }
}
