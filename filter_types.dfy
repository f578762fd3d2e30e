/**
 * The Rust screen filter's data: the six-parameter configuration, its range
 * check and per-entry colour value, the presets, and the preset collection
 * keyed by id with its active preset.
 *
 * `gammaCorrect(x, g)` stands for `x.powf(1.0 / g)`; floating-point powers are
 * not part of this model.
 */
module FilterTypes {
  import opened Wrappers

  /** FilterConfig: every factor is multiplicative, 1.0 being neutral. */
  datatype FilterConfig = FilterConfig(brightness: real, gamma: real, contrast: real,
                                       redScale: real, greenScale: real, blueScale: real)

  const DefaultConfig := FilterConfig(1.0, 1.0, 1.0, 1.0, 1.0, 1.0)

  const MinFactor: real := 0.5
  const MaxFactor: real := 2.0
  const MaxWord: int := 65535

  predicate InRange(v: real)
  {
    MinFactor <= v <= MaxFactor
  }

  /** The parameters validate walks, in order, with their names. */
  function Params(c: FilterConfig): seq<(string, real)>
  {
    [("brightness", c.brightness), ("gamma", c.gamma), ("contrast", c.contrast),
     ("red_scale", c.redScale), ("green_scale", c.greenScale), ("blue_scale", c.blueScale)]
  }

  /** The name of the first parameter outside [0.5, 2.0], if any. */
  function FirstOutOfRange(ps: seq<(string, real)>): (r: Option<string>)
    ensures r.None? <==> forall i :: 0 <= i < |ps| ==> InRange(ps[i].1)
    ensures r.Some? ==> exists i :: 0 <= i < |ps| && ps[i].0 == r.value && !InRange(ps[i].1)
                                    && forall j :: 0 <= j < i ==> InRange(ps[j].1)
  {
    if |ps| == 0 then None
    else if !InRange(ps[0].1) then Some(ps[0].0)
    else
      var rest := FirstOutOfRange(ps[1..]);
      if rest.Some? then
        assert forall j :: 0 <= j < |ps[1..]| ==> ps[1..][j] == ps[j + 1];
        rest
      else
        assert forall i :: 0 <= i < |ps[1..]| ==> ps[1..][i] == ps[i + 1];
        rest
  }

  /** validate: Err, naming the first offending parameter, iff one of the six factors is outside [0.5, 2.0]. */
  function Validate(c: FilterConfig): (r: Result<(), string>)
    ensures r.Ok? <==> InRange(c.brightness) && InRange(c.gamma) && InRange(c.contrast)
                       && InRange(c.redScale) && InRange(c.greenScale) && InRange(c.blueScale)
    ensures r.Err? ==> exists i :: 0 <= i < 6 && Params(c)[i].0 == r.error && !InRange(Params(c)[i].1)
  {
    var ps := Params(c);
    assert ps[0].1 == c.brightness && ps[1].1 == c.gamma && ps[2].1 == c.contrast;
    assert ps[3].1 == c.redScale && ps[4].1 == c.greenScale && ps[5].1 == c.blueScale;
    match FirstOutOfRange(ps)
    case None => Ok(())
    case Some(name) => Err(name)
  }

  /** `x as u16` for an x already clamped to [0, 65535]: truncation. */
  function ToWord(x: real): (w: int)
    requires 0.0 <= x <= 65535.0
    ensures 0 <= w <= MaxWord
    ensures w as real <= x < w as real + 1.0
  {
    x.Floor
  }

  function ClampReal(v: real, lo: real, hi: real): (r: real)
    requires lo <= hi
    ensures lo <= r <= hi
    ensures lo <= v <= hi ==> r == v
    ensures v < lo ==> r == lo
    ensures hi < v ==> r == hi
  {
    if v < lo then lo else if hi < v then hi else v
  }

  /**
   * calculate_color_value: the contrast factor about 0.5 clamped to [0, 1],
   * then the gamma correction, then brightness and the channel scale as plain
   * factors, and the result scaled to a WORD and clamped.
   */
  function CalculateColorValue(c: FilterConfig, channelScale: real, index: nat,
                               gammaCorrect: (real, real) -> real): (w: int)
    ensures 0 <= w <= MaxWord
  {
    var base := index as real / 255.0;
    var contrasted := ClampReal((base - 0.5) * c.contrast + 0.5, 0.0, 1.0);
    var corrected := gammaCorrect(contrasted, c.gamma);
    var finalValue := corrected * c.brightness * channelScale;
    ToWord(ClampReal(finalValue * 65535.0, 0.0, 65535.0))
  }

  /** The neutral configuration with an identity gamma correction gives entry i = 257·i. */
  lemma {:induction false} NeutralColorValue(index: nat, gammaCorrect: (real, real) -> real)
    requires index < 256
    requires forall x :: 0.0 <= x <= 1.0 ==> gammaCorrect(x, 1.0) == x
    ensures CalculateColorValue(DefaultConfig, 1.0, index, gammaCorrect) == 257 * index
  {
    var x := index as real / 255.0;
    assert (x - 0.5) * 1.0 + 0.5 == x;
    assert gammaCorrect(x, 1.0) == x;
    assert x * 1.0 * 1.0 * 65535.0 == (257 * index) as real;
  }

  /** Brightness multiplies directly: a zero brightness blacks the entry out whatever the other factors. */
  lemma ZeroBrightnessIsBlack(c: FilterConfig, channelScale: real, index: nat, gammaCorrect: (real, real) -> real)
    requires c.brightness == 0.0
    ensures CalculateColorValue(c, channelScale, index, gammaCorrect) == 0
  {
    var base := index as real / 255.0;
    var contrasted := ClampReal((base - 0.5) * c.contrast + 0.5, 0.0, 1.0);
    var corrected := gammaCorrect(contrasted, c.gamma);
    assert corrected * c.brightness == 0.0;
  }

  /** FilterPreset; `isDefault` presets cannot be deleted. */
  datatype FilterPreset = FilterPreset(id: string, name: string, hotkey: Option<string>,
                                       config: FilterConfig, isDefault: bool)

  /** FilterPreset::new: a custom preset, without a hotkey. */
  function NewPreset(id: string, name: string, config: FilterConfig): (p: FilterPreset)
    ensures p.id == id && p.name == name && p.config == config && p.hotkey.None? && !p.isDefault
  {
    FilterPreset(id, name, None, config, false)
  }

  /** The serialized form of a collection: what import reads and the constructor loads. */
  datatype PresetData = PresetData(presets: map<string, FilterPreset>, activePresetId: Option<string>)

  const DefaultId: string := "default"

  /** The three built-in presets: standard, daytime and nighttime on F2, F3 and F4. */
  const DefaultPresets: map<string, FilterPreset> :=
    map[DefaultId := FilterPreset(DefaultId, "默认", Some("F2"), DefaultConfig, true),
        "daytime" := FilterPreset("daytime", "白天", Some("F3"),
                                  DefaultConfig.(brightness := 1.03, gamma := 1.5, contrast := 1.05), true),
        "nighttime" := FilterPreset("nighttime", "夜间", Some("F4"),
                                    DefaultConfig.(brightness := 1.2, gamma := 1.6, contrast := 1.15), true)]

  /** The built-in collection: three presets, each default, each under its own id, each valid, and the active one exists. */
  lemma DefaultCollectionShape()
    ensures DefaultPresets.Keys == {DefaultId, "daytime", "nighttime"} && |DefaultPresets| == 3
    ensures forall k :: k in DefaultPresets ==> DefaultPresets[k].isDefault && DefaultPresets[k].id == k
    ensures forall k :: k in DefaultPresets ==> Validate(DefaultPresets[k].config).Ok?
    ensures DefaultId in DefaultPresets
  {
    assert DefaultPresets.Keys == {DefaultId, "daytime", "nighttime"};
    assert "daytime" != "nighttime" && DefaultId != "daytime" && DefaultId != "nighttime";
  }

  /** Some preset other than `exclude` has exactly this hotkey (strings compared case-sensitively). */
  predicate HotkeyTaken(presets: map<string, FilterPreset>, hotkey: string, exclude: Option<string>)
  {
    exists id :: id in presets && exclude != Some(id) && presets[id].hotkey == Some(hotkey)
  }

  /** No two presets hold the same hotkey. */
  predicate HotkeysUnique(presets: map<string, FilterPreset>)
  {
    forall a, b :: a in presets && b in presets && a != b && presets[a].hotkey.Some? ==> presets[a].hotkey != presets[b].hotkey
  }

  /**
   * The check create_preset and update_preset make before upserting keeps
   * hotkeys unique: a preset whose hotkey no other preset holds can be stored
   * under its id.
   */
  lemma {:induction false} UpsertKeepsHotkeysUnique(presets: map<string, FilterPreset>, p: FilterPreset)
    requires HotkeysUnique(presets)
    requires p.hotkey.Some? ==> !HotkeyTaken(presets, p.hotkey.value, Some(p.id))
    ensures HotkeysUnique(presets[p.id := p])
  {
    var m := presets[p.id := p];
    forall a, b | a in m && b in m && a != b && m[a].hotkey.Some?
      ensures m[a].hotkey != m[b].hotkey
    {
      if a != p.id && b != p.id {
        assert m[a] == presets[a] && m[b] == presets[b];
      } else if a == p.id {
        assert m[b] == presets[b];
      } else {
        assert m[a] == presets[a];
      }
    }
  }

  /** The built-in presets hold three different hotkeys. */
  lemma DefaultHotkeysUnique()
    ensures HotkeysUnique(DefaultPresets)
  {
    var keys := {DefaultId, "daytime", "nighttime"};
    assert DefaultPresets.Keys == keys;
    forall a, b | a in DefaultPresets && b in DefaultPresets && a != b && DefaultPresets[a].hotkey.Some?
      ensures DefaultPresets[a].hotkey != DefaultPresets[b].hotkey
    {
      assert DefaultPresets[a].hotkey == Some(if a == DefaultId then "F2" else if a == "daytime" then "F3" else "F4");
      assert DefaultPresets[b].hotkey == Some(if b == DefaultId then "F2" else if b == "daytime" then "F3" else "F4");
      assert "F2" != "F3" && "F3" != "F4" && "F2" != "F4";
    }
  }

  /** The message validate_hotkey gives: the hotkey and the name of the preset that holds it. */
  function HotkeyMessage(hotkey: string, holder: string): string
  {
    "快捷键 " + hotkey + " 已被预设 '" + holder + "' 使用"
  }

  const CannotDeleteDefault: string := "不能删除默认预设"
  const NoSuchPreset: string := "预设不存在"

  /** PresetCollection: presets by id and the active preset's id. */
  class PresetCollection {
    var presets: map<string, FilterPreset>
    var activePresetId: Option<string>

    /** PresetCollection::default: the built-in presets, "default" active. */
    constructor ()
      ensures presets == DefaultPresets && activePresetId == Some(DefaultId)
    {
      presets := DefaultPresets;
      activePresetId := Some(DefaultId);
    }

    /** A collection read from its serialized form. */
    constructor FromData(data: PresetData)
      ensures presets == data.presets && activePresetId == data.activePresetId
    {
      presets := data.presets;
      activePresetId := data.activePresetId;
    }

    function Data(): (d: PresetData)
      reads this
      ensures d.presets == presets && d.activePresetId == activePresetId
    {
      PresetData(presets, activePresetId)
    }

    /** Replace the whole collection (assignment through the manager's lock). */
    method Replace(data: PresetData)
      modifies this
      ensures presets == data.presets && activePresetId == data.activePresetId
    {
      presets := data.presets;
      activePresetId := data.activePresetId;
    }

    /** upsert_preset: insert under the preset's id, replacing any preset there. */
    method UpsertPreset(p: FilterPreset)
      modifies this
      ensures presets == old(presets)[p.id := p]
      ensures activePresetId == old(activePresetId)
    {
      presets := presets[p.id := p];
    }

    /**
     * delete_preset: a default preset or a missing id is refused with nothing
     * changed; otherwise the preset goes, and if it was active, "default"
     * becomes active.
     */
    method DeletePreset(id: string) returns (r: Result<(), string>)
      modifies this
      ensures id in old(presets) && old(presets)[id].isDefault ==>
        r == Err(CannotDeleteDefault) && presets == old(presets) && activePresetId == old(activePresetId)
      ensures id !in old(presets) ==>
        r == Err(NoSuchPreset) && presets == old(presets) && activePresetId == old(activePresetId)
      ensures id in old(presets) && !old(presets)[id].isDefault ==>
        && r.Ok?
        && presets == old(presets) - {id}
        && activePresetId == (if old(activePresetId) == Some(id) then Some(DefaultId) else old(activePresetId))
      ensures forall k :: k in old(presets) && old(presets)[k].isDefault ==> k in presets && presets[k] == old(presets)[k]
    {
      if id in presets && presets[id].isDefault {
        return Err(CannotDeleteDefault);
      }
      if id !in presets {
        return Err(NoSuchPreset);
      }
      presets := presets - {id};
      if activePresetId == Some(id) {
        activePresetId := Some(DefaultId);
      }
      return Ok(());
    }

    /** get_preset. */
    function GetPreset(id: string): (r: Option<FilterPreset>)
      reads this
      ensures r.Some? <==> id in presets
      ensures r.Some? ==> r.value == presets[id]
    {
      if id in presets then Some(presets[id]) else None
    }

    /** get_active_preset: none when no preset is active or the active id names no preset. */
    function GetActivePreset(): (r: Option<FilterPreset>)
      reads this
      ensures r.None? <==> activePresetId.None? || activePresetId.value !in presets
      ensures r.Some? ==> r.value == presets[activePresetId.value]
    {
      match activePresetId
      case None => None
      case Some(id) => GetPreset(id)
    }

    /** set_active_preset: an unknown id is refused and the active id kept. */
    method SetActivePreset(id: string) returns (r: Result<(), string>)
      modifies this
      ensures presets == old(presets)
      ensures id in presets ==> r.Ok? && activePresetId == Some(id)
      ensures id !in presets ==> r == Err(NoSuchPreset) && activePresetId == old(activePresetId)
    {
      if id !in presets {
        return Err(NoSuchPreset);
      }
      activePresetId := Some(id);
      return Ok(());
    }

    /**
     * validate_hotkey: walks the presets in the map's own order, skipping the
     * excluded id, and fails on the first one holding exactly this hotkey.
     */
    method ValidateHotkey(hotkey: string, exclude: Option<string>) returns (r: Result<(), string>)
      ensures r.Err? <==> HotkeyTaken(presets, hotkey, exclude)
      ensures r.Err? ==> exists id :: id in presets && exclude != Some(id) && presets[id].hotkey == Some(hotkey)
                                      && r.error == HotkeyMessage(hotkey, presets[id].name)
    {
      var remaining := presets.Keys;
      while remaining != {}
        invariant remaining <= presets.Keys
        invariant forall id :: id in presets && id !in remaining ==> exclude == Some(id) || presets[id].hotkey != Some(hotkey)
        decreases |remaining|
      {
        var id :| id in remaining;
        remaining := remaining - {id};
        if exclude == Some(id) {
          continue;
        }
        if presets[id].hotkey == Some(hotkey) {
          return Err(HotkeyMessage(hotkey, presets[id].name));
        }
      }
      return Ok(());
    }
  }

  /** The hotkeys of the built-in collection: F2 is taken, F5 free, and F2 stays allowed for "default" itself. */
  lemma DefaultHotkeys()
    ensures HotkeyTaken(DefaultPresets, "F2", None)
    ensures !HotkeyTaken(DefaultPresets, "F5", None)
    ensures !HotkeyTaken(DefaultPresets, "F2", Some(DefaultId))
  {
    assert DefaultPresets[DefaultId].hotkey == Some("F2");
    assert DefaultPresets.Keys == {DefaultId, "daytime", "nighttime"};
    assert DefaultPresets["daytime"].hotkey == Some("F3");
    assert DefaultPresets["nighttime"].hotkey == Some("F4");
  }
}
