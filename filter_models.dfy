/**
 * The screen filter's settings and presets, and their dictionary forms as
 * stored in the presets file.
 */
module FilterModels {
  import opened Wrappers
  import opened Json

  /**
   * FilterConfig: brightness, gamma and contrast, the three channel scales,
   * and the three overlay offsets.
   */
  datatype FilterConfig = FilterConfig(
    brightness: real, gamma: real, contrast: real,
    redScale: real, greenScale: real, blueScale: real,
    overlayBrightnessOffset: real, overlayGammaOffset: real, overlayContrastOffset: real)

  /** FilterConfig(): the identity filter with no offsets. */
  const DefaultFilterConfig := FilterConfig(0.0, 1.0, 0.0, 1.0, 1.0, 1.0, 0.0, 0.0, 0.0)

  datatype FilterPreset = FilterPreset(id: string, name: string, config: FilterConfig,
                                       hotkey: Option<string>, isDefault: bool)

  const ConfigKeys: seq<string> := ["brightness", "gamma", "contrast", "red_scale", "green_scale", "blue_scale",
                                    "overlay_brightness_offset", "overlay_gamma_offset", "overlay_contrast_offset"]

  predicate IsNumber(v: Json)
  {
    v.JInt? || v.JReal?
  }

  function NumberValue(v: Json): real
    requires IsNumber(v)
  {
    if v.JInt? then v.i as real else v.r
  }

  /** The dataclass fields are floats: every key a configuration dictionary has holds a number. */
  predicate WellTypedConfigDict(data: map<string, Json>)
  {
    forall k :: k in data ==> IsNumber(data[k])
  }

  /** data.get(key, default) on a configuration dictionary. */
  function NumberOr(data: map<string, Json>, key: string, default: real): (r: real)
    requires WellTypedConfigDict(data)
    ensures key !in data ==> r == default
    ensures key in data && data[key].JReal? ==> r == data[key].r
  {
    if key in data then NumberValue(data[key]) else default
  }

  /** asdict of a configuration: all nine fields under their Python names. */
  function ConfigToDict(c: FilterConfig): (data: map<string, Json>)
    ensures WellTypedConfigDict(data)
    ensures forall k :: k in data <==> k in ConfigKeys
  {
    map["brightness" := JReal(c.brightness), "gamma" := JReal(c.gamma), "contrast" := JReal(c.contrast),
        "red_scale" := JReal(c.redScale), "green_scale" := JReal(c.greenScale), "blue_scale" := JReal(c.blueScale),
        "overlay_brightness_offset" := JReal(c.overlayBrightnessOffset),
        "overlay_gamma_offset" := JReal(c.overlayGammaOffset),
        "overlay_contrast_offset" := JReal(c.overlayContrastOffset)]
  }

  /** FilterConfig.from_dict: each key independently falls back to its default. */
  function ConfigFromDict(data: map<string, Json>): (c: FilterConfig)
    requires WellTypedConfigDict(data)
  {
    FilterConfig(NumberOr(data, "brightness", 0.0), NumberOr(data, "gamma", 1.0), NumberOr(data, "contrast", 0.0),
                 NumberOr(data, "red_scale", 1.0), NumberOr(data, "green_scale", 1.0), NumberOr(data, "blue_scale", 1.0),
                 NumberOr(data, "overlay_brightness_offset", 0.0), NumberOr(data, "overlay_gamma_offset", 0.0),
                 NumberOr(data, "overlay_contrast_offset", 0.0))
  }

  /** from_dict(to_dict(c)) == c. */
  lemma ConfigRoundTrip(c: FilterConfig)
    ensures ConfigFromDict(ConfigToDict(c)) == c
  {
  }

  /** An empty dictionary gives the default configuration. */
  lemma EmptyConfigDict()
    ensures ConfigFromDict(map[]) == DefaultFilterConfig
  {
  }

  /**
   * A missing key takes its default whatever the other keys hold: the
   * configuration read from a dictionary differs from the one read with that
   * key removed only in that key's field.
   */
  lemma MissingKeyIndependent(data: map<string, Json>)
    requires WellTypedConfigDict(data)
    ensures ConfigFromDict(data - {"gamma"}) == ConfigFromDict(data).(gamma := 1.0)
    ensures ConfigFromDict(data - {"brightness"}) == ConfigFromDict(data).(brightness := 0.0)
    ensures ConfigFromDict(data - {"red_scale"}) == ConfigFromDict(data).(redScale := 1.0)
    ensures ConfigFromDict(data - {"overlay_gamma_offset"}) == ConfigFromDict(data).(overlayGammaOffset := 0.0)
  {
  }

  /** The types the preset's fields demand of its dictionary. */
  predicate WellTypedPresetDict(data: map<string, Json>)
  {
    && ("id" in data ==> data["id"].JStr?)
    && ("name" in data ==> data["name"].JStr?)
    && ("config" in data ==> data["config"].JObj? && WellTypedConfigDict(data["config"].fields))
    && ("hotkey" in data ==> data["hotkey"].JStr? || data["hotkey"].JNull?)
    && ("is_default" in data ==> data["is_default"].JBool?)
  }

  /** FilterPreset.to_dict: the fields, with the configuration as a nested dictionary and no hotkey as null. */
  function PresetToDict(p: FilterPreset): (data: map<string, Json>)
    ensures WellTypedPresetDict(data)
    ensures data.Keys == {"id", "name", "config", "hotkey", "is_default"}
  {
    map["id" := JStr(p.id), "name" := JStr(p.name), "config" := JObj(ConfigToDict(p.config)),
        "hotkey" := (if p.hotkey.Some? then JStr(p.hotkey.value) else JNull), "is_default" := JBool(p.isDefault)]
  }

  /**
   * FilterPreset.from_dict: a missing id is "", a missing name "Unnamed", a
   * missing configuration the default one, a missing or null hotkey none,
   * and a missing is_default false.
   */
  function PresetFromDict(data: map<string, Json>): (p: FilterPreset)
    requires WellTypedPresetDict(data)
    ensures "id" !in data ==> p.id == ""
    ensures "name" !in data ==> p.name == "Unnamed"
    ensures "config" !in data ==> p.config == DefaultFilterConfig
    ensures ("hotkey" !in data || data["hotkey"].JNull?) <==> p.hotkey.None?
    ensures "is_default" !in data ==> !p.isDefault
  {
    FilterPreset(
      if "id" in data then data["id"].s else "",
      if "name" in data then data["name"].s else "Unnamed",
      if "config" in data then ConfigFromDict(data["config"].fields) else ConfigFromDict(map[]),
      if "hotkey" in data && data["hotkey"].JStr? then Some(data["hotkey"].s) else None,
      if "is_default" in data then data["is_default"].b else false)
  }

  /** from_dict(to_dict(p)) == p. */
  lemma {:induction false} PresetRoundTrip(p: FilterPreset)
    ensures PresetFromDict(PresetToDict(p)) == p
  {
    ConfigRoundTrip(p.config);
  }
}
