/**
 * The map's user-configurable functions: the overlay and zoom hotkeys and the
 * zoom step, loaded from map_function_config.json and saved after every
 * change. The file is modelled by its parsed contents; a missing, unreadable
 * or malformed file is `None`.
 */
module MapFunctionConfig {
  import opened Wrappers
  import opened Json

  /**
   * The configuration. The hotkeys hold whatever the file gave (the source
   * does not check their type); the step is a float.
   */
  datatype FunctionConfig = FunctionConfig(overlayHotkey: Json, zoomInHotkey: Json, zoomOutHotkey: Json, zoomStep: real)

  const DefaultConfig := FunctionConfig(JStr("F5"), JStr("+"), JStr("-"), 0.05)

  const MinZoomStep: real := 0.01
  const MaxZoomStep: real := 1.0

  /**
   * float() of a JSON value: numbers and booleans convert, strings go through
   * `parseFloat` (Python's float syntax is not part of this model), anything
   * else raises.
   */
  function ToFloat(v: Json, parseFloat: string -> Option<real>): (r: Option<real>)
    ensures v.JReal? ==> r == Some(v.r)
    ensures v.JInt? ==> r == Some(v.i as real)
    ensures v.JNull? || v.JArr? || v.JObj? ==> r.None?
  {
    match v
    case JReal(x) => Some(x)
    case JInt(i) => Some(i as real)
    case JBool(b) => Some(if b then 1.0 else 0.0)
    case JStr(s) => parseFloat(s)
    case _ => None
  }

  /**
   * _load: each key the file lacks takes its default on its own; a file that
   * is missing, not an object, or whose zoom_step float() rejects gives the
   * whole default configuration.
   */
  function Load(file: Option<Json>, parseFloat: string -> Option<real>): (c: FunctionConfig)
    ensures file.None? || !file.value.JObj? ==> c == DefaultConfig
    ensures file.Some? && file.value.JObj? ==>
      var data := file.value.fields;
      match ToFloat(Get(data, "zoom_step", JReal(0.05)), parseFloat)
      case None => c == DefaultConfig
      case Some(step) =>
        && c.zoomStep == step
        && c.overlayHotkey == (if "overlay_hotkey" in data then data["overlay_hotkey"] else JStr("F5"))
        && c.zoomInHotkey == (if "zoom_in_hotkey" in data then data["zoom_in_hotkey"] else JStr("+"))
        && c.zoomOutHotkey == (if "zoom_out_hotkey" in data then data["zoom_out_hotkey"] else JStr("-"))
  {
    match file
    case Some(JObj(data)) =>
      (match ToFloat(Get(data, "zoom_step", JReal(0.05)), parseFloat)
       case Some(step) =>
         FunctionConfig(Get(data, "overlay_hotkey", JStr("F5")), Get(data, "zoom_in_hotkey", JStr("+")),
                        Get(data, "zoom_out_hotkey", JStr("-")), step)
       case None => DefaultConfig)
    case _ => DefaultConfig
  }

  /** The object save writes. */
  function Serialize(c: FunctionConfig): (data: map<string, Json>)
    ensures data.Keys == {"overlay_hotkey", "zoom_in_hotkey", "zoom_out_hotkey", "zoom_step"}
  {
    map["overlay_hotkey" := c.overlayHotkey, "zoom_in_hotkey" := c.zoomInHotkey,
        "zoom_out_hotkey" := c.zoomOutHotkey, "zoom_step" := JReal(c.zoomStep)]
  }

  /** Loading what save wrote gives the same configuration back, whatever float() does on strings. */
  lemma SaveLoadRoundTrip(c: FunctionConfig, parseFloat: string -> Option<real>)
    ensures Load(Some(JObj(Serialize(c))), parseFloat) == c
  {
  }

  /** An empty object loads as the defaults, key by key. */
  lemma EmptyFileGivesDefaults(parseFloat: string -> Option<real>)
    ensures Load(Some(JObj(map[])), parseFloat) == DefaultConfig
  {
  }

  /** max(0.01, min(1.0, step)). */
  function ClampStep(step: real): (r: real)
    ensures MinZoomStep <= r <= MaxZoomStep
    ensures MinZoomStep <= step <= MaxZoomStep ==> r == step
    ensures step < MinZoomStep ==> r == MinZoomStep
    ensures step > MaxZoomStep ==> r == MaxZoomStep
  {
    var upper := if MaxZoomStep < step then MaxZoomStep else step;
    if MinZoomStep > upper then MinZoomStep else upper
  }

  /** FunctionConfigManager; `written` is the object last saved to the file. */
  class FunctionConfigManager {
    var config: FunctionConfig
    var written: Option<map<string, Json>>

    /** The constructor loads the file and writes nothing. */
    constructor (file: Option<Json>, parseFloat: string -> Option<real>)
      ensures config == Load(file, parseFloat) && written.None?
    {
      config := Load(file, parseFloat);
      written := None;
    }

    /** save: the file now holds the current configuration. */
    method Save()
      modifies this
      ensures config == old(config) && written == Some(Serialize(config))
    {
      written := Some(Serialize(config));
    }

    /** update_overlay_hotkey: only the overlay key changes, then the configuration is saved. */
    method UpdateOverlayHotkey(hotkey: string)
      modifies this
      ensures config == old(config).(overlayHotkey := JStr(hotkey))
      ensures written == Some(Serialize(config))
    {
      config := config.(overlayHotkey := JStr(hotkey));
      Save();
    }

    /** update_zoom_hotkeys: both zoom keys change, then the configuration is saved. */
    method UpdateZoomHotkeys(zoomIn: string, zoomOut: string)
      modifies this
      ensures config == old(config).(zoomInHotkey := JStr(zoomIn), zoomOutHotkey := JStr(zoomOut))
      ensures written == Some(Serialize(config))
    {
      config := config.(zoomInHotkey := JStr(zoomIn), zoomOutHotkey := JStr(zoomOut));
      Save();
    }

    /** update_zoom_step: the step is stored clamped to [0.01, 1.0], then the configuration is saved. */
    method UpdateZoomStep(step: real)
      modifies this
      ensures config == old(config).(zoomStep := ClampStep(step))
      ensures MinZoomStep <= config.zoomStep <= MaxZoomStep
      ensures written == Some(Serialize(config))
    {
      config := config.(zoomStep := ClampStep(step));
      Save();
    }
  }
}
