/**
 * The Rust filter manager: preset creation, update and deletion over the
 * preset collection, applying presets and configurations to displays through
 * the gamma-ramp controller, and replacing the collection by an imported or
 * the built-in one.
 *
 * Writing the collection to its file is an abstract step with no effect on
 * the state and is taken to succeed; the locks are not modelled. A new
 * preset's id is "custom_" followed by `uuid`, which stands for a freshly
 * generated UUID.
 */
module FilterManagerRs {
  import opened Wrappers
  import opened FilterTypes
  import opened GammaRampRs

  const NoMonitorSelected: string := "未选择任何显示器"

  /** The preset update_preset writes: only the supplied fields change. */
  function Updated(p: FilterPreset, name: Option<string>, config: Option<FilterConfig>,
                   hotkey: Option<Option<string>>): (q: FilterPreset)
    ensures q.id == p.id && q.isDefault == p.isDefault
    ensures q.name == (if name.Some? then name.value else p.name)
    ensures q.config == (if config.Some? then config.value else p.config)
    ensures q.hotkey == (if hotkey.Some? then hotkey.value else p.hotkey)
  {
    var named := if name.Some? then p.(name := name.value) else p;
    var configured := if config.Some? then named.(config := config.value) else named;
    if hotkey.Some? then configured.(hotkey := hotkey.value) else configured
  }

  /** FilterManager: the shared preset collection and the ramp controller. */
  class FilterManager {
    const presets: PresetCollection
    const controller: GammaRampController

    /** new: the stored collection if the file exists, else the built-in one (which is then saved). */
    constructor (stored: Option<PresetData>, displays: map<string, GammaRamp>)
      ensures fresh(presets) && fresh(controller)
      ensures stored.Some? ==> presets.presets == stored.value.presets && presets.activePresetId == stored.value.activePresetId
      ensures stored.None? ==> presets.presets == DefaultPresets && presets.activePresetId == Some(DefaultId)
      ensures controller.originalRamps == map[] && controller.deviceRamps == displays
    {
      if stored.Some? {
        presets := new PresetCollection.FromData(stored.value);
      } else {
        presets := new PresetCollection();
      }
      controller := new GammaRampController(displays);
    }

    /** get_preset: the preset, or an error for an unknown id. */
    method GetPreset(id: string) returns (r: Result<FilterPreset, string>)
      ensures r.Ok? <==> id in presets.presets
      ensures r.Ok? ==> r.value == presets.presets[id]
    {
      var found := presets.GetPreset(id);
      if found.None? {
        return Err(NoSuchPreset);
      }
      return Ok(found.value);
    }

    /** get_active_preset. */
    function GetActivePreset(): (r: Option<FilterPreset>)
      reads presets
      ensures r == presets.GetActivePreset()
      ensures r.Some? ==> presets.activePresetId.Some? && r.value == presets.presets[presets.activePresetId.value]
    {
      presets.GetActivePreset()
    }

    /**
     * create_preset: the configuration is checked, then the hotkey against
     * every preset; only then is the new custom preset inserted.
     */
    method CreatePreset(name: string, config: FilterConfig, hotkey: Option<string>, uuid: string)
      returns (r: Result<string, string>)
      modifies presets
      ensures Validate(config).Err? ==> r.Err? && presets.presets == old(presets.presets)
      ensures Validate(config).Ok? && hotkey.Some? && HotkeyTaken(old(presets.presets), hotkey.value, None) ==>
        r.Err? && presets.presets == old(presets.presets)
      ensures Validate(config).Ok? && !(hotkey.Some? && HotkeyTaken(old(presets.presets), hotkey.value, None)) ==>
        && r == Ok("custom_" + uuid)
        && presets.presets == old(presets.presets)[r.value := FilterPreset(r.value, name, hotkey, config, false)]
      ensures HotkeysUnique(old(presets.presets)) ==> HotkeysUnique(presets.presets)
      ensures presets.activePresetId == old(presets.activePresetId)
    {
      var valid := Validate(config);
      if valid.Err? {
        return Err(valid.error);
      }
      if hotkey.Some? {
        var free := presets.ValidateHotkey(hotkey.value, None);
        if free.Err? {
          return Err(free.error);
        }
      }
      var id := "custom_" + uuid;
      if HotkeysUnique(presets.presets) {
        UpsertKeepsHotkeysUnique(presets.presets, FilterPreset(id, name, hotkey, config, false));
      }
      presets.UpsertPreset(FilterPreset(id, name, hotkey, config, false));
      return Ok(id);
    }

    /**
     * update_preset: an unknown id is refused; a new configuration is checked,
     * a new hotkey is checked against the other presets; the collection is
     * written only at the end, under the stored preset's own id.
     */
    method UpdatePreset(id: string, name: Option<string>, config: Option<FilterConfig>,
                        hotkey: Option<Option<string>>) returns (r: Result<(), string>)
      modifies presets
      ensures id !in old(presets.presets) ==> r == Err(NoSuchPreset) && presets.presets == old(presets.presets)
      ensures id in old(presets.presets) && config.Some? && Validate(config.value).Err? ==>
        r.Err? && presets.presets == old(presets.presets)
      ensures id in old(presets.presets) && !(config.Some? && Validate(config.value).Err?)
              && hotkey.Some? && hotkey.value.Some? && HotkeyTaken(old(presets.presets), hotkey.value.value, Some(id)) ==>
        r.Err? && presets.presets == old(presets.presets)
      ensures id in old(presets.presets) && !(config.Some? && Validate(config.value).Err?)
              && !(hotkey.Some? && hotkey.value.Some? && HotkeyTaken(old(presets.presets), hotkey.value.value, Some(id))) ==>
        && r.Ok?
        && var p := old(presets.presets)[id];
           presets.presets == old(presets.presets)[p.id := Updated(p, name, config, hotkey)]
      ensures HotkeysUnique(old(presets.presets)) && id in old(presets.presets) && old(presets.presets)[id].id == id ==>
        HotkeysUnique(presets.presets)
      ensures presets.activePresetId == old(presets.activePresetId)
    {
      var found := presets.GetPreset(id);
      if found.None? {
        return Err(NoSuchPreset);
      }
      var preset := found.value;
      if name.Some? {
        preset := preset.(name := name.value);
      }
      if config.Some? {
        var valid := Validate(config.value);
        if valid.Err? {
          return Err(valid.error);
        }
        preset := preset.(config := config.value);
      }
      if hotkey.Some? {
        if hotkey.value.Some? {
          var free := presets.ValidateHotkey(hotkey.value.value, Some(id));
          if free.Err? {
            return Err(free.error);
          }
        }
        preset := preset.(hotkey := hotkey.value);
      }
      if HotkeysUnique(presets.presets) && preset.id == id {
        UpsertKeepsHotkeysUnique(presets.presets, preset);
      }
      presets.UpsertPreset(preset);
      return Ok(());
    }

    /** delete_preset: the collection's own rule. */
    method DeletePreset(id: string) returns (r: Result<(), string>)
      modifies presets
      ensures id in old(presets.presets) && old(presets.presets)[id].isDefault ==>
        r.Err? && presets.presets == old(presets.presets) && presets.activePresetId == old(presets.activePresetId)
      ensures id !in old(presets.presets) ==>
        r.Err? && presets.presets == old(presets.presets) && presets.activePresetId == old(presets.activePresetId)
      ensures id in old(presets.presets) && !old(presets.presets)[id].isDefault ==>
        && r.Ok?
        && presets.presets == old(presets.presets) - {id}
        && presets.activePresetId == (if old(presets.activePresetId) == Some(id) then Some(DefaultId)
                                      else old(presets.activePresetId))
    {
      r := presets.DeletePreset(id);
    }

    /** rename_preset: an update of the name alone. */
    method RenamePreset(id: string, newName: string) returns (r: Result<(), string>)
      modifies presets
      ensures id !in old(presets.presets) ==> r.Err? && presets.presets == old(presets.presets)
      ensures id in old(presets.presets) ==>
        && r.Ok?
        && var p := old(presets.presets)[id];
           presets.presets == old(presets.presets)[p.id := p.(name := newName)]
      ensures presets.activePresetId == old(presets.activePresetId)
    {
      r := UpdatePreset(id, Some(newName), None, None);
    }

    /**
     * The loop apply_preset and apply_config share: each display in turn, the
     * first failure ending the loop.
     */
    method ApplyToMonitors(c: FilterConfig, monitors: seq<string>, writable: set<string>,
                           gammaCorrect: (real, real) -> real) returns (r: Result<(), string>)
      modifies controller
      ensures r.Ok? ==> (monitors != [] ==> Validate(c).Ok?) && forall d :: d in monitors ==> d in writable
      ensures r.Ok? ==> forall d :: d in monitors ==> d in controller.deviceRamps && controller.deviceRamps[d] == RampFor(c, gammaCorrect)
      ensures Validate(c).Ok? && (forall d :: d in monitors ==> d in writable && (d in old(controller.originalRamps) || d in old(controller.deviceRamps))) ==> r.Ok?
      ensures forall d :: d in old(controller.originalRamps) ==>
        d in controller.originalRamps && controller.originalRamps[d] == old(controller.originalRamps)[d]
    {
      for k := 0 to |monitors|
        invariant forall j :: 0 <= j < k ==> monitors[j] in writable
        invariant k > 0 ==> monitors != [] && Validate(c).Ok?
        invariant forall j :: 0 <= j < k ==> monitors[j] in controller.deviceRamps && controller.deviceRamps[monitors[j]] == RampFor(c, gammaCorrect)
        invariant forall d :: d in old(controller.originalRamps) ==>
          d in controller.originalRamps && controller.originalRamps[d] == old(controller.originalRamps)[d]
        invariant forall d :: d in old(controller.deviceRamps) ==> d in controller.deviceRamps
      {
        r := controller.ApplyFilterToMonitor(c, monitors[k], writable, gammaCorrect);
        if r.Err? {
          return;
        }
      }
      return Ok(());
    }

    /**
     * apply_preset: an unknown preset or an empty display list is refused
     * before any display is touched; the preset becomes active only after every
     * display took its ramp.
     */
    method ApplyPreset(id: string, monitors: seq<string>, writable: set<string>,
                       gammaCorrect: (real, real) -> real) returns (r: Result<(), string>)
      modifies presets, controller
      ensures presets.presets == old(presets.presets)
      ensures id !in presets.presets ==> r == Err(NoSuchPreset) && presets.activePresetId == old(presets.activePresetId)
                                         && controller.deviceRamps == old(controller.deviceRamps)
      ensures monitors == [] ==> r.Err? && presets.activePresetId == old(presets.activePresetId)
                                 && controller.deviceRamps == old(controller.deviceRamps)
      ensures r.Ok? ==> presets.activePresetId == Some(id) && id in presets.presets
      ensures r.Ok? ==> Validate(presets.presets[id].config).Ok?
      ensures r.Ok? ==> forall d :: d in monitors ==>
        d in controller.deviceRamps && controller.deviceRamps[d] == RampFor(presets.presets[id].config, gammaCorrect)
      ensures r.Err? ==> presets.activePresetId == old(presets.activePresetId)
    {
      var found := presets.GetPreset(id);
      if found.None? {
        return Err(NoSuchPreset);
      }
      if monitors == [] {
        return Err(NoMonitorSelected);
      }
      r := ApplyToMonitors(found.value.config, monitors, writable, gammaCorrect);
      if r.Err? {
        return;
      }
      r := presets.SetActivePreset(id);
    }

    /** apply_config: a preview; the configuration is checked first and no preset becomes active. */
    method ApplyConfig(c: FilterConfig, monitors: seq<string>, writable: set<string>,
                       gammaCorrect: (real, real) -> real) returns (r: Result<(), string>)
      modifies controller
      ensures Validate(c).Err? ==> r == Validate(c) && controller.deviceRamps == old(controller.deviceRamps)
      ensures monitors == [] ==> r.Err? && controller.deviceRamps == old(controller.deviceRamps)
      ensures r.Ok? ==> forall d :: d in monitors ==> d in controller.deviceRamps && controller.deviceRamps[d] == RampFor(c, gammaCorrect)
    {
      var valid := Validate(c);
      if valid.Err? {
        return valid;
      }
      if monitors == [] {
        return Err(NoMonitorSelected);
      }
      r := ApplyToMonitors(c, monitors, writable, gammaCorrect);
    }

    /** reset_filter: the displays are restored; only when that succeeds is the active preset cleared. */
    method ResetFilter(writable: set<string>) returns (r: Result<(), string>)
      modifies presets, controller
      ensures presets.presets == old(presets.presets)
      ensures controller.originalRamps == map[]
      ensures r.Ok? <==> old(controller.originalRamps).Keys <= writable
      ensures r.Ok? ==> presets.activePresetId.None?
      ensures r.Err? ==> presets.activePresetId == old(presets.activePresetId)
    {
      r := controller.Reset(writable);
      if r.Err? {
        return;
      }
      presets.Replace(PresetData(presets.presets, None));
    }

    /** import_presets: the whole collection is replaced, and only by one that parsed. */
    method ImportPresets(parsed: Option<PresetData>) returns (r: Result<(), string>)
      modifies presets
      ensures parsed.None? ==> r.Err? && presets.presets == old(presets.presets)
                               && presets.activePresetId == old(presets.activePresetId)
      ensures parsed.Some? ==> r.Ok? && presets.Data() == parsed.value
    {
      if parsed.None? {
        return Err("导入失败");
      }
      presets.Replace(parsed.value);
      return Ok(());
    }

    /** reset_to_defaults: the built-in collection. */
    method ResetToDefaults() returns (r: Result<(), string>)
      modifies presets
      ensures r.Ok? && presets.presets == DefaultPresets && presets.activePresetId == Some(DefaultId)
    {
      presets.Replace(PresetData(DefaultPresets, Some(DefaultId)));
      return Ok(());
    }

    /** A preset created without a hotkey can be read back, deleted, and is then gone. */
    method CreateThenDelete(name: string, uuid: string) returns (afterDelete: Result<FilterPreset, string>)
      modifies presets
      ensures afterDelete.Err?
    {
      var created := CreatePreset(name, DefaultConfig, None, uuid);
      DefaultCollectionShape();
      assert created.Ok?;
      var read := GetPreset(created.value);
      assert read.Ok?;
      var deleted := DeletePreset(created.value);
      assert deleted.Ok?;
      afterDelete := GetPreset(created.value);
    }
  }
}
