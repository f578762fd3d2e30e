/**
 * The older preset manager: a list of presets kept in its own file, saved
 * after each change. The file is modelled by what reading it gave and saving
 * by `written`, the list last written.
 */
module PresetManagerPy {
  import opened Wrappers
  import opened Json
  import opened FilterModels

  /** What reading the presets file gave. */
  datatype PresetFile = Missing | Unreadable | Parsed(data: Json)

  /** The built-in presets _create_default_presets returns. */
  const DefaultPresets: seq<FilterPreset> :=
    [FilterPreset("default", "默认", DefaultFilterConfig, Some("F2"), true),
     FilterPreset("daytime", "白天", DefaultFilterConfig.(brightness := 0.03, gamma := 1.5, contrast := 0.05), Some("F3"), true),
     FilterPreset("nighttime", "夜间", DefaultFilterConfig.(brightness := 0.55, gamma := 1.95, contrast := 0.22), Some("F4"), true)]

  /** Built-in presets: ids default/daytime/nighttime, all built in, on F2/F3/F4. */
  lemma DefaultPresetsShape()
    ensures |DefaultPresets| == 3 && forall i :: 0 <= i < 3 ==> DefaultPresets[i].isDefault
    ensures DefaultPresets[0].id == "default" && DefaultPresets[1].id == "daytime" && DefaultPresets[2].id == "nighttime"
    ensures DefaultPresets[0].hotkey == Some("F2") && DefaultPresets[1].hotkey == Some("F3") && DefaultPresets[2].hotkey == Some("F4")
  {
  }

  /** The presets a parsed file holds: data.get("presets", []) read entry by entry, if every entry is a preset dictionary. */
  function PresetsIn(data: Json): (r: Option<seq<FilterPreset>>)
    ensures data.JObj? && "presets" !in data.fields ==> r == Some([])
    ensures !data.JObj? ==> r.None?
    ensures r.Some? && data.JObj? && "presets" in data.fields ==>
      && data.fields["presets"].JArr?
      && |r.value| == |data.fields["presets"].items|
      && forall i :: 0 <= i < |r.value| ==>
           data.fields["presets"].items[i].JObj? && WellTypedPresetDict(data.fields["presets"].items[i].fields)
           && r.value[i] == PresetFromDict(data.fields["presets"].items[i].fields)
  {
    if !data.JObj? then None
    else if "presets" !in data.fields then Some([])
    else
      var list := data.fields["presets"];
      if list.JArr? && forall i :: 0 <= i < |list.items| ==> list.items[i].JObj? && WellTypedPresetDict(list.items[i].fields)
      then Some(seq(|list.items|, i requires 0 <= i < |list.items| && list.items[i].JObj? && WellTypedPresetDict(list.items[i].fields)
                                  => PresetFromDict(list.items[i].fields)))
      else None
  }

  /** The index of the first preset with this id, or |ps| when there is none. */
  function FirstWithId(ps: seq<FilterPreset>, id: string): (k: nat)
    ensures k <= |ps|
    ensures k < |ps| ==> ps[k].id == id
    ensures forall j :: 0 <= j < k ==> ps[j].id != id
  {
    if |ps| == 0 then 0
    else if ps[0].id == id then 0
    else 1 + FirstWithId(ps[1..], id)
  }

  /** The presets without this id, in their order. */
  function RemoveId(ps: seq<FilterPreset>, id: string): (rest: seq<FilterPreset>)
    ensures |rest| <= |ps|
    ensures forall p :: p in rest <==> p in ps && p.id != id
  {
    if |ps| == 0 then []
    else
      var tail := RemoveId(ps[1..], id);
      assert forall p :: p in ps <==> p == ps[0] || p in ps[1..];
      if ps[0].id == id then tail else [ps[0]] + tail
  }

  /** One unfolding of the comprehension at the front of the list. */
  lemma RemoveIdCons(x: FilterPreset, t: seq<FilterPreset>, id: string)
    ensures RemoveId([x] + t, id) == (if x.id == id then [] else [x]) + RemoveId(t, id)
  {
    var s := [x] + t;
    assert s[0] == x && s[1..] == t;
  }

  /**
   * The comprehension keeps list order: removing from a concatenation is
   * removing from each part, and a single entry is kept iff it has another
   * id. Together these fix the result entry by entry.
   */
  lemma {:induction false} RemoveIdOrder(a: seq<FilterPreset>, b: seq<FilterPreset>, x: FilterPreset, id: string)
    ensures RemoveId(a + b, id) == RemoveId(a, id) + RemoveId(b, id)
    ensures RemoveId([x], id) == if x.id == id then [] else [x]
  {
    RemoveIdAppend(a, b, id);
    RemoveIdCons(x, [], id);
    assert [x] + [] == [x];
  }

  /** Removal distributes over concatenation, by induction on the first part. */
  lemma {:induction false} RemoveIdAppend(a: seq<FilterPreset>, b: seq<FilterPreset>, id: string)
    ensures RemoveId(a + b, id) == RemoveId(a, id) + RemoveId(b, id)
  {
    if |a| > 0 {
      var t := a[1..];
      var h := if a[0].id == id then [] else [a[0]];
      var left, right, both := RemoveId(t, id), RemoveId(b, id), RemoveId(t + b, id);
      assert both == left + right by { RemoveIdAppend(t, b, id); }
      assert RemoveId(a + b, id) == h + both by {
        var ab := a + b;
        assert ab[0] == a[0] && ab[1..] == t + b;
      }
      assert RemoveId(a, id) == h + left;
      assert h + (left + right) == (h + left) + right;
    } else {
      assert a + b == b;
    }
  }

  /** Every entry with another id is kept as often as it occurs, and no entry with this id is. */
  lemma {:induction false} RemoveIdEntries(items: seq<FilterPreset>, id: string)
    ensures forall p :: multiset(RemoveId(items, id))[p] == if p.id == id then 0 else multiset(items)[p]
  {
    if |items| > 0 {
      var t := items[1..];
      assert items == [items[0]] + t;
      RemoveIdCons(items[0], t, id);
      RemoveIdEntries(t, id);
    }
  }

  /** Removing an id that no preset has changes nothing. */
  lemma {:induction false} RemoveAbsentId(ps: seq<FilterPreset>, id: string)
    requires forall i :: 0 <= i < |ps| ==> ps[i].id != id
    ensures RemoveId(ps, id) == ps
  {
    if |ps| > 0 {
      RemoveAbsentId(ps[1..], id);
    }
  }

  /** Removing is idempotent. */
  lemma {:induction false} RemoveIdIdempotent(ps: seq<FilterPreset>, id: string)
    ensures RemoveId(RemoveId(ps, id), id) == RemoveId(ps, id)
  {
    var rest := RemoveId(ps, id);
    forall i | 0 <= i < |rest|
      ensures rest[i].id != id
    {
      assert rest[i] in rest;
    }
    RemoveAbsentId(rest, id);
  }

  /** PresetManager: the preset list and what was last written to its file. */
  class PresetManager {
    var presets: seq<FilterPreset>
    var written: Option<seq<FilterPreset>>

    /**
     * load_presets: a missing file gives the built-in presets, which are then
     * saved; any other failure gives them without saving.
     */
    constructor (file: PresetFile)
      ensures file.Missing? ==> presets == DefaultPresets && written == Some(DefaultPresets)
      ensures file.Unreadable? ==> presets == DefaultPresets && written.None?
      ensures file.Parsed? && PresetsIn(file.data).None? ==> presets == DefaultPresets && written.None?
      ensures file.Parsed? && PresetsIn(file.data).Some? ==> presets == PresetsIn(file.data).value && written.None?
    {
      written := None;
      match file
      case Missing =>
        presets := DefaultPresets;
        written := Some(presets);
      case Unreadable =>
        presets := DefaultPresets;
      case Parsed(data) =>
        var loaded := PresetsIn(data);
        presets := if loaded.Some? then loaded.value else DefaultPresets;
    }

    /** save_presets. */
    method SavePresets()
      modifies this
      ensures presets == old(presets) && written == Some(presets)
    {
      written := Some(presets);
    }

    /** get_preset_by_id: the first preset with the id. */
    method GetPresetById(id: string) returns (r: Option<FilterPreset>)
      ensures var k := FirstWithId(presets, id); r == (if k < |presets| then Some(presets[k]) else None)
      ensures r.Some? ==> r.value in presets && r.value.id == id
      ensures r.None? <==> forall i :: 0 <= i < |presets| ==> presets[i].id != id
    {
      for i := 0 to |presets|
        invariant forall j :: 0 <= j < i ==> presets[j].id != id
      {
        if presets[i].id == id {
          FirstWithIdIs(presets, id, i);
          return Some(presets[i]);
        }
      }
      FirstWithIdIs(presets, id, |presets|);
      return None;
    }

    /** add_preset: append and save. */
    method AddPreset(p: FilterPreset)
      modifies this
      ensures presets == old(presets) + [p] && written == Some(presets)
    {
      presets := presets + [p];
      SavePresets();
    }

    /** update_preset: replace the first preset with the same id and save; without one, nothing happens. */
    method UpdatePreset(p: FilterPreset)
      modifies this
      ensures var k := FirstWithId(old(presets), p.id);
        && (k < |old(presets)| ==> presets == old(presets)[k := p] && written == Some(presets))
        && (k == |old(presets)| ==> presets == old(presets) && written == old(written))
    {
      for i := 0 to |presets|
        invariant forall j :: 0 <= j < i ==> presets[j].id != p.id
        invariant presets == old(presets) && written == old(written)
      {
        if presets[i].id == p.id {
          FirstWithIdIs(presets, p.id, i);
          presets := presets[i := p];
          SavePresets();
          return;
        }
      }
      FirstWithIdIs(presets, p.id, |presets|);
    }

    /** delete_preset: every preset with the id goes, and the list is saved. */
    method DeletePreset(id: string)
      modifies this
      ensures presets == RemoveId(old(presets), id) && written == Some(presets)
      ensures forall p :: p in presets <==> p in old(presets) && p.id != id
    {
      presets := RemoveId(presets, id);
      SavePresets();
    }
  }

  /** FirstWithId is the first index the loops find. */
  lemma {:induction false} FirstWithIdIs(ps: seq<FilterPreset>, id: string, k: nat)
    requires k <= |ps|
    requires k < |ps| ==> ps[k].id == id
    requires forall j :: 0 <= j < k ==> ps[j].id != id
    ensures FirstWithId(ps, id) == k
  {
    if |ps| > 0 && k > 0 {
      FirstWithIdIs(ps[1..], id, k - 1);
    }
  }
}
