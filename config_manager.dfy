// MapConfigManager (modules/local_map/config_manager.py): the editors and
// validators of the per-map layer lists, and the JSON form of a layer.
//
// Python edits the MapLayer object that get_layer_by_id returns; here a layer
// is a value, so such an edit replaces the first layer of the list carrying
// that id. Each editor is a function on the layer list, proved against the
// promises the manager relies on, and applied in place by the class at the end
// of the module.
module ConfigManager {
  import opened Wrappers
  import opened Json
  import opened Geometry
  import opened LocalMapModels

  /** The failures a manager operation reports instead of acting. */
  datatype ConfigError = UnknownMap | UnknownLayer | IsBaseLayer | AlreadyBaseMap | NoBaseMap

  /** Two lists hold the same layer ids in the same places. */
  predicate SameIds(a: seq<MapLayer>, b: seq<MapLayer>)
  {
    |a| == |b| && forall i :: 0 <= i < |a| ==> a[i].layerId == b[i].layerId
  }

  /** Lists with the same ids find the same first index for every id. */
  lemma SameIdsSameIndex(a: seq<MapLayer>, b: seq<MapLayer>, id: int)
    requires SameIds(a, b)
    ensures FirstIndexOf(a, id) == FirstIndexOf(b, id)
  {
    assert forall k :: 0 <= k < |a| ==> (a[k].layerId == id <==> b[k].layerId == id);
  }

  /** No layer both keeps a region of its own and refers to another layer's. */
  predicate RegionsConsistent(layers: seq<MapLayer>)
  {
    forall i :: 0 <= i < |layers| ==> !(layers[i].region.Some? && layers[i].regionOwnerLayerId.Some?)
  }

  // ------------------------------------------------------------ base-map count

  /** count_base_maps: how many layers carry the base-map flag. */
  function CountBase(layers: seq<MapLayer>): (r: nat)
    ensures r <= |layers|
  {
    if |layers| == 0 then 0
    else (if layers[0].isBaseMap then 1 else 0) + CountBase(layers[1..])
  }

  /** No base map is counted exactly when get_base_map finds none. */
  lemma {:induction false} CountBaseZero(layers: seq<MapLayer>)
    ensures CountBase(layers) == 0 <==> FirstBaseIndex(layers).None?
  {
    if |layers| > 0 {
      CountBaseZero(layers[1..]);
    }
  }

  lemma {:induction false} CountBaseAppend(a: seq<MapLayer>, b: seq<MapLayer>)
    ensures CountBase(a + b) == CountBase(a) + CountBase(b)
  {
    if |a| > 0 {
      assert (a + b)[0] == a[0];
      assert (a + b)[1..] == a[1..] + b;
      CountBaseAppend(a[1..], b);
      assert CountBase(a + b) == (if a[0].isBaseMap then 1 else 0) + CountBase(a[1..] + b);
    } else {
      assert a + b == b;
    }
  }

  /** Reordering a list does not change how many base maps it holds. */
  lemma {:induction false} CountBasePermutation(a: seq<MapLayer>, b: seq<MapLayer>)
    requires multiset(a) == multiset(b)
    ensures CountBase(a) == CountBase(b)
  {
    if |a| > 0 {
      var x := a[0];
      assert x in multiset(b);
      var j :| 0 <= j < |b| && b[j] == x;
      var rest := b[..j] + b[j + 1..];
      assert b == b[..j] + [x] + b[j + 1..];
      assert a == [x] + a[1..];
      assert multiset(a) == multiset{x} + multiset(a[1..]);
      assert multiset(b) == multiset(b[..j]) + multiset{x} + multiset(b[j + 1..]);
      assert multiset(rest) == multiset(b[..j]) + multiset(b[j + 1..]);
      assert multiset(a[1..]) == multiset(a) - multiset{x};
      assert multiset(rest) == multiset(b) - multiset{x};
      CountBasePermutation(a[1..], rest);
      CountBaseAppend(b[..j] + [x], b[j + 1..]);
      CountBaseAppend(b[..j], [x]);
      CountBaseAppend(b[..j], b[j + 1..]);
    } else {
      assert |b| == |multiset(b)|;
    }
  }

  /** Lists whose base flags agree place by place hold as many base maps. */
  lemma {:induction false} CountBaseSameFlags(a: seq<MapLayer>, b: seq<MapLayer>)
    requires |a| == |b| && forall i :: 0 <= i < |a| ==> a[i].isBaseMap == b[i].isBaseMap
    ensures CountBase(a) == CountBase(b)
  {
    if |a| > 0 {
      CountBaseSameFlags(a[1..], b[1..]);
    }
  }

  /** Changing one layer's base flag moves the count by exactly that change. */
  lemma {:induction false} CountBaseUpdate(a: seq<MapLayer>, k: nat, l: MapLayer)
    requires k < |a|
    ensures CountBase(a[k := l]) + (if a[k].isBaseMap then 1 else 0)
         == CountBase(a) + (if l.isBaseMap then 1 else 0)
  {
    if k > 0 {
      assert a[k := l][1..] == a[1..][k - 1 := l];
      CountBaseUpdate(a[1..], k - 1, l);
    } else {
      assert a[k := l][1..] == a[1..];
    }
  }

  // ------------------------------------------------------------ set_map_image

  /**
   * set_map_image on the layer list: the first layer with the id gets the new
   * image, name, height band and rotation and keeps its calibration points,
   * flags and region; without one, a new floor layer with no points is added
   * and the list re-sorted by id.
   */
  function SetImage(layers: seq<MapLayer>, layerId: int, imagePath: string, name: string,
                    heightMin: real, heightMax: real, rotationOffset: real): seq<MapLayer>
  {
    match FirstIndexOf(layers, layerId)
    case Some(k) =>
      layers[k := layers[k].(imagePath := imagePath, name := name, heightMin := heightMin,
                             heightMax := heightMax, rotationOffset := rotationOffset)]
    case None =>
      SortById(layers + [MapLayer(layerId, name, imagePath, heightMin, heightMax, [], rotationOffset, false, None, None)])
  }

  /**
   * Adding a layer whose id is new and re-sorting: the id then finds exactly
   * that layer, and the base-map count and region consistency are those of
   * the list plus the new layer.
   */
  lemma InsertNewLayer(layers: seq<MapLayer>, added: MapLayer)
    requires FirstIndexOf(layers, added.layerId).None?
    ensures var r := SortById(layers + [added]);
      && |r| == |layers| + 1
      && LayerById(r, added.layerId) == Some(added)
      && CountBase(r) == CountBase(layers) + (if added.isBaseMap then 1 else 0)
      && (RegionsConsistent(layers) && !(added.region.Some? && added.regionOwnerLayerId.Some?) ==> RegionsConsistent(r))
  {
    var r := SortById(layers + [added]);
    var grown := layers + [added];
    assert multiset(r) == multiset(grown);
    assert |r| == |layers| + 1 by {
      assert |r| == |multiset(r)| == |multiset(grown)| == |grown|;
    }
    assert LayerById(r, added.layerId) == Some(added) by {
      assert added in multiset(r);
      var k := FirstIndexOf(r, added.layerId);
      assert r[k.value] in multiset(grown);
      assert forall l | l in multiset(layers) :: l.layerId != added.layerId;
    }
    assert CountBase(r) == CountBase(layers) + (if added.isBaseMap then 1 else 0) by {
      CountBasePermutation(r, grown);
      CountBaseAppend(layers, [added]);
    }
    ConsistentPermutation(r, grown);
  }

  /** Region consistency is a property of each layer, so any reordering keeps it. */
  lemma ConsistentPermutation(a: seq<MapLayer>, b: seq<MapLayer>)
    requires multiset(a) == multiset(b)
    ensures RegionsConsistent(b) ==> RegionsConsistent(a)
  {
    forall i | 0 <= i < |a| ensures a[i] in multiset(b) {
    }
  }

  /**
   * After set_map_image the id is present and names a layer carrying the new
   * image settings; a new layer is a floor with no calibration points and no
   * region. The number of base maps never changes, nor does region consistency.
   */
  lemma SetImageEffect(layers: seq<MapLayer>, layerId: int, imagePath: string, name: string,
                       heightMin: real, heightMax: real, rotationOffset: real)
    ensures var r := SetImage(layers, layerId, imagePath, name, heightMin, heightMax, rotationOffset);
      && LayerById(r, layerId).Some?
      && var l := LayerById(r, layerId).value;
      && l.imagePath == imagePath && l.name == name && l.heightMin == heightMin
      && l.heightMax == heightMax && l.rotationOffset == rotationOffset
      && (LayerById(layers, layerId).None? ==>
            l.calibrationPoints == [] && !l.isBaseMap && l.region.None? && l.regionOwnerLayerId.None?
            && |r| == |layers| + 1)
      && (SortedById(layers) ==> SortedById(r))
      && CountBase(r) == CountBase(layers)
      && (RegionsConsistent(layers) ==> RegionsConsistent(r))
  {
    var r := SetImage(layers, layerId, imagePath, name, heightMin, heightMax, rotationOffset);
    match FirstIndexOf(layers, layerId)
    case Some(k) =>
      assert SameIds(layers, r);
      SameIdsSameIndex(layers, r, layerId);
      CountBaseUpdate(layers, k, r[k]);
    case None =>
      InsertNewLayer(layers, MapLayer(layerId, name, imagePath, heightMin, heightMax, [], rotationOffset, false, None, None));
  }

  // ------------------------------------------------------ calibration points

  /** add_calibration_point on the layer list; unchanged when no layer has the id. */
  function WithCalibrationPoint(layers: seq<MapLayer>, layerId: int, p: CalibrationPoint): seq<MapLayer>
  {
    match FirstIndexOf(layers, layerId)
    case Some(k) => layers[k := layers[k].(calibrationPoints := layers[k].calibrationPoints + [p])]
    case None => layers
  }

  /**
   * add_calibration_point appends exactly one point, to the layer
   * get_layer_by_id finds, and changes nothing else; an unknown id is a
   * silent no-op.
   */
  lemma AddCalibrationPointEffect(layers: seq<MapLayer>, layerId: int, p: CalibrationPoint)
    ensures var r := WithCalibrationPoint(layers, layerId, p);
      && SameIds(layers, r)
      && (LayerById(layers, layerId).None? ==> r == layers)
      && (LayerById(layers, layerId).Some? ==>
            LayerById(r, layerId) == Some(LayerById(layers, layerId).value.(calibrationPoints :=
              LayerById(layers, layerId).value.calibrationPoints + [p])))
      && forall i :: 0 <= i < |r| && FirstIndexOf(layers, layerId) != Some(i) ==> r[i] == layers[i]
  {
    var r := WithCalibrationPoint(layers, layerId, p);
    assert SameIds(layers, r);
    SameIdsSameIndex(layers, r, layerId);
  }

  /** clear_calibration_points on the layer list. */
  function WithoutCalibrationPoints(layers: seq<MapLayer>, layerId: int): seq<MapLayer>
  {
    match FirstIndexOf(layers, layerId)
    case Some(k) => layers[k := layers[k].(calibrationPoints := [])]
    case None => layers
  }

  /** clear_calibration_points empties only the named layer, which is then uncalibrated. */
  lemma ClearCalibrationPointsEffect(layers: seq<MapLayer>, layerId: int)
    ensures var r := WithoutCalibrationPoints(layers, layerId);
      && SameIds(layers, r)
      && (LayerById(r, layerId).Some? ==> !IsCalibrated(LayerById(r, layerId).value))
      && forall i :: 0 <= i < |r| && FirstIndexOf(layers, layerId) != Some(i) ==> r[i] == layers[i]
  {
    var r := WithoutCalibrationPoints(layers, layerId);
    assert SameIds(layers, r);
    SameIdsSameIndex(layers, r, layerId);
  }

  /**
   * calculate_transform on a map's layer list: no transform for an unknown
   * layer or one that is not calibrated (fewer than 3 points); otherwise the
   * fit of the layer's points. `fit` is CoordinateTransform.calculate_from_points
   * with the player position already applied, None standing for an
   * exception, which calculate_transform turns into None.
   */
  function TransformFor(layers: seq<MapLayer>, layerId: int, fit: seq<CalibrationPoint> -> Option<Transform>)
    : (r: Option<Transform>)
    ensures LayerById(layers, layerId).None? ==> r.None?
    ensures LayerById(layers, layerId).Some? && !IsCalibrated(LayerById(layers, layerId).value) ==> r.None?
    ensures LayerById(layers, layerId).Some? && IsCalibrated(LayerById(layers, layerId).value) ==>
      r == fit(LayerById(layers, layerId).value.calibrationPoints)
  {
    match LayerById(layers, layerId)
    case None => None
    case Some(l) => if IsCalibrated(l) then fit(l.calibrationPoints) else None
  }

  // ------------------------------------------------------------------ regions

  /**
   * set_layer_region as written: a base layer is refused; otherwise only the
   * region field is replaced and a reference to another layer stays.
   */
  function SetRegionAsWritten(layers: seq<MapLayer>, layerId: int, region: Region): (r: seq<MapLayer>)
    ensures SameIds(layers, r)
  {
    match FirstIndexOf(layers, layerId)
    case Some(k) => if layers[k].isBaseMap then layers else layers[k := layers[k].(region := Some(region))]
    case None => layers
  }

  /** set_layer_region as intended: the layer becomes the owner of the new region, so the reference goes. */
  function SetRegion(layers: seq<MapLayer>, layerId: int, region: Region): (r: seq<MapLayer>)
    ensures SameIds(layers, r)
  {
    match FirstIndexOf(layers, layerId)
    case Some(k) =>
      if layers[k].isBaseMap then layers
      else layers[k := layers[k].(region := Some(region), regionOwnerLayerId := None)]
    case None => layers
  }

  /**
   * The intended set_layer_region refuses base layers, makes a floor layer the
   * owner of exactly the new region (its effective region), and keeps the
   * lists' region consistency.
   */
  lemma SetRegionEffect(layers: seq<MapLayer>, layerId: int, region: Region)
    ensures var r := SetRegion(layers, layerId, region);
      && SameIds(layers, r)
      && (LayerById(layers, layerId).Some? && LayerById(layers, layerId).value.isBaseMap ==> r == layers)
      && (LayerById(layers, layerId).Some? && !LayerById(layers, layerId).value.isBaseMap ==>
            && IsRegionOwner(LayerById(r, layerId).value)
            && EffectiveRegion(LayerById(r, layerId).value, r) == Some(region))
      && (RegionsConsistent(layers) ==> RegionsConsistent(r))
      && CountBase(r) == CountBase(layers)
  {
    var r := SetRegion(layers, layerId, region);
    assert SameIds(layers, r);
    SameIdsSameIndex(layers, r, layerId);
    if FirstIndexOf(layers, layerId).Some? {
      var k := FirstIndexOf(layers, layerId).value;
      CountBaseUpdate(layers, k, r[k]);
    }
  }

  /** clear_layer_region: the first layer with the id loses its own region (base layers included). */
  function ClearRegion(layers: seq<MapLayer>, layerId: int): seq<MapLayer>
  {
    match FirstIndexOf(layers, layerId)
    case Some(k) => layers[k := layers[k].(region := None)]
    case None => layers
  }

  /**
   * bind_layer_to_region: only when both layers exist and the owner owns a
   * region; the layer then drops its own region and refers to the owner.
   */
  function Bind(layers: seq<MapLayer>, layerId: int, ownerId: int): seq<MapLayer>
  {
    match (FirstIndexOf(layers, layerId), FirstIndexOf(layers, ownerId))
    case (Some(k), Some(o)) =>
      if IsRegionOwner(layers[o]) then layers[k := layers[k].(region := None, regionOwnerLayerId := Some(ownerId))]
      else layers
    case _ => layers
  }

  /**
   * After binding a layer to a distinct owner that owns a region, the layer
   * shows exactly the owner's region; binding is refused otherwise. Binding
   * keeps region consistency.
   */
  lemma BindEffect(layers: seq<MapLayer>, layerId: int, ownerId: int)
    ensures var r := Bind(layers, layerId, ownerId);
      && SameIds(layers, r)
      && ((|| LayerById(layers, ownerId).None? || LayerById(layers, layerId).None?
           || !IsRegionOwner(LayerById(layers, ownerId).value)) ==> r == layers)
      && (LayerById(layers, layerId).Some? && LayerById(layers, ownerId).Some?
          && IsRegionOwner(LayerById(layers, ownerId).value) && layerId != ownerId ==>
            && LayerById(r, layerId).value.regionOwnerLayerId == Some(ownerId)
            && EffectiveRegion(LayerById(r, layerId).value, r) == LayerById(layers, ownerId).value.region)
      && (RegionsConsistent(layers) ==> RegionsConsistent(r))
      && CountBase(r) == CountBase(layers)
  {
    var r := Bind(layers, layerId, ownerId);
    assert SameIds(layers, r);
    SameIdsSameIndex(layers, r, layerId);
    SameIdsSameIndex(layers, r, ownerId);
    if FirstIndexOf(layers, layerId).Some? {
      var k := FirstIndexOf(layers, layerId).value;
      CountBaseUpdate(layers, k, r[k]);
    }
  }

  /** unbind_layer_region: the first layer with the id loses both its region and its reference. */
  function Unbind(layers: seq<MapLayer>, layerId: int): seq<MapLayer>
  {
    match FirstIndexOf(layers, layerId)
    case Some(k) => layers[k := layers[k].(region := None, regionOwnerLayerId := None)]
    case None => layers
  }

  /** After unbinding, the layer has no effective region, and so is activated by height alone. */
  lemma UnbindEffect(layers: seq<MapLayer>, layerId: int)
    ensures var r := Unbind(layers, layerId);
      && SameIds(layers, r)
      && (LayerById(r, layerId).Some? ==> EffectiveRegion(LayerById(r, layerId).value, r).None?)
      && (RegionsConsistent(layers) ==> RegionsConsistent(r))
      && CountBase(r) == CountBase(layers)
  {
    var r := Unbind(layers, layerId);
    assert SameIds(layers, r);
    SameIdsSameIndex(layers, r, layerId);
    if FirstIndexOf(layers, layerId).Some? {
      var k := FirstIndexOf(layers, layerId).value;
      CountBaseUpdate(layers, k, r[k]);
    }
  }

  // ------------------------------------------------------------ delete_layer

  /** Every layer that refers to ownerId forgets the reference; nothing else changes. */
  function ClearReferences(layers: seq<MapLayer>, ownerId: int): (r: seq<MapLayer>)
    ensures SameIds(layers, r)
  {
    seq(|layers|, i requires 0 <= i < |layers| =>
      if layers[i].regionOwnerLayerId == Some(ownerId) then layers[i].(regionOwnerLayerId := None) else layers[i])
  }

  /**
   * delete_layer on the layer list: an unknown id or a base layer is an
   * error; references to the target are cleared only when the target owns
   * its region; then the first layer with the id is removed.
   */
  function DeleteLayerSpec(layers: seq<MapLayer>, layerId: int): Result<seq<MapLayer>, ConfigError>
  {
    match FirstIndexOf(layers, layerId)
    case None => Err(UnknownLayer)
    case Some(k) =>
      if layers[k].isBaseMap then Err(IsBaseLayer)
      else
        var cleared := if IsRegionOwner(layers[k]) then ClearReferences(layers, layerId) else layers;
        Ok(cleared[..k] + cleared[k + 1..])
  }

  /**
   * delete_layer refuses an unknown id and a base layer, and otherwise
   * succeeds.
   */
  lemma DeleteLayerOutcome(layers: seq<MapLayer>, layerId: int)
    ensures var d := DeleteLayerSpec(layers, layerId);
      && (d == Err(UnknownLayer) <==> LayerById(layers, layerId).None?)
      && (d == Err(IsBaseLayer) <==> LayerById(layers, layerId).Some? && LayerById(layers, layerId).value.isBaseMap)
      && (d.Ok? <==> LayerById(layers, layerId).Some? && !LayerById(layers, layerId).value.isBaseMap)
  {
  }

  /**
   * A successful delete_layer removes exactly one layer, the first with the
   * id. When it owned its region no remaining layer refers to it; every other
   * layer is kept, losing at most a reference to the deleted one.
   */
  lemma DeleteLayerEffect(layers: seq<MapLayer>, layerId: int)
    requires DeleteLayerSpec(layers, layerId).Ok?
    ensures var r := DeleteLayerSpec(layers, layerId).value;
      && var k := FirstIndexOf(layers, layerId).value;
      && |r| == |layers| - 1
      && (IsRegionOwner(layers[k]) ==> forall i :: 0 <= i < |r| ==> r[i].regionOwnerLayerId != Some(layerId))
      && forall i :: 0 <= i < |r| ==>
           var before := layers[if i < k then i else i + 1];
           r[i] == before || r[i] == before.(regionOwnerLayerId := None)
  {
    var k := FirstIndexOf(layers, layerId).value;
    var cleared := if IsRegionOwner(layers[k]) then ClearReferences(layers, layerId) else layers;
    var r := cleared[..k] + cleared[k + 1..];
    assert r == DeleteLayerSpec(layers, layerId).value;
    RemoveAtShifts(cleared, k, r);
    ClearedEntries(layers, layerId, IsRegionOwner(layers[k]));
  }

  /** The list without entry k: entries before k stay, later ones move down by one. */
  lemma RemoveAtShifts(s: seq<MapLayer>, k: nat, r: seq<MapLayer>)
    requires k < |s| && r == s[..k] + s[k + 1..]
    ensures |r| == |s| - 1
    ensures forall i :: 0 <= i < |r| ==> r[i] == s[if i < k then i else i + 1]
  {
  }

  /** Clearing references (or not) keeps each layer, up to a dropped reference to ownerId. */
  lemma ClearedEntries(layers: seq<MapLayer>, ownerId: int, clear: bool)
    ensures var cleared := if clear then ClearReferences(layers, ownerId) else layers;
      && |cleared| == |layers|
      && (clear ==> forall i :: 0 <= i < |cleared| ==> cleared[i].regionOwnerLayerId != Some(ownerId))
      && forall i :: 0 <= i < |cleared| ==> cleared[i] == layers[i] || cleared[i] == layers[i].(regionOwnerLayerId := None)
  {
  }

  /** delete_layer removes a floor layer, so the base-map count is kept; so is region consistency. */
  lemma DeleteLayerKeepsInvariants(layers: seq<MapLayer>, layerId: int)
    requires DeleteLayerSpec(layers, layerId).Ok?
    ensures CountBase(DeleteLayerSpec(layers, layerId).value) == CountBase(layers)
    ensures RegionsConsistent(layers) ==> RegionsConsistent(DeleteLayerSpec(layers, layerId).value)
  {
    var k := FirstIndexOf(layers, layerId).value;
    var owner := IsRegionOwner(layers[k]);
    var cleared := if owner then ClearReferences(layers, layerId) else layers;
    var r := cleared[..k] + cleared[k + 1..];
    assert r == DeleteLayerSpec(layers, layerId).value;
    CountBaseSameFlags(cleared, layers);
    CountBaseRemove(cleared, k);
    if RegionsConsistent(layers) {
      ClearedEntries(layers, layerId, owner);
      assert RegionsConsistent(cleared);
      RemoveAtShifts(cleared, k, r);
    }
  }

  /** Removing one layer lowers the base-map count by that layer's flag. */
  lemma {:induction false} CountBaseRemove(s: seq<MapLayer>, k: nat)
    requires k < |s|
    ensures CountBase(s[..k] + s[k + 1..]) + (if s[k].isBaseMap then 1 else 0) == CountBase(s)
  {
    var r := s[..k] + s[k + 1..];
    if k == 0 {
      assert r == s[1..];
    } else {
      assert r[0] == s[0];
      assert r[1..] == s[1..][..k - 1] + s[1..][k..];
      CountBaseRemove(s[1..], k - 1);
    }
  }

  // ------------------------------------------------------------ swap_base_map

  /** Every floor layer loses its region and its reference; base layers are kept as they are. */
  function ClearFloorRegions(layers: seq<MapLayer>): (r: seq<MapLayer>)
    ensures SameIds(layers, r)
  {
    seq(|layers|, i requires 0 <= i < |layers| =>
      if layers[i].isBaseMap then layers[i] else layers[i].(region := None, regionOwnerLayerId := None))
  }

  /**
   * swap_base_map on the layer list: the first base layer becomes a floor, the
   * first layer with the new id becomes the base, then every floor layer loses
   * its region and reference.
   */
  function SwapBase(layers: seq<MapLayer>, newBaseId: int): Result<seq<MapLayer>, ConfigError>
  {
    match FirstIndexOf(layers, newBaseId)
    case None => Err(UnknownLayer)
    case Some(n) =>
      if layers[n].isBaseMap then Err(AlreadyBaseMap)
      else match FirstBaseIndex(layers)
        case None => Err(NoBaseMap)
        case Some(o) =>
          var flipped := layers[o := layers[o].(isBaseMap := false)][n := layers[n].(isBaseMap := true)];
          Ok(ClearFloorRegions(flipped))
  }

  /**
   * swap_base_map moves exactly one base flag, from the old base to the new
   * one, so the number of base maps is unchanged (exactly one stays exactly
   * one), and afterwards no floor layer has a region or a reference.
   */
  lemma SwapBaseEffect(layers: seq<MapLayer>, newBaseId: int)
    ensures var s := SwapBase(layers, newBaseId);
      && (s == Err(UnknownLayer) <==> LayerById(layers, newBaseId).None?)
      && (s == Err(AlreadyBaseMap) <==> LayerById(layers, newBaseId).Some? && LayerById(layers, newBaseId).value.isBaseMap)
      && (s == Err(NoBaseMap) <==>
            LayerById(layers, newBaseId).Some? && !LayerById(layers, newBaseId).value.isBaseMap && CountBase(layers) == 0)
      && (s.Ok? ==>
            && SameIds(layers, s.value)
            && CountBase(s.value) == CountBase(layers)
            && s.value[FirstIndexOf(layers, newBaseId).value].isBaseMap
            && !s.value[FirstBaseIndex(layers).value].isBaseMap
            && (forall i :: 0 <= i < |layers| && i != FirstIndexOf(layers, newBaseId).value && i != FirstBaseIndex(layers).value ==>
                  s.value[i].isBaseMap == layers[i].isBaseMap)
            && forall i :: 0 <= i < |s.value| && !s.value[i].isBaseMap ==>
                  s.value[i].region.None? && s.value[i].regionOwnerLayerId.None?)
  {
    var s := SwapBase(layers, newBaseId);
    CountBaseZero(layers);
    if s.Ok? {
      var n := FirstIndexOf(layers, newBaseId).value;
      var o := FirstBaseIndex(layers).value;
      var step := layers[o := layers[o].(isBaseMap := false)];
      var flipped := step[n := layers[n].(isBaseMap := true)];
      CountBaseUpdate(layers, o, layers[o].(isBaseMap := false));
      CountBaseUpdate(step, n, layers[n].(isBaseMap := true));
      CountBaseSameFlags(flipped, s.value);
    }
  }

  /** delete_all_regions: every floor layer loses its region and reference. */
  lemma DeleteAllRegionsEffect(layers: seq<MapLayer>)
    ensures var r := ClearFloorRegions(layers);
      && CountBase(r) == CountBase(layers)
      && (RegionsConsistent(layers) ==> RegionsConsistent(r))
      && forall i :: 0 <= i < |r| && !r[i].isBaseMap ==> EffectiveRegion(r[i], r).None?
  {
    CountBaseSameFlags(layers, ClearFloorRegions(layers));
  }

  // ------------------------------------------------------------ JSON form

  /**
   * A JSON number read as a real; Python keeps ints and floats apart, but
   * every use here is arithmetic.
   */
  function NumberOf(j: Json): (r: Option<real>)
    ensures j.JReal? ==> r == Some(j.r)
  {
    match j
    case JReal(x) => Some(x)
    case JInt(i) => Some(i as real)
    case _ => None
  }

  /** Python truthiness of a JSON value. */
  predicate Truthy(j: Json)
  {
    match j
    case JNull => false
    case JBool(b) => b
    case JInt(i) => i != 0
    case JReal(x) => x != 0.0
    case JStr(s) => |s| > 0
    case JArr(items) => |items| > 0
    case JObj(fields) => |fields| > 0
  }

  /** A region vertex is stored as the pair [x, y]. */
  function PointJson(p: Point): Json
  {
    JArr([JReal(p.x), JReal(p.y)])
  }

  function PointFromJson(j: Json): Option<Point>
  {
    if j.JArr? && |j.items| == 2 then
      var x :- NumberOf(j.items[0]);
      var y :- NumberOf(j.items[1]);
      Some(Point(x, y))
    else None
  }

  function PointsJson(ps: seq<Point>): (r: seq<Json>)
    ensures |r| == |ps|
  {
    if |ps| == 0 then [] else [PointJson(ps[0])] + PointsJson(ps[1..])
  }

  function PointsFromJson(items: seq<Json>): Option<seq<Point>>
  {
    if |items| == 0 then Some([])
    else
      var p :- PointFromJson(items[0]);
      var rest :- PointsFromJson(items[1..]);
      Some([p] + rest)
  }

  lemma {:induction false} PointsRoundTrip(ps: seq<Point>)
    ensures PointsFromJson(PointsJson(ps)) == Some(ps)
  {
    if |ps| > 0 {
      var js := PointsJson(ps);
      assert js[0] == PointJson(ps[0]) && js[1..] == PointsJson(ps[1..]);
      PointsRoundTrip(ps[1..]);
      assert ps == [ps[0]] + ps[1..];
    }
  }

  /** _serialize_region. */
  function RegionJson(r: Region): Json
  {
    JObj(map["points" := JArr(PointsJson(r.points))])
  }

  /**
   * The region part of _deserialize_layer: a falsy value means no region, a
   * non-empty object is read through _deserialize_region (points defaulting
   * to the empty list); anything else fails.
   */
  function RegionFromJson(j: Json): Option<Option<Region>>
  {
    if !Truthy(j) then Some(None)
    else if j.JObj? then
      var pts := Get(j.fields, "points", JArr([]));
      if pts.JArr? then
        var ps :- PointsFromJson(pts.items);
        Some(Some(Region(ps)))
      else None
    else None
  }

  /** _serialize_calibration_point; the timestamp is already its ISO text. */
  function CalibrationPointJson(c: CalibrationPoint): Json
  {
    JObj(map[
      "game_pos" := JObj(map["x" := JReal(c.gamePos.x), "y" := JReal(c.gamePos.y), "z" := JReal(c.gamePos.z)]),
      "map_x" := JReal(c.mapX),
      "map_y" := JReal(c.mapY),
      "timestamp" := JStr(c.timestamp)])
  }

  /** A required key: Python's data[key], which raises KeyError when absent. */
  function Lookup(o: map<string, Json>, key: string): (r: Option<Json>)
    ensures key in o <==> r.Some?
    ensures key in o ==> r == Some(o[key])
  {
    if key in o then Some(o[key]) else None
  }

  function StringOf(j: Json): Option<string>
  {
    if j.JStr? then Some(j.s) else None
  }

  function ObjectOf(j: Json): Option<map<string, Json>>
  {
    if j.JObj? then Some(j.fields) else None
  }

  /** _deserialize_calibration_point. */
  function CalibrationPointFromJson(j: Json): Option<CalibrationPoint>
  {
    var o :- ObjectOf(j);
    var g :- Lookup(o, "game_pos");
    var go :- ObjectOf(g);
    var xj :- Lookup(go, "x");
    var yj :- Lookup(go, "y");
    var zj :- Lookup(go, "z");
    var x :- NumberOf(xj);
    var y :- NumberOf(yj);
    var z :- NumberOf(zj);
    var mxj :- Lookup(o, "map_x");
    var myj :- Lookup(o, "map_y");
    var mx :- NumberOf(mxj);
    var my :- NumberOf(myj);
    var tj :- Lookup(o, "timestamp");
    var t :- StringOf(tj);
    Some(CalibrationPoint(Position3D(x, y, z), mx, my, t))
  }

  function CalibrationPointsJson(cs: seq<CalibrationPoint>): seq<Json>
  {
    if |cs| == 0 then [] else [CalibrationPointJson(cs[0])] + CalibrationPointsJson(cs[1..])
  }

  function CalibrationPointsFromJson(items: seq<Json>): Option<seq<CalibrationPoint>>
  {
    if |items| == 0 then Some([])
    else
      var c :- CalibrationPointFromJson(items[0]);
      var rest :- CalibrationPointsFromJson(items[1..]);
      Some([c] + rest)
  }

  lemma CalibrationPointRoundTrip(c: CalibrationPoint)
    ensures CalibrationPointFromJson(CalibrationPointJson(c)) == Some(c)
  {
  }

  lemma {:induction false} CalibrationPointsRoundTrip(cs: seq<CalibrationPoint>)
    ensures CalibrationPointsFromJson(CalibrationPointsJson(cs)) == Some(cs)
  {
    if |cs| > 0 {
      var js := CalibrationPointsJson(cs);
      assert js[0] == CalibrationPointJson(cs[0]) && js[1..] == CalibrationPointsJson(cs[1..]);
      CalibrationPointRoundTrip(cs[0]);
      CalibrationPointsRoundTrip(cs[1..]);
      assert cs == [cs[0]] + cs[1..];
    }
  }

  /** region_owner_layer_id as JSON: null or the id. */
  function OwnerJson(owner: Option<int>): Json
  {
    if owner.Some? then JInt(owner.value) else JNull
  }

  /** The keys _serialize_layer always writes. */
  const LayerKeys: set<string> := {"layer_id", "name", "image_path", "height_min", "height_max", "rotation_offset",
                                   "is_base_map", "region_owner_layer_id", "calibration_points"}

  /**
   * _serialize_layer: every field, and 'region' only when the layer owns its
   * region; a referenced region is not written.
   */
  function LayerJson(l: MapLayer): (r: Json)
    ensures r.JObj? && r.fields.Keys == LayerKeys + (if IsRegionOwner(l) then {"region"} else {})
    ensures "layer_id" in r.fields && r.fields["layer_id"] == JInt(l.layerId)
  {
    var fields := map[
      "layer_id" := JInt(l.layerId),
      "name" := JStr(l.name),
      "image_path" := JStr(l.imagePath),
      "height_min" := JReal(l.heightMin),
      "height_max" := JReal(l.heightMax),
      "rotation_offset" := JReal(l.rotationOffset),
      "is_base_map" := JBool(l.isBaseMap),
      "region_owner_layer_id" := OwnerJson(l.regionOwnerLayerId),
      "calibration_points" := JArr(CalibrationPointsJson(l.calibrationPoints))];
    JObj(if IsRegionOwner(l) then fields["region" := RegionJson(l.region.value)] else fields)
  }

  /**
   * _deserialize_layer: is_base_map defaults to layer_id == 0, rotation to
   * 0.0 and the points to none; a stored region is read only when there is
   * no reference. None for a missing key or a non-object, where Python
   * raises; unlike the dataclass, fields of the wrong JSON type are refused
   * too, and any timestamp text is accepted as it stands.
   */
  function LayerFromJson(j: Json): (r: Option<MapLayer>)
    ensures r.Some? ==> j.JObj? && "layer_id" in j.fields && j.fields["layer_id"] == JInt(r.value.layerId)
    ensures r.Some? ==> r.value.isBaseMap == (if "is_base_map" in j.fields then j.fields["is_base_map"] == JBool(true)
                                               else r.value.layerId == 0)
    ensures r.Some? && r.value.regionOwnerLayerId.Some? ==> r.value.region.None?
  {
    var o :- ObjectOf(j);
    LayerFromFields(o)
  }

  /** The body of _deserialize_layer on the fields of the stored object. */
  function LayerFromFields(o: map<string, Json>): Option<MapLayer>
  {
    var idj :- Lookup(o, "layer_id");
    if !idj.JInt? then None
    else
      var id := idj.i;
      var basej := Get(o, "is_base_map", JBool(id == 0));
      if !basej.JBool? then None
      else
        var ownerj := Get(o, "region_owner_layer_id", JNull);
        if !(ownerj.JNull? || ownerj.JInt?) then None
        else
          var owner := if ownerj.JInt? then Some(ownerj.i) else None;
          var region :- if owner.None? then RegionFromJson(Get(o, "region", JNull)) else Some(None);
          var namej :- Lookup(o, "name");
          var name :- StringOf(namej);
          var imagej :- Lookup(o, "image_path");
          var image :- StringOf(imagej);
          var hminj :- Lookup(o, "height_min");
          var hmin :- NumberOf(hminj);
          var hmaxj :- Lookup(o, "height_max");
          var hmax :- NumberOf(hmaxj);
          var rot :- NumberOf(Get(o, "rotation_offset", JReal(0.0)));
          var cpsj := Get(o, "calibration_points", JArr([]));
          if !cpsj.JArr? then None
          else
            var cps :- CalibrationPointsFromJson(cpsj.items);
            Some(MapLayer(id, name, image, hmin, hmax, cps, rot, basej.b, region, owner))
  }

  /**
   * Saving and reloading a layer gives it back, except that a layer holding
   * both a region and a reference comes back without the region.
   */
  lemma LayerJsonRoundTrip(l: MapLayer)
    ensures LayerFromJson(LayerJson(l)) == Some(if l.regionOwnerLayerId.Some? then l.(region := None) else l)
  {
    var o := LayerJson(l).fields;
    LayerJsonIdentity(l);
    LayerJsonValues(l);
    LayerJsonRegion(l);
    CalibrationPointsRoundTrip(l.calibrationPoints);
    ReadLayerFields(o, l);
  }

  lemma LayerJsonIdentity(l: MapLayer)
    ensures var o := LayerJson(l).fields;
      && Lookup(o, "layer_id") == Some(JInt(l.layerId))
      && Get(o, "is_base_map", JBool(l.layerId == 0)) == JBool(l.isBaseMap)
      && Get(o, "region_owner_layer_id", JNull) == OwnerJson(l.regionOwnerLayerId)
  {
  }

  lemma LayerJsonValues(l: MapLayer)
    ensures var o := LayerJson(l).fields;
      && Lookup(o, "name") == Some(JStr(l.name))
      && Lookup(o, "image_path") == Some(JStr(l.imagePath))
      && Lookup(o, "height_min") == Some(JReal(l.heightMin))
      && Lookup(o, "height_max") == Some(JReal(l.heightMax))
      && Get(o, "rotation_offset", JReal(0.0)) == JReal(l.rotationOffset)
      && Get(o, "calibration_points", JArr([])) == JArr(CalibrationPointsJson(l.calibrationPoints))
  {
  }

  lemma LayerJsonRegion(l: MapLayer)
    ensures l.regionOwnerLayerId.None? ==> RegionFromJson(Get(LayerJson(l).fields, "region", JNull)) == Some(l.region)
  {
    var o := LayerJson(l).fields;
    if IsRegionOwner(l) {
      assert Get(o, "region", JNull) == RegionJson(l.region.value);
      PointsRoundTrip(l.region.value.points);
      assert Get(RegionJson(l.region.value).fields, "points", JArr([])) == JArr(PointsJson(l.region.value.points));
    } else if l.regionOwnerLayerId.None? {
      assert "region" !in o;
    }
  }

  /** What LayerFromFields reads from fields holding a layer's values (the map itself left abstract). */
  lemma ReadLayerFields(o: map<string, Json>, l: MapLayer)
    requires Lookup(o, "layer_id") == Some(JInt(l.layerId))
    requires Get(o, "is_base_map", JBool(l.layerId == 0)) == JBool(l.isBaseMap)
    requires Get(o, "region_owner_layer_id", JNull) == OwnerJson(l.regionOwnerLayerId)
    requires l.regionOwnerLayerId.None? ==> RegionFromJson(Get(o, "region", JNull)) == Some(l.region)
    requires Lookup(o, "name") == Some(JStr(l.name))
    requires Lookup(o, "image_path") == Some(JStr(l.imagePath))
    requires Lookup(o, "height_min") == Some(JReal(l.heightMin))
    requires Lookup(o, "height_max") == Some(JReal(l.heightMax))
    requires Get(o, "rotation_offset", JReal(0.0)) == JReal(l.rotationOffset)
    requires Get(o, "calibration_points", JArr([])) == JArr(CalibrationPointsJson(l.calibrationPoints))
    requires CalibrationPointsFromJson(CalibrationPointsJson(l.calibrationPoints)) == Some(l.calibrationPoints)
    ensures LayerFromFields(o) == Some(if l.regionOwnerLayerId.Some? then l.(region := None) else l)
  {
  }

  /** The reload gives back exactly the saved layer iff it is not both an owner of a region and a referrer. */
  lemma LayerReloadExact(l: MapLayer)
    ensures LayerFromJson(LayerJson(l)) == Some(l) <==> !(l.region.Some? && l.regionOwnerLayerId.Some?)
  {
    LayerJsonRoundTrip(l);
  }

  /**
   * The region loss: a layer that refers to another layer's region and is
   * then given a region of its own by set_layer_region (as written) comes
   * back from a save and reload without that region.
   */
  lemma SetRegionAsWrittenLosesRegion(layers: seq<MapLayer>, layerId: int, region: Region)
    requires FirstIndexOf(layers, layerId).Some?
    requires var k := FirstIndexOf(layers, layerId).value;
      !layers[k].isBaseMap && layers[k].regionOwnerLayerId.Some?
    ensures var edited := SetRegionAsWritten(layers, layerId, region)[FirstIndexOf(layers, layerId).value];
      && edited.region == Some(region)
      && LayerFromJson(LayerJson(edited)) == Some(edited.(region := None))
  {
    var edited := SetRegionAsWritten(layers, layerId, region)[FirstIndexOf(layers, layerId).value];
    LayerJsonRoundTrip(edited);
  }

  /** With the intended set_layer_region the edited floor layer reloads exactly, region included. */
  lemma SetRegionSurvivesReload(layers: seq<MapLayer>, layerId: int, region: Region)
    requires FirstIndexOf(layers, layerId).Some? && !layers[FirstIndexOf(layers, layerId).value].isBaseMap
    ensures var edited := SetRegion(layers, layerId, region)[FirstIndexOf(layers, layerId).value];
      && edited.region == Some(region)
      && LayerFromJson(LayerJson(edited)) == Some(edited)
  {
    var edited := SetRegion(layers, layerId, region)[FirstIndexOf(layers, layerId).value];
    LayerJsonRoundTrip(edited);
  }

  /** A concrete instance of the loss: floor 2 referring to floor 1 gets the triangle (0,0), (10,0), (0,10). */
  lemma RegionLossExample()
    ensures var triangle := Region([Point(0.0, 0.0), Point(10.0, 0.0), Point(0.0, 10.0)]);
      var floor := MapLayer(2, "2F", "2f.png", 5.0, 10.0, [], 0.0, false, None, Some(1));
      var edited := SetRegionAsWritten([floor], 2, triangle)[0];
      edited.region == Some(triangle) && LayerFromJson(LayerJson(edited)) == Some(edited.(region := None))
  {
    var triangle := Region([Point(0.0, 0.0), Point(10.0, 0.0), Point(0.0, 10.0)]);
    var floor := MapLayer(2, "2F", "2f.png", 5.0, 10.0, [], 0.0, false, None, Some(1));
    SetRegionAsWrittenLosesRegion([floor], 2, triangle);
  }

  // ------------------------------------------------------------ validators

  /** What validate_region_no_overlap reports. */
  datatype OverlapCheck = NoOverlap | OverlapsWith(layerId: int, name: string) | Raised(error: PyError)

  /** Layer i is one validate_region_no_overlap tests: a floor, not the excluded id, owning its region. */
  predicate OverlapCandidate(layers: seq<MapLayer>, i: int, exclude: Option<int>)
    requires 0 <= i < |layers|
  {
    !layers[i].isBaseMap && !(exclude.Some? && layers[i].layerId == exclude.value) && IsRegionOwner(layers[i])
  }

  /** What validate_height_in_region reports: fine, or the first floor it clashes with. */
  datatype HeightCheck = HeightOk | HeightClash(layerId: int, name: string, heightMin: real, heightMax: real)

  /**
   * validate_height_in_region's test against one layer: another floor whose
   * own region has exactly the same point list, with a band that overlaps
   * [heightMin, heightMax] in more than a shared end.
   */
  predicate HeightClashes(l: MapLayer, layerId: int, heightMin: real, heightMax: real, region: Region)
  {
    && !l.isBaseMap && l.layerId != layerId && l.region.Some? && l.region.value.points == region.points
    && !(heightMax <= l.heightMin || heightMin >= l.heightMax)
  }

  /** The problems validate_base_map_constraint reports. */
  datatype BaseMapProblem = NoBase | SeveralBases(count: nat)

  /** The maps created when there is no configuration file: (map_id, display_name). */
  const DefaultMaps: seq<(string, string)> := [
    ("bigmap", "Customs"),
    ("Interchange", "Interchange"),
    ("Lighthouse", "Lighthouse"),
    ("TarkovStreets", "Streets of Tarkov"),
    ("Woods", "Woods"),
    ("Shoreline", "Shoreline"),
    ("RezervBase", "Reserve"),
    ("factory4_day", "Factory (Day)"),
    ("factory4_night", "Factory (Night)"),
    ("laboratory", "Laboratory"),
    ("Sandbox", "Ground Zero")]

  /**
   * MapConfigManager: the map configurations by map id. Every editor acts on
   * the layer list of one MapConfig in place and does nothing for an unknown
   * map; saving to disk follows each edit and is not part of this model.
   */
  class MapConfigManager {
    var maps: map<string, MapConfig>

    /** The MapConfig stored under mapId, if any: what an editor of that map may change. */
    function Target(mapId: string): set<MapConfig>
      reads this
    {
      if mapId in maps then {maps[mapId]} else {}
    }

    /** _create_default_config: one new, empty MapConfig per default map. */
    constructor ()
      ensures maps.Keys == set i | 0 <= i < |DefaultMaps| :: DefaultMaps[i].0
      ensures forall k :: k in maps ==>
        fresh(maps[k]) && maps[k].mapId == k && (k, maps[k].displayName) in DefaultMaps
        && maps[k].layers == [] && maps[k].defaultLayerId == 0
    {
      var m: map<string, MapConfig> := map[];
      for i := 0 to |DefaultMaps|
        invariant m.Keys == set j | 0 <= j < i :: DefaultMaps[j].0
        invariant forall k :: k in m ==>
          fresh(m[k]) && m[k].mapId == k && (k, m[k].displayName) in DefaultMaps
          && m[k].layers == [] && m[k].defaultLayerId == 0
      {
        var mc := new MapConfig(DefaultMaps[i].0, DefaultMaps[i].1);
        m := m[DefaultMaps[i].0 := mc];
      }
      maps := m;
    }

    /** set_map_image: update the layer with the id, or add a new floor layer and keep the list sorted. */
    method SetMapImage(mapId: string, layerId: int, imagePath: string, layerName: string,
                       heightMin: real, heightMax: real, rotationOffset: real)
      modifies Target(mapId)`layers
      ensures mapId in maps ==>
        maps[mapId].layers == SetImage(old(maps[mapId].layers), layerId, imagePath, layerName, heightMin, heightMax, rotationOffset)
    {
      if mapId !in maps {
        return;
      }
      var mc := maps[mapId];
      match FirstIndexOf(mc.layers, layerId)
      case Some(k) =>
        mc.layers := mc.layers[k := mc.layers[k].(imagePath := imagePath, name := layerName, heightMin := heightMin,
                                                  heightMax := heightMax, rotationOffset := rotationOffset)];
      case None =>
        mc.AddLayer(MapLayer(layerId, layerName, imagePath, heightMin, heightMax, [], rotationOffset, false, None, None));
    }

    /** add_calibration_point; `now` stands for datetime.now(). */
    method AddCalibrationPoint(mapId: string, layerId: int, gamePos: Position3D, mapX: real, mapY: real, now: string)
      modifies Target(mapId)`layers
      ensures mapId in maps ==>
        maps[mapId].layers == WithCalibrationPoint(old(maps[mapId].layers), layerId, CalibrationPoint(gamePos, mapX, mapY, now))
    {
      if mapId !in maps {
        return;
      }
      var mc := maps[mapId];
      match FirstIndexOf(mc.layers, layerId)
      case None =>
      case Some(k) =>
        var l := mc.layers[k];
        mc.layers := mc.layers[k := l.(calibrationPoints := l.calibrationPoints + [CalibrationPoint(gamePos, mapX, mapY, now)])];
    }

    /** clear_calibration_points. */
    method ClearCalibrationPoints(mapId: string, layerId: int)
      modifies Target(mapId)`layers
      ensures mapId in maps ==> maps[mapId].layers == WithoutCalibrationPoints(old(maps[mapId].layers), layerId)
    {
      if mapId !in maps {
        return;
      }
      var mc := maps[mapId];
      match FirstIndexOf(mc.layers, layerId)
      case None =>
      case Some(k) =>
        mc.layers := mc.layers[k := mc.layers[k].(calibrationPoints := [])];
    }

    /**
     * set_layer_region, with the reference cleared as the owner/reference
     * design requires (the as-written version is SetRegionAsWritten).
     */
    method SetLayerRegion(mapId: string, layerId: int, region: Region)
      modifies Target(mapId)`layers
      ensures mapId in maps ==> maps[mapId].layers == SetRegion(old(maps[mapId].layers), layerId, region)
    {
      if mapId !in maps {
        return;
      }
      var mc := maps[mapId];
      match FirstIndexOf(mc.layers, layerId)
      case None =>
      case Some(k) =>
        if !mc.layers[k].isBaseMap {
          mc.layers := mc.layers[k := mc.layers[k].(region := Some(region), regionOwnerLayerId := None)];
        }
    }

    /** clear_layer_region. */
    method ClearLayerRegion(mapId: string, layerId: int)
      modifies Target(mapId)`layers
      ensures mapId in maps ==> maps[mapId].layers == ClearRegion(old(maps[mapId].layers), layerId)
    {
      if mapId !in maps {
        return;
      }
      var mc := maps[mapId];
      match FirstIndexOf(mc.layers, layerId)
      case None =>
      case Some(k) =>
        mc.layers := mc.layers[k := mc.layers[k].(region := None)];
    }

    /** bind_layer_to_region. */
    method BindLayerToRegion(mapId: string, layerId: int, ownerLayerId: int)
      modifies Target(mapId)`layers
      ensures mapId in maps ==> maps[mapId].layers == Bind(old(maps[mapId].layers), layerId, ownerLayerId)
    {
      if mapId !in maps {
        return;
      }
      var mc := maps[mapId];
      var k, o := FirstIndexOf(mc.layers, layerId), FirstIndexOf(mc.layers, ownerLayerId);
      if k.None? || o.None? {
        return;
      }
      if !IsRegionOwner(mc.layers[o.value]) {
        return;
      }
      mc.layers := mc.layers[k.value := mc.layers[k.value].(region := None, regionOwnerLayerId := Some(ownerLayerId))];
    }

    /** unbind_layer_region. */
    method UnbindLayerRegion(mapId: string, layerId: int)
      modifies Target(mapId)`layers
      ensures mapId in maps ==> maps[mapId].layers == Unbind(old(maps[mapId].layers), layerId)
    {
      if mapId !in maps {
        return;
      }
      var mc := maps[mapId];
      match FirstIndexOf(mc.layers, layerId)
      case None =>
      case Some(k) =>
        mc.layers := mc.layers[k := mc.layers[k].(region := None, regionOwnerLayerId := None)];
    }

    /**
     * validate_region_no_overlap: the first candidate floor whose region the
     * new region intersects is reported; an exception from the intersection
     * test propagates.
     */
    method ValidateRegionNoOverlap(mapId: string, newRegion: Region, exclude: Option<int>) returns (r: OverlapCheck)
      ensures mapId !in maps ==> r == NoOverlap
      ensures mapId in maps ==> var ls := maps[mapId].layers;
        && (r == NoOverlap <==>
              forall i :: 0 <= i < |ls| && OverlapCandidate(ls, i, exclude) ==> IntersectsWith(newRegion, ls[i].region.value) == Ok(false))
        && (r != NoOverlap ==>
              exists i :: 0 <= i < |ls| && OverlapCandidate(ls, i, exclude)
                && (forall j :: 0 <= j < i && OverlapCandidate(ls, j, exclude) ==> IntersectsWith(newRegion, ls[j].region.value) == Ok(false))
                && r == (match IntersectsWith(newRegion, ls[i].region.value)
                         case Ok(_) => OverlapsWith(ls[i].layerId, ls[i].name)
                         case Err(e) => Raised(e))
                && IntersectsWith(newRegion, ls[i].region.value) != Ok(false))
    {
      if mapId !in maps {
        return NoOverlap;
      }
      var ls := maps[mapId].layers;
      for i := 0 to |ls|
        invariant forall j :: 0 <= j < i && OverlapCandidate(ls, j, exclude) ==> IntersectsWith(newRegion, ls[j].region.value) == Ok(false)
      {
        if OverlapCandidate(ls, i, exclude) {
          var hit := IntersectsWith(newRegion, ls[i].region.value);
          if hit.Err? {
            return Raised(hit.error);
          }
          if hit.value {
            return OverlapsWith(ls[i].layerId, ls[i].name);
          }
        }
      }
      return NoOverlap;
    }

    /** validate_height_in_region: no region means nothing to check; otherwise the first clashing floor is reported. */
    method ValidateHeightInRegion(mapId: string, layerId: int, heightMin: real, heightMax: real, region: Option<Region>)
      returns (r: HeightCheck)
      ensures region.None? || mapId !in maps ==> r == HeightOk
      ensures region.Some? && mapId in maps ==> var ls := maps[mapId].layers;
        && (r == HeightOk <==> forall i :: 0 <= i < |ls| ==> !HeightClashes(ls[i], layerId, heightMin, heightMax, region.value))
        && (r != HeightOk ==>
              exists i :: 0 <= i < |ls| && HeightClashes(ls[i], layerId, heightMin, heightMax, region.value)
                && (forall j :: 0 <= j < i ==> !HeightClashes(ls[j], layerId, heightMin, heightMax, region.value))
                && r == HeightClash(ls[i].layerId, ls[i].name, ls[i].heightMin, ls[i].heightMax))
    {
      if region.None? || mapId !in maps {
        return HeightOk;
      }
      var ls := maps[mapId].layers;
      for i := 0 to |ls|
        invariant forall j :: 0 <= j < i ==> !HeightClashes(ls[j], layerId, heightMin, heightMax, region.value)
      {
        var l := ls[i];
        if !l.isBaseMap && l.layerId != layerId && l.region.Some? && l.region.value.points == region.value.points {
          if !(heightMax <= l.heightMin || heightMin >= l.heightMax) {
            return HeightClash(l.layerId, l.name, l.heightMin, l.heightMax);
          }
        }
      }
      return HeightOk;
    }

    /** delete_layer. */
    method DeleteLayer(mapId: string, layerId: int) returns (r: Result<(), ConfigError>)
      modifies Target(mapId)`layers
      ensures mapId !in maps ==> r == Err(UnknownMap)
      ensures mapId in maps ==> match DeleteLayerSpec(old(maps[mapId].layers), layerId)
        case Err(e) => r == Err(e) && maps[mapId].layers == old(maps[mapId].layers)
        case Ok(remaining) => r == Ok(()) && maps[mapId].layers == remaining
    {
      if mapId !in maps {
        return Err(UnknownMap);
      }
      var mc := maps[mapId];
      var k := FirstIndexOf(mc.layers, layerId);
      if k.None? {
        return Err(UnknownLayer);
      }
      if mc.layers[k.value].isBaseMap {
        return Err(IsBaseLayer);
      }
      if IsRegionOwner(mc.layers[k.value]) {
        var n := |mc.layers|;
        ghost var cleared := ClearReferences(old(mc.layers), layerId);
        for i := 0 to n
          invariant |mc.layers| == n
          invariant forall j :: 0 <= j < i ==> mc.layers[j] == cleared[j]
          invariant forall j :: i <= j < n ==> mc.layers[j] == old(mc.layers)[j]
        {
          if mc.layers[i].regionOwnerLayerId == Some(layerId) {
            mc.layers := mc.layers[i := mc.layers[i].(regionOwnerLayerId := None)];
          }
        }
        assert mc.layers == cleared;
      }
      SameIdsSameIndex(old(mc.layers), mc.layers, layerId);
      var removed := mc.RemoveLayer(layerId);
      assert removed;
      return Ok(());
    }

    /** count_base_maps: 0 for an unknown map. */
    function CountBaseMaps(mapId: string): nat
      reads this, Target(mapId)
    {
      if mapId in maps then CountBase(maps[mapId].layers) else 0
    }

    /** calculate_transform: None for an unknown map, else the layer-list rule of TransformFor. */
    function CalculateTransform(mapId: string, layerId: int, fit: seq<CalibrationPoint> -> Option<Transform>)
      : (r: Option<Transform>)
      reads this, Target(mapId)
      ensures mapId !in maps ==> r.None?
      ensures mapId in maps ==> r == TransformFor(maps[mapId].layers, layerId, fit)
    {
      if mapId in maps then TransformFor(maps[mapId].layers, layerId, fit) else None
    }

    /** validate_base_map_constraint: exactly one base map, or the problem found. */
    function ValidateBaseMapConstraint(mapId: string): (r: Option<BaseMapProblem>)
      reads this, Target(mapId)
      ensures r.None? <==> CountBaseMaps(mapId) == 1
      ensures r == Some(NoBase) <==> CountBaseMaps(mapId) == 0
    {
      var count := CountBaseMaps(mapId);
      if count == 0 then Some(NoBase)
      else if count > 1 then Some(SeveralBases(count))
      else None
    }

    /** swap_base_map. */
    method SwapBaseMap(mapId: string, newBaseLayerId: int) returns (r: Result<(), ConfigError>)
      modifies Target(mapId)`layers
      ensures mapId !in maps ==> r == Err(UnknownMap)
      ensures mapId in maps ==> match SwapBase(old(maps[mapId].layers), newBaseLayerId)
        case Err(e) => r == Err(e) && maps[mapId].layers == old(maps[mapId].layers)
        case Ok(swapped) => r == Ok(()) && maps[mapId].layers == swapped
    {
      if mapId !in maps {
        return Err(UnknownMap);
      }
      var mc := maps[mapId];
      var n := FirstIndexOf(mc.layers, newBaseLayerId);
      if n.None? {
        return Err(UnknownLayer);
      }
      if mc.layers[n.value].isBaseMap {
        return Err(AlreadyBaseMap);
      }
      var o := FirstBaseIndex(mc.layers);
      if o.None? {
        return Err(NoBaseMap);
      }
      ghost var flipped := old(mc.layers)[o.value := old(mc.layers)[o.value].(isBaseMap := false)]
                                         [n.value := old(mc.layers)[n.value].(isBaseMap := true)];
      mc.layers := mc.layers[o.value := mc.layers[o.value].(isBaseMap := false)];
      mc.layers := mc.layers[n.value := mc.layers[n.value].(isBaseMap := true)];
      assert mc.layers == flipped;
      ClearFloorRegionsInPlace(mc);
      r := Ok(());
    }

    /** delete_all_regions. */
    method DeleteAllRegions(mapId: string)
      modifies Target(mapId)`layers
      ensures mapId in maps ==> maps[mapId].layers == ClearFloorRegions(old(maps[mapId].layers))
    {
      if mapId !in maps {
        return;
      }
      ClearFloorRegionsInPlace(maps[mapId]);
    }

    /** The loop shared by swap_base_map and delete_all_regions: each floor layer loses region and reference. */
    static method ClearFloorRegionsInPlace(mc: MapConfig)
      modifies mc`layers
      ensures mc.layers == ClearFloorRegions(old(mc.layers))
    {
      var n := |mc.layers|;
      ghost var target := ClearFloorRegions(mc.layers);
      for i := 0 to n
        invariant |mc.layers| == n
        invariant forall j :: 0 <= j < i ==> mc.layers[j] == target[j]
        invariant forall j :: i <= j < n ==> mc.layers[j] == old(mc.layers)[j]
      {
        if !mc.layers[i].isBaseMap {
          mc.layers := mc.layers[i := mc.layers[i].(region := None, regionOwnerLayerId := None)];
        }
      }
    }
  }
}
