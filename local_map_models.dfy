// Data model of the local map (modules/local_map/models.py): calibration
// points, the affine game-to-map transform, map layers with their height bands
// and activation regions, and the per-map layer list with the rule that picks
// the layer to display.
module LocalMapModels {
  import opened Wrappers
  import opened Geometry

  /** A game-world position; y is the height axis. */
  datatype Position3D = Position3D(x: real, y: real, z: real)

  /** A game position paired with the pixel it was clicked at; the timestamp is kept as its ISO text. */
  datatype CalibrationPoint = CalibrationPoint(gamePos: Position3D, mapX: real, mapY: real, timestamp: string)

  /**
   * CoordinateTransform's six affine coefficients:
   * map_x = a * x + b * z + c and map_y = d * x + e * z + f.
   */
  datatype Transform = Transform(a: real, b: real, c: real, d: real, e: real, f: real)

  /** CoordinateTransform() with its default coefficients. */
  const Identity := Transform(1.0, 0.0, 0.0, 0.0, 1.0, 0.0)

  /** The affine map on the horizontal game coordinates (x, z). */
  function ApplyXZ(t: Transform, x: real, z: real): (real, real)
  {
    (t.a * x + t.b * z + t.c, t.d * x + t.e * z + t.f)
  }

  /** CoordinateTransform.transform: only x and z of the game position are used. */
  function Apply(t: Transform, p: Position3D): (real, real)
  {
    ApplyXZ(t, p.x, p.z)
  }

  /** The height of the player never enters the map position, and the default transform maps (x, z) to itself. */
  lemma ApplyIgnoresHeight(t: Transform, p: Position3D, h: real)
    ensures Apply(t, p.(y := h)) == Apply(t, p)
    ensures Apply(Identity, p) == (p.x, p.z)
  {

  }

  /**
   * A map layer: a base map (the whole-map fallback) or a floor. A floor may
   * own a region, or refer to the layer that owns the region it shares.
   */
  datatype MapLayer = MapLayer(
    layerId: int,
    name: string,
    imagePath: string,
    heightMin: real,
    heightMax: real,
    calibrationPoints: seq<CalibrationPoint>,
    rotationOffset: real,
    isBaseMap: bool,
    region: Option<Region>,
    regionOwnerLayerId: Option<int>)

  /** MapLayer.contains_height: the band is closed at both ends. */
  predicate ContainsHeight(l: MapLayer, y: real)
  {
    l.heightMin <= y <= l.heightMax
  }

  /** MapLayer.is_calibrated. */
  predicate IsCalibrated(l: MapLayer)
  {
    |l.calibrationPoints| >= 3
  }

  /** MapLayer.is_region_owner: a region of its own and no reference. */
  predicate IsRegionOwner(l: MapLayer)
  {
    l.region.Some? && l.regionOwnerLayerId.None?
  }

  /** Index of the first layer with the given id, the one get_layer_by_id returns. */
  function FirstIndexOf(layers: seq<MapLayer>, id: int): (r: Option<nat>)
    ensures r.Some? ==> (r.value < |layers| && layers[r.value].layerId == id
      && forall k :: 0 <= k < r.value ==> layers[k].layerId != id)
    ensures r.None? <==> forall k :: 0 <= k < |layers| ==> layers[k].layerId != id
  {
    if |layers| == 0 then None
    else if layers[0].layerId == id then Some(0)
    else match FirstIndexOf(layers[1..], id)
      case None => None
      case Some(k) => Some(k + 1)
  }

  /** MapConfig.get_layer_by_id. */
  function LayerById(layers: seq<MapLayer>, id: int): (r: Option<MapLayer>)
    ensures r.Some? ==> r.value in layers && r.value.layerId == id
    ensures r.None? <==> forall k :: 0 <= k < |layers| ==> layers[k].layerId != id
  {
    match FirstIndexOf(layers, id)
    case None => None
    case Some(k) => Some(layers[k])
  }

  /** Index of the first layer whose band holds y. */
  function FirstInBand(layers: seq<MapLayer>, y: real): (r: Option<nat>)
    ensures r.Some? ==> (r.value < |layers| && ContainsHeight(layers[r.value], y)
      && forall k :: 0 <= k < r.value ==> !ContainsHeight(layers[k], y))
    ensures r.None? <==> forall k :: 0 <= k < |layers| ==> !ContainsHeight(layers[k], y)
  {
    if |layers| == 0 then None
    else if ContainsHeight(layers[0], y) then Some(0)
    else match FirstInBand(layers[1..], y)
      case None => None
      case Some(k) => Some(k + 1)
  }

  /** MapConfig.get_layer_by_height (the legacy rule): the first layer whose band holds y, regions ignored. */
  function LayerByHeight(layers: seq<MapLayer>, y: real): (r: Option<MapLayer>)
    ensures r.Some? ==> r.value in layers && ContainsHeight(r.value, y)
    ensures r.None? <==> forall k :: 0 <= k < |layers| ==> !ContainsHeight(layers[k], y)
  {
    match FirstInBand(layers, y)
    case None => None
    case Some(k) => Some(layers[k])
  }

  /** Index of the first layer flagged as base map. */
  function FirstBaseIndex(layers: seq<MapLayer>): (r: Option<nat>)
    ensures r.Some? ==> (r.value < |layers| && layers[r.value].isBaseMap
      && forall k :: 0 <= k < r.value ==> !layers[k].isBaseMap)
    ensures r.None? <==> forall k :: 0 <= k < |layers| ==> !layers[k].isBaseMap
  {
    if |layers| == 0 then None
    else if layers[0].isBaseMap then Some(0)
    else match FirstBaseIndex(layers[1..])
      case None => None
      case Some(k) => Some(k + 1)
  }

  /** MapConfig.get_base_map. */
  function BaseMap(layers: seq<MapLayer>): (r: Option<MapLayer>)
    ensures r.Some? ==> r.value in layers && r.value.isBaseMap
    ensures r.None? <==> forall k :: 0 <= k < |layers| ==> !layers[k].isBaseMap
  {
    match FirstBaseIndex(layers)
    case None => None
    case Some(k) => Some(layers[k])
  }

  /** MapConfig.get_floor_maps: the non-base layers in list order. */
  function FloorMaps(layers: seq<MapLayer>): (r: seq<MapLayer>)
    ensures forall i :: 0 <= i < |r| ==> !r[i].isBaseMap
    ensures |r| <= |layers|
  {
    if |layers| == 0 then []
    else (if layers[0].isBaseMap then [] else [layers[0]]) + FloorMaps(layers[1..])
  }

  /** One unfolding of the comprehension at the front of the list. */
  lemma FloorMapsCons(x: MapLayer, t: seq<MapLayer>)
    ensures FloorMaps([x] + t) == (if x.isBaseMap then [] else [x]) + FloorMaps(t)
  {
    var s := [x] + t;
    assert s[0] == x && s[1..] == t;
  }

  /**
   * The comprehension keeps list order: filtering a concatenation is the
   * concatenation of the filtered parts, and a single layer is kept iff it is
   * not a base layer. Together these fix the result entry by entry.
   */
  lemma {:induction false} FloorMapsOrder(a: seq<MapLayer>, b: seq<MapLayer>, l: MapLayer)
    ensures FloorMaps(a + b) == FloorMaps(a) + FloorMaps(b)
    ensures FloorMaps([l]) == if l.isBaseMap then [] else [l]
  {
    FloorMapsAppend(a, b);
    FloorMapsCons(l, []);
    assert [l] + [] == [l];
  }

  /** Filtering distributes over concatenation, by induction on the first part. */
  lemma {:induction false} FloorMapsAppend(a: seq<MapLayer>, b: seq<MapLayer>)
    ensures FloorMaps(a + b) == FloorMaps(a) + FloorMaps(b)
  {
    if |a| == 0 {
      assert a + b == b;
    } else {
      var t := a[1..];
      var h := if a[0].isBaseMap then [] else [a[0]];
      assert a + b == [a[0]] + (t + b) by { assert a == [a[0]] + t; }
      assert FloorMaps(a) == h + FloorMaps(t) by {
        assert a == [a[0]] + t;
        FloorMapsCons(a[0], t);
      }
      FloorMapsCons(a[0], t + b);
      FloorMapsAppend(t, b);
      assert h + (FloorMaps(t) + FloorMaps(b)) == (h + FloorMaps(t)) + FloorMaps(b);
    }
  }

  /** Every floor occurs in get_floor_maps exactly as often as in the list, and no base layer occurs. */
  lemma {:induction false} FloorMapsEntries(layers: seq<MapLayer>)
    ensures forall l :: multiset(FloorMaps(layers))[l] == if l.isBaseMap then 0 else multiset(layers)[l]
  {
    if |layers| > 0 {
      var t := layers[1..];
      assert layers == [layers[0]] + t;
      FloorMapsCons(layers[0], t);
      FloorMapsEntries(t);
    }
  }

  /** MapConfig.get_layers_sharing_region: the layers whose reference names the owner id, in list order. */
  function LayersSharingRegion(layers: seq<MapLayer>, ownerId: int): (r: seq<MapLayer>)
    ensures forall i :: 0 <= i < |r| ==> r[i].regionOwnerLayerId == Some(ownerId)
    ensures |r| <= |layers|
  {
    if |layers| == 0 then []
    else (if layers[0].regionOwnerLayerId == Some(ownerId) then [layers[0]] else []) + LayersSharingRegion(layers[1..], ownerId)
  }

  /** One pass of the append loop at the front of the list. */
  lemma SharingCons(x: MapLayer, t: seq<MapLayer>, ownerId: int)
    ensures LayersSharingRegion([x] + t, ownerId) ==
      (if x.regionOwnerLayerId == Some(ownerId) then [x] else []) + LayersSharingRegion(t, ownerId)
  {
    var s := [x] + t;
    assert s[0] == x && s[1..] == t;
  }

  /** The append loop keeps list order, one entry per referencing layer. */
  lemma {:induction false} LayersSharingRegionOrder(a: seq<MapLayer>, b: seq<MapLayer>, l: MapLayer, ownerId: int)
    ensures LayersSharingRegion(a + b, ownerId) == LayersSharingRegion(a, ownerId) + LayersSharingRegion(b, ownerId)
    ensures LayersSharingRegion([l], ownerId) == if l.regionOwnerLayerId == Some(ownerId) then [l] else []
  {
    SharingAppend(a, b, ownerId);
    SharingCons(l, [], ownerId);
    assert [l] + [] == [l];
  }

  /** The referencing layers of a concatenation, by induction on the first part. */
  lemma {:induction false} SharingAppend(a: seq<MapLayer>, b: seq<MapLayer>, ownerId: int)
    ensures LayersSharingRegion(a + b, ownerId) == LayersSharingRegion(a, ownerId) + LayersSharingRegion(b, ownerId)
  {
    if |a| == 0 {
      assert a + b == b;
    } else {
      var t := a[1..];
      var h := if a[0].regionOwnerLayerId == Some(ownerId) then [a[0]] else [];
      assert a + b == [a[0]] + (t + b) by { assert a == [a[0]] + t; }
      assert LayersSharingRegion(a, ownerId) == h + LayersSharingRegion(t, ownerId) by {
        assert a == [a[0]] + t;
        SharingCons(a[0], t, ownerId);
      }
      SharingCons(a[0], t + b, ownerId);
      SharingAppend(t, b, ownerId);
      assert h + (LayersSharingRegion(t, ownerId) + LayersSharingRegion(b, ownerId))
        == (h + LayersSharingRegion(t, ownerId)) + LayersSharingRegion(b, ownerId);
    }
  }

  /** Every layer referring to the owner occurs as often as in the list, and no other layer occurs. */
  lemma {:induction false} LayersSharingRegionEntries(layers: seq<MapLayer>, ownerId: int)
    ensures forall l :: multiset(LayersSharingRegion(layers, ownerId))[l] == (if l.regionOwnerLayerId == Some(ownerId) then multiset(layers)[l] else 0)
  {
    if |layers| > 0 {
      var t := layers[1..];
      assert layers == [layers[0]] + t;
      SharingCons(layers[0], t, ownerId);
      LayersSharingRegionEntries(t, ownerId);
    }
  }

  /**
   * MapLayer.get_effective_region: the layer's own region, else the own
   * region of the first layer carrying the referenced id (one level only;
   * that owner's own reference is not followed), else None.
   */
  function EffectiveRegion(l: MapLayer, layers: seq<MapLayer>): (r: Option<Region>)
    ensures l.region.Some? ==> r == l.region
    ensures l.region.None? && l.regionOwnerLayerId.None? ==> r.None?
    ensures l.region.None? && l.regionOwnerLayerId.Some? ==>
      r == (match LayerById(layers, l.regionOwnerLayerId.value)
            case None => None
            case Some(o) => o.region)
  {
    if l.region.Some? then l.region
    else if l.regionOwnerLayerId.Some? then
      match LayerById(layers, l.regionOwnerLayerId.value)
      case Some(o) => if o.region.Some? then o.region else None
      case None => None
    else None
  }

  /**
   * MapLayer.is_activated: a base layer always is; a floor needs the height
   * in its closed band, and a map position inside its region when it has one.
   * mapConfig is the optional layer list used to resolve a referenced region;
   * without it only the layer's own region is considered.
   */
  predicate IsActivated(l: MapLayer, pos: Position3D, mapPos: Option<(real, real)>, mapConfig: Option<seq<MapLayer>>)
    ensures l.isBaseMap ==> IsActivated(l, pos, mapPos, mapConfig)
    ensures IsActivated(l, pos, mapPos, mapConfig) && !l.isBaseMap ==> ContainsHeight(l, pos.y)
  {
    if l.isBaseMap then true
    else
      var region := if mapConfig.Some? then EffectiveRegion(l, mapConfig.value) else l.region;
      if region.None? then ContainsHeight(l, pos.y)
      else if !ContainsHeight(l, pos.y) then false
      else if mapPos.None? then false
      else Contains(region.value, mapPos.value.0, mapPos.value.1)
  }

  /**
   * When a layer of the map is activated, from the layer list itself: a base
   * layer always is. A floor uses its own region, else the own region of the
   * first layer carrying its reference id; without either it is activated
   * by the closed height band alone, and with one it also needs a map
   * position from which the rightward ray crosses an odd number of the
   * region's edges.
   */
  lemma FloorActivation(l: MapLayer, pos: Position3D, mapPos: Option<(real, real)>, layers: seq<MapLayer>)
    ensures l.isBaseMap ==> IsActivated(l, pos, mapPos, Some(layers))
    ensures !l.isBaseMap ==>
      var g := if l.region.Some? then l.region
               else if l.regionOwnerLayerId.Some? && LayerById(layers, l.regionOwnerLayerId.value).Some?
               then LayerById(layers, l.regionOwnerLayerId.value).value.region
               else None;
      (IsActivated(l, pos, mapPos, Some(layers)) <==>
        && l.heightMin <= pos.y <= l.heightMax
        && (g.Some? ==> && mapPos.Some?
                        && |g.value.points| >= 3
                        && HitCount(g.value.points, |g.value.points|, mapPos.value.0, mapPos.value.1) % 2 == 1))
  {
  }

  /** layers[i] is a floor activated at this position. */
  predicate ActivatedFloor(layers: seq<MapLayer>, i: int, pos: Position3D, mapPos: Option<(real, real)>)
    requires 0 <= i < |layers|
  {
    !layers[i].isBaseMap && IsActivated(layers[i], pos, mapPos, Some(layers))
  }

  /**
   * Among the activated floors at indices k.. the one that comes first in the
   * floors sorted by height_max descending with a stable sort: the highest
   * height_max, and among equal ones the earliest in the list.
   */
  function BestActivatedFloor(layers: seq<MapLayer>, k: nat, pos: Position3D, mapPos: Option<(real, real)>): (r: Option<nat>)
    requires k <= |layers|
    ensures r.Some? ==> k <= r.value < |layers| && ActivatedFloor(layers, r.value, pos, mapPos)
    ensures r.Some? ==> forall j :: k <= j < |layers| && ActivatedFloor(layers, j, pos, mapPos) ==>
      layers[j].heightMax < layers[r.value].heightMax || (layers[j].heightMax == layers[r.value].heightMax && j >= r.value)
    ensures r.None? <==> forall j :: k <= j < |layers| ==> !ActivatedFloor(layers, j, pos, mapPos)
    decreases |layers| - k
  {
    if k == |layers| then None
    else
      var rest := BestActivatedFloor(layers, k + 1, pos, mapPos);
      if ActivatedFloor(layers, k, pos, mapPos) && (rest.None? || layers[k].heightMax >= layers[rest.value].heightMax) then Some(k)
      else rest
  }

  /**
   * MapConfig.get_active_layer. The player's base-map position is computed
   * when a base-map transform is given (the transform cannot fail on reals).
   */
  function ActiveLayer(layers: seq<MapLayer>, pos: Position3D, baseMapTransform: Option<Transform>): (r: Option<MapLayer>)
    ensures r.None? <==> |layers| == 0
    ensures r.Some? ==> r.value in layers
  {
    var mapPos := if baseMapTransform.Some? then Some(Apply(baseMapTransform.value, pos)) else None;
    match BestActivatedFloor(layers, 0, pos, mapPos)
    case Some(i) => Some(layers[i])
    case None =>
      match BaseMap(layers)
      case Some(b) => Some(b)
      case None => if |layers| > 0 then Some(layers[0]) else None
  }

  /**
   * What get_active_layer promises: the best activated floor (first in the
   * stable descending-height order) when one exists; otherwise the first base
   * layer; otherwise the first layer; None only for an empty map.
   */
  lemma ActiveLayerChoice(layers: seq<MapLayer>, pos: Position3D, baseMapTransform: Option<Transform>)
    ensures var mapPos := if baseMapTransform.Some? then Some(Apply(baseMapTransform.value, pos)) else None;
      var r := ActiveLayer(layers, pos, baseMapTransform);
      && (r.None? <==> |layers| == 0)
      && ((exists j :: 0 <= j < |layers| && ActivatedFloor(layers, j, pos, mapPos)) ==>
            exists i :: 0 <= i < |layers| && r == Some(layers[i]) && ActivatedFloor(layers, i, pos, mapPos)
              && forall j :: 0 <= j < |layers| && ActivatedFloor(layers, j, pos, mapPos) ==>
                   layers[j].heightMax < layers[i].heightMax || (layers[j].heightMax == layers[i].heightMax && j >= i))
      && ((forall j :: 0 <= j < |layers| ==> !ActivatedFloor(layers, j, pos, mapPos)) ==>
            r == (if BaseMap(layers).Some? then BaseMap(layers) else if |layers| > 0 then Some(layers[0]) else None))
  {
  }

  /** A layer list is sorted by layer id. */
  predicate SortedById(s: seq<MapLayer>)
  {
    forall i, j :: 0 <= i < j < |s| ==> s[i].layerId <= s[j].layerId
  }

  /** Inserts x into a sorted list before the first element whose id is not smaller. */
  function InsertById(x: MapLayer, s: seq<MapLayer>): (r: seq<MapLayer>)
    requires SortedById(s)
    ensures SortedById(r) && multiset(r) == multiset(s) + multiset{x}
  {
    if |s| == 0 || x.layerId <= s[0].layerId then [x] + s
    else
      var rest := InsertById(x, s[1..]);
      assert multiset(s) == multiset{s[0]} + multiset(s[1..]) by { assert s == [s[0]] + s[1..]; }
      forall l | l in rest ensures s[0].layerId <= l.layerId {
        assert l in multiset(rest);
        assert l in multiset(s[1..]) || l == x;
      }
      assert multiset([s[0]] + rest) == multiset{s[0]} + multiset(rest);
      [s[0]] + rest
  }

  /** The layers carrying the given id, in list order. */
  function WithId(s: seq<MapLayer>, id: int): (r: seq<MapLayer>)
    ensures forall i :: 0 <= i < |r| ==> r[i].layerId == id
  {
    if |s| == 0 then []
    else (if s[0].layerId == id then [s[0]] else []) + WithId(s[1..], id)
  }

  /**
   * Insertion goes in front of every layer whose id is not smaller, so the
   * layers sharing x's id all come after x.
   */
  lemma {:induction false} InsertByIdStable(x: MapLayer, s: seq<MapLayer>)
    requires SortedById(s)
    ensures forall id :: WithId(InsertById(x, s), id) == (if x.layerId == id then [x] else []) + WithId(s, id)
  {
    var r := InsertById(x, s);
    if |s| == 0 || x.layerId <= s[0].layerId {
      assert r == [x] + s;
      assert r[1..] == s;
    } else {
      InsertByIdStable(x, s[1..]);
      var rest := InsertById(x, s[1..]);
      assert r == [s[0]] + rest;
      assert r[1..] == rest;
    }
  }

  /** list.sort(key=layer_id): an insertion sort, stable because an element goes in front of the equal ones that follow it. */
  function SortById(s: seq<MapLayer>): (r: seq<MapLayer>)
    ensures SortedById(r) && multiset(r) == multiset(s)
    ensures forall id :: WithId(r, id) == WithId(s, id)
  {
    if |s| == 0 then []
    else
      assert s == [s[0]] + s[1..];
      InsertByIdStable(s[0], SortById(s[1..]));
      InsertById(s[0], SortById(s[1..]))
  }

  /** A MapConfig: one game map and its layers, which add_layer and remove_layer edit in place. */
  class MapConfig {
    var mapId: string
    var displayName: string
    var layers: seq<MapLayer>
    var defaultLayerId: int

    constructor (mapId: string, displayName: string)
      ensures this.mapId == mapId && this.displayName == displayName
      ensures layers == [] && defaultLayerId == 0
    {
      this.mapId := mapId;
      this.displayName := displayName;
      layers := [];
      defaultLayerId := 0;
    }

    /** MapConfig.add_layer: append, then sort the list by layer id. */
    method AddLayer(layer: MapLayer)
      modifies this`layers
      ensures SortedById(layers)
      ensures multiset(layers) == multiset(old(layers)) + multiset{layer}
      ensures layers == SortById(old(layers) + [layer])
    {
      layers := layers + [layer];
      layers := SortById(layers);
      assert multiset(old(layers) + [layer]) == multiset(old(layers)) + multiset{layer};
    }

    /** MapConfig.remove_layer: pop the first layer with the id, reporting whether there was one. */
    method RemoveLayer(layerId: int) returns (removed: bool)
      modifies this`layers
      ensures removed <==> FirstIndexOf(old(layers), layerId).Some?
      ensures removed ==> var k := FirstIndexOf(old(layers), layerId).value;
        layers == old(layers)[..k] + old(layers)[k + 1..]
      ensures !removed ==> layers == old(layers)
    {
      var i := 0;
      while i < |layers|
        invariant 0 <= i <= |layers|
        invariant layers == old(layers)
        invariant forall k :: 0 <= k < i ==> layers[k].layerId != layerId
      {
        if layers[i].layerId == layerId {
          assert FirstIndexOf(layers, layerId) == Some(i);
          layers := layers[..i] + layers[i + 1..];
          return true;
        }
        i := i + 1;
      }
      return false;
    }
  }
}
