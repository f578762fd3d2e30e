/**
 * The coordinate-transform cache of MapResourceCache: results of
 * calculate_transform keyed by map, layer and the player's position
 * quantised to a 10-unit grid, at most 50 of them, oldest evicted first.
 * The image caches and the lock are not part of this model; the call into
 * the configuration manager is the `computation` argument.
 */
module TransformCache {
  import opened Wrappers
  import opened LocalMapModels
  import ConfigManager
  import opened Rounding

  /** round(v / 10) * 10: the nearest multiple of ten, ties to an even multiple of ten. */
  function Quantise(v: real): (q: int)
    ensures q % 10 == 0
    ensures v - 5.0 <= q as real <= v + 5.0
  {
    RoundHalfEven(v / 10.0) * 10
  }

  /** The cache key: map, layer and the quantised (x, z) cell, with no cell when there is no position. */
  datatype CacheKey = CacheKey(mapId: string, layerId: int, cell: Option<(int, int)>)

  function KeyFor(mapId: string, layerId: int, pos: Option<Position3D>): (k: CacheKey)
    ensures k.mapId == mapId && k.layerId == layerId
    ensures k.cell.None? <==> pos.None?
  {
    CacheKey(mapId, layerId, if pos.Some? then Some((Quantise(pos.value.x), Quantise(pos.value.z))) else None)
  }

  /** The height of the position plays no part in the key, and positions in the same cell share it. */
  lemma KeyIgnoresHeight(mapId: string, layerId: int, p: Position3D, q: Position3D)
    requires Quantise(p.x) == Quantise(q.x) && Quantise(p.z) == Quantise(q.z)
    ensures KeyFor(mapId, layerId, Some(p)) == KeyFor(mapId, layerId, Some(q))
    ensures KeyFor(mapId, layerId, Some(p)) == KeyFor(mapId, layerId, Some(p.(y := q.y)))
  {
  }

  /** What calculate_transform gave: a value (None is falsy) or an exception. */
  datatype Computation = Computed(transform: Option<Transform>) | Raised

  const MaxTransforms: nat := 50

  /** Whether invalidate_transform(mapId, layerId) removes this key. */
  predicate Matches(k: CacheKey, mapId: string, layerId: int)
  {
    k.mapId == mapId && k.layerId == layerId
  }

  /** The keys that invalidate_transform keeps, in their order. */
  function Kept(s: seq<CacheKey>, mapId: string, layerId: int): (r: seq<CacheKey>)
    ensures |r| <= |s|
  {
    if s == [] then []
    else Kept(s[..|s| - 1], mapId, layerId) + (if Matches(s[|s| - 1], mapId, layerId) then [] else [s[|s| - 1]])
  }

  predicate Distinct(s: seq<CacheKey>)
  {
    forall i, j :: 0 <= i < j < |s| ==> s[i] != s[j]
  }

  /** Kept keeps exactly the non-matching keys and no key twice. */
  lemma {:induction false} KeptMembers(s: seq<CacheKey>, mapId: string, layerId: int)
    requires Distinct(s)
    ensures Distinct(Kept(s, mapId, layerId))
    ensures forall k :: k in Kept(s, mapId, layerId) <==> k in s && !Matches(k, mapId, layerId)
    decreases |s|
  {
    if s != [] {
      var init := s[..|s| - 1];
      KeptMembers(init, mapId, layerId);
      assert forall k :: k in s <==> k in init || k == s[|s| - 1];
    }
  }

  /** The keys that survive the eviction made before an insertion: the oldest goes when the cache is full. */
  function Survivors(order: seq<CacheKey>): (r: seq<CacheKey>)
    ensures |r| <= |order| && (|order| >= MaxTransforms ==> |r| == |order| - 1)
  {
    if |order| >= MaxTransforms then order[1..] else order
  }

  /** The transform part of MapResourceCache. `order` is the dictionary's insertion order. */
  class TransformCache {
    var order: seq<CacheKey>
    var entries: map<CacheKey, Transform>

    /** Keys are unique, the order lists exactly the stored keys, and there are at most 50. */
    ghost predicate Valid()
      reads this
    {
      Distinct(order) && (forall k :: k in entries <==> k in order) && |order| <= MaxTransforms
    }

    constructor ()
      ensures Valid() && order == [] && entries == map[]
    {
      order := [];
      entries := map[];
    }

    /**
     * get_transform: a stored key is answered from the cache. Otherwise the
     * computation's value is returned, and stored only when it is a
     * transform, after evicting the oldest key if 50 are present. An
     * exception gives None, and the cache is then unchanged.
     */
    method GetTransform(mapId: string, layerId: int, pos: Option<Position3D>, computation: Computation)
      returns (r: Option<Transform>)
      requires Valid()
      modifies this
      ensures Valid()
      ensures var key := KeyFor(mapId, layerId, pos);
        && (key in old(entries) ==> r == Some(old(entries)[key]) && order == old(order) && entries == old(entries))
        && (key !in old(entries) ==> r == (if computation.Computed? then computation.transform else None))
        && (key !in old(entries) && r.None? ==> order == old(order) && entries == old(entries))
        && (key !in old(entries) && r.Some? ==>
              && order == Survivors(old(order)) + [key]
              && entries == (map k | k in Survivors(old(order)) :: old(entries)[k])[key := r.value])
    {
      var key := KeyFor(mapId, layerId, pos);
      if key in entries {
        return Some(entries[key]);
      }
      if computation.Raised? {
        return None;
      }
      r := computation.transform;
      if r.Some? {
        var kept := Survivors(order);
        assert forall k :: k in kept ==> k in order;
        entries := (map k | k in kept :: entries[k])[key := r.value];
        order := kept + [key];
      }
    }

    /** invalidate_transform: drop exactly the entries of this map and layer. */
    method Invalidate(mapId: string, layerId: int)
      requires Valid()
      modifies this
      ensures Valid()
      ensures order == Kept(old(order), mapId, layerId)
      ensures entries == map k | k in old(entries) && !Matches(k, mapId, layerId) :: old(entries)[k]
    {
      var doomed := CollectMatching(order, mapId, layerId);
      var rest := RemoveKeys(entries, doomed);
      RemovedAreMatching(entries, order, doomed, rest, mapId, layerId);
      KeptMembers(order, mapId, layerId);
      entries := rest;
      order := Kept(order, mapId, layerId);
    }

    /** clear_all_transforms. */
    method ClearAll()
      modifies this
      ensures Valid() && order == [] && entries == map[]
    {
      order := [];
      entries := map[];
    }
  }

  /** Removing the listed matching keys of the stored ones leaves exactly the non-matching entries. */
  lemma RemovedAreMatching(m: map<CacheKey, Transform>, order: seq<CacheKey>, doomed: seq<CacheKey>,
                           rest: map<CacheKey, Transform>, mapId: string, layerId: int)
    requires forall k :: k in m <==> k in order
    requires forall k :: k in doomed <==> k in order && Matches(k, mapId, layerId)
    requires rest == map k | k in m && k !in doomed :: m[k]
    ensures rest == map k | k in m && !Matches(k, mapId, layerId) :: m[k]
  {
    assert forall k :: k in m && k !in doomed <==> k in m && !Matches(k, mapId, layerId);
  }

  /** The list comprehension of invalidate_transform: the keys to remove, in order. */
  method CollectMatching(order: seq<CacheKey>, mapId: string, layerId: int) returns (doomed: seq<CacheKey>)
    ensures forall k :: k in doomed <==> k in order && Matches(k, mapId, layerId)
  {
    doomed := [];
    for i := 0 to |order|
      invariant forall k :: k in doomed <==> k in order[..i] && Matches(k, mapId, layerId)
    {
      assert forall k :: k in order[..i + 1] <==> k in order[..i] || k == order[i];
      if Matches(order[i], mapId, layerId) {
        doomed := doomed + [order[i]];
      }
    }
    assert order[..|order|] == order;
  }

  /** The pop loop of invalidate_transform: each listed key leaves the dictionary. */
  method RemoveKeys(m: map<CacheKey, Transform>, doomed: seq<CacheKey>) returns (r: map<CacheKey, Transform>)
    ensures r == map k | k in m && k !in doomed :: m[k]
  {
    r := m;
    for i := 0 to |doomed|
      invariant forall k :: k in r <==> k in m && k !in doomed[..i]
      invariant forall k :: k in r ==> r[k] == m[k]
    {
      assert forall k :: k in doomed[..i + 1] <==> k in doomed[..i] || k == doomed[i];
      r := map k | k in r && k != doomed[i] :: r[k];
    }
    assert doomed[..|doomed|] == doomed;
  }

  /** The calibration points of a layer; none for an unknown one. */
  function PointsOf(layers: seq<MapLayer>, layerId: int): seq<CalibrationPoint>
  {
    match LayerById(layers, layerId)
    case Some(l) => l.calibrationPoints
    case None => []
  }

  /**
   * add_calibration_point followed by the next lookup, as written: the cache
   * is not told about the new point, so a cached key is answered with the
   * transform computed from the old points, whatever calculate_transform
   * makes of the new ones.
   */
  method CalibrateThenLookupAsWritten(cache: TransformCache, mgr: ConfigManager.MapConfigManager,
                                      fit: seq<CalibrationPoint> -> Option<Transform>,
                                      mapId: string, layerId: int, pos: Option<Position3D>,
                                      gamePos: Position3D, mapX: real, mapY: real, now: string)
    returns (r: Option<Transform>)
    requires cache.Valid() && mapId in mgr.maps
    requires KeyFor(mapId, layerId, pos) in cache.entries
    modifies cache, mgr.Target(mapId)`layers
    ensures r == Some(old(cache.entries)[KeyFor(mapId, layerId, pos)])
    ensures PointsOf(mgr.maps[mapId].layers, layerId) ==
      PointsOf(old(mgr.maps[mapId].layers), layerId) +
      (if LayerById(old(mgr.maps[mapId].layers), layerId).Some? then [CalibrationPoint(gamePos, mapX, mapY, now)] else [])
  {
    mgr.AddCalibrationPoint(mapId, layerId, gamePos, mapX, mapY, now);
    ConfigManager.AddCalibrationPointEffect(old(mgr.maps[mapId].layers), layerId, CalibrationPoint(gamePos, mapX, mapY, now));
    r := cache.GetTransform(mapId, layerId, pos, Computed(mgr.CalculateTransform(mapId, layerId, fit)));
  }

  /**
   * The corrected sequence: invalidating the layer's entries after adding
   * the point makes the next lookup use the current points.
   */
  method CalibrateThenLookup(cache: TransformCache, mgr: ConfigManager.MapConfigManager,
                             fit: seq<CalibrationPoint> -> Option<Transform>,
                             mapId: string, layerId: int, pos: Option<Position3D>,
                             gamePos: Position3D, mapX: real, mapY: real, now: string)
    returns (r: Option<Transform>)
    requires cache.Valid() && mapId in mgr.maps
    modifies cache, mgr.Target(mapId)`layers
    ensures cache.Valid()
    ensures r == mgr.CalculateTransform(mapId, layerId, fit)
  {
    mgr.AddCalibrationPoint(mapId, layerId, gamePos, mapX, mapY, now);
    cache.Invalidate(mapId, layerId);
    r := cache.GetTransform(mapId, layerId, pos, Computed(mgr.CalculateTransform(mapId, layerId, fit)));
  }

  /**
   * One instance of the stale answer: layer 1 of bigmap is calibrated with
   * three points and looked up, which caches the fit of three points; after
   * a fourth point the same lookup still serves it, although a fit that
   * counts the points now gives a different transform.
   */
  method StaleTransformExample() returns (served: Option<Transform>, current: Option<Transform>)
    ensures served == Some(Transform(3.0, 0.0, 0.0, 0.0, 0.0, 0.0))
    ensures current == Some(Transform(4.0, 0.0, 0.0, 0.0, 0.0, 0.0))
  {
    var mgr := CalibratedBigmap();
    var fit := (pts: seq<CalibrationPoint>) => Some(Transform(|pts| as real, 0.0, 0.0, 0.0, 0.0, 0.0));
    var cache := new TransformCache();
    var first := cache.GetTransform("bigmap", 1, None, Computed(mgr.CalculateTransform("bigmap", 1, fit)));
    assert first == Some(Transform(3.0, 0.0, 0.0, 0.0, 0.0, 0.0));
    served := CalibrateThenLookupAsWritten(cache, mgr, fit, "bigmap", 1, None,
                                           Position3D(3.0, 0.0, 3.0), 3.0, 3.0, "2025-01-01T00:00:03");
    assert |PointsOf(mgr.maps["bigmap"].layers, 1)| == 4;
    current := mgr.CalculateTransform("bigmap", 1, fit);
  }

  /** A fresh manager whose bigmap has a floor layer 1 with three calibration points. */
  method CalibratedBigmap() returns (mgr: ConfigManager.MapConfigManager)
    ensures fresh(mgr) && "bigmap" in mgr.maps && fresh(mgr.maps["bigmap"])
    ensures LayerById(mgr.maps["bigmap"].layers, 1).Some?
    ensures |PointsOf(mgr.maps["bigmap"].layers, 1)| == 3
  {
    mgr := new ConfigManager.MapConfigManager();
    assert ConfigManager.DefaultMaps[0].0 == "bigmap";
    assert "bigmap" in mgr.maps;
    assert mgr.maps["bigmap"].layers == [];
    mgr.SetMapImage("bigmap", 1, "floor1.png", "Floor 1", 0.0, 10.0, 0.0);
    ConfigManager.SetImageEffect([], 1, "floor1.png", "Floor 1", 0.0, 10.0, 0.0);
    assert |PointsOf(mgr.maps["bigmap"].layers, 1)| == 0 && LayerById(mgr.maps["bigmap"].layers, 1).Some?;
    AddPoint(mgr, 0.0);
    AddPoint(mgr, 1.0);
    AddPoint(mgr, 2.0);
  }

  /** One add_calibration_point on layer 1 of bigmap, which exists: its point count grows by one. */
  method AddPoint(mgr: ConfigManager.MapConfigManager, v: real)
    requires "bigmap" in mgr.maps && LayerById(mgr.maps["bigmap"].layers, 1).Some?
    modifies mgr.Target("bigmap")`layers
    ensures LayerById(mgr.maps["bigmap"].layers, 1).Some?
    ensures |PointsOf(mgr.maps["bigmap"].layers, 1)| == |PointsOf(old(mgr.maps["bigmap"].layers), 1)| + 1
  {
    var before := mgr.maps["bigmap"].layers;
    mgr.AddCalibrationPoint("bigmap", 1, Position3D(v, 0.0, v), v, v, "2025-01-01T00:00:00");
    ConfigManager.AddCalibrationPointEffect(before, 1, CalibrationPoint(Position3D(v, 0.0, v), v, v, "2025-01-01T00:00:00"));
  }
}
