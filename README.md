# T2 Tarkov Toolbox, modelled in Dafny

T2 Tarkov Toolbox is a desktop companion for Escape from Tarkov. This project models its core logic and proves properties of it. The logic comes from three parts of the program.

**Local map.** These modules place the player on a map image.
- Region polygons and the segment test behind their overlap check.
- Map layers, with their height bands, owned and referenced regions, and the rule that picks the active layer.
- The affine transform from game to map coordinates, fitted by the basic, weighted, local-nearest or RANSAC strategy.
- The map configuration manager's editors and validators, and the JSON form of a layer.
- The transform cache.
- The canvas's pixel conversions, zoom and marker state.
- The raid-log line parser.
- The screenshot file-name parser.
- The user-configurable map functions.

**Screen filter.** These modules adjust the display's gamma ramp.
- The UI-to-algorithm value mapping.
- The Python gamma controller. `modules/screen_filter/gamma_controller.py` and `python_src/gamma_controller.py` contain the same ramp code, and one model covers both.
- The Rust configuration, gamma ramp and filter manager.
- The Python settings store and the older preset manager.

**Utilities.**
- The global hotkey registry.
- The application's path layout.
- The dotted-key translation lookup.

Each source file becomes one module. Code that changes state step by step becomes a class whose methods state their whole new state. Code that only computes becomes functions. Lemmas relate the two and carry the promises the program relies on.

Numbers are exact reals and unbounded integers. Where the program truncates or clamps to a machine word, the model writes that out, for example the u16 cast of a ramp entry and Python's `int()`.

Where the code and its documentation disagree, the model follows the code:
- The self-test in `modules/local_map/coordinate_transform.py` fits exactly map_x = 2·x + 300 and map_y = 2·z − 100. So the test position (125, _, 225) maps to (550, 350) (`CoordinateTransformSolver.SelfTestQuery`). The project's own description of this self-test gives (600, 350).
- The Rust test at `src-tauri/src/filter/gamma_ramp.rs:311` expects `red[255] == 65280`. The default ramp formula gives 257·255 = 65535, and `GammaRampRs.DefaultRamp` proves 65535.
- The docstring of `set_selected_monitors` says the setting is saved. The code only stores it, and `FilterStateManager.ConfigManager.SetSelectedMonitors` leaves `written` unchanged.
- The two brightness conventions differ:
  - Python scales by 1 + brightness (`GammaControllerPy.CalculateValue`);
  - Rust multiplies by the brightness itself (`FilterTypes.CalculateColorValue`, where brightness 0 gives black).

## Model

| member | source | states |
|---|---|---|
| Geometry.XIntersBetween | modules/local_map/models.py:145-149 | for an edge whose y-span (min, max] holds map_y, the computed crossing lies between the edge's end x-coordinates |
| Geometry.ToggleIffRayHit | modules/local_map/models.py:145-151 | the nested guards toggle `inside` exactly when the rightward ray from the point meets the edge; a horizontal edge never toggles |
| Geometry.OddHitsIsParity | modules/local_map/models.py:140-152 | toggling once per hit leaves `inside` true iff the number of edges hit is odd |
| Geometry.EdgeStep | modules/local_map/models.py:144-152 | one loop pass flips `inside` iff the ray meets the edge p1-p2 |
| Geometry.ContainsPoint | modules/local_map/models.py:120-154 | contains_point is false for fewer than 3 points and otherwise true iff the ray meets an odd number of the n wrap-around edges |
| Geometry.SegmentsIntersect | modules/local_map/models.py:194-230 | as written: True iff the strict straddle test holds; when it fails and some endpoint is collinear (cross product exactly 0), the call raises NameError |
| Geometry.SegmentsIntersectFixed | modules/local_map/models.py:201-240 | the intended test agrees with the as-written one wherever that returns; each of the four collinear-endpoint contacts (p1 or p2 on p3-p4, p3 or p4 on p1-p2) makes it true; a true result means a strict straddle or one of those contacts; and it is false when nothing straddles and nothing is collinear |
| Geometry.TouchingSegmentsRaise | modules/local_map/models.py:221-222 | a T-junction of two segments raises NameError as written |
| Geometry.EndpointContactRaises | modules/local_map/models.py:216-222 | every contact of an endpoint of the first segment with the second raises NameError as written and is an intersection for the intended test |
| Geometry.ScanEdges | modules/local_map/models.py:181-190 | the nested edge loops return False iff every remaining pair tests False, and otherwise the outcome (True or the exception) of some pair |
| Geometry.IntersectsWith | modules/local_map/models.py:156-192 | intersects_with is True when a vertex of either region lies in the other, False iff no vertex does and every wrap-around edge pair tests False, and raises only when some edge pair raises |
| LocalMapModels.ApplyIgnoresHeight | modules/local_map/models.py:542-560 | transform uses only x and z of the game position (changing the height never moves the map position), and the default coefficients map (x, z) to itself |
| LocalMapModels.FirstIndexOf | modules/local_map/models.py:362-367 | the index get_layer_by_id stops at: the first layer with the id, or none iff no layer has it |
| LocalMapModels.LayerById | modules/local_map/models.py:362-367 | get_layer_by_id returns a layer of the list carrying the id, and None iff no layer carries it |
| LocalMapModels.FirstInBand | modules/local_map/models.py:369-379 | get_layer_by_height picks the first layer whose closed band holds y, or none iff no band does |
| LocalMapModels.LayerByHeight | modules/local_map/models.py:369-379 | get_layer_by_height returns a layer of the list whose closed band holds y, and None iff no band holds it |
| LocalMapModels.FirstBaseIndex | modules/local_map/models.py:381-386 | get_base_map picks the first layer flagged as base map, or none iff there is none |
| LocalMapModels.BaseMap | modules/local_map/models.py:381-386 | get_base_map returns a layer of the list flagged as base map, and None iff none is flagged |
| LocalMapModels.FloorMaps | modules/local_map/models.py:388-390 | get_floor_maps returns only non-base layers and never more than it was given |
| LocalMapModels.FloorMapsOrder | modules/local_map/models.py:388-390 | the filter keeps list order: filtering a + b is filtering a, then b, and one layer is kept iff it is a floor |
| LocalMapModels.FloorMapsEntries | modules/local_map/models.py:388-390 | every floor layer appears in the result exactly as many times as in the input, and no base layer appears |
| LocalMapModels.LayersSharingRegion | modules/local_map/models.py:392-406 | get_layers_sharing_region returns only layers whose reference names the owner id, never more than it was given |
| LocalMapModels.LayersSharingRegionOrder | modules/local_map/models.py:392-406 | the filter keeps list order: filtering a + b is filtering a, then b, and one layer is kept iff it refers to the owner |
| LocalMapModels.LayersSharingRegionEntries | modules/local_map/models.py:392-406 | every layer referring to the owner appears exactly as many times as in the input, and no other layer appears |
| LocalMapModels.EffectiveRegion | modules/local_map/models.py:275-295 | the layer's own region if set; else, with a reference, the own region of the first layer with that id (one level, never following that owner's reference); else none |
| LocalMapModels.IsActivated | modules/local_map/models.py:306-347 | is_activated holds for every base layer, and an activated floor always has the height in its closed band |
| LocalMapModels.FloorActivation | modules/local_map/models.py:306-347 | stated from the layer list alone: a base layer is activated; a floor is activated iff the height lies in its closed band and, when it has its own region or else one through its reference, a map position is given from which the rightward ray crosses an odd number of that polygon's edges (at least 3 points) |
| LocalMapModels.BestActivatedFloor | modules/local_map/models.py:436-440 | the floor get_active_layer returns from its loop: activated, with the greatest height_max, and the earliest among equal heights (the stable descending sort), or none iff no floor is activated |
| LocalMapModels.ActiveLayerChoice | modules/local_map/models.py:408-448 | get_active_layer returns that best activated floor when one exists, otherwise the first base layer, otherwise the first layer, and None only for an empty list |
| LocalMapModels.ActiveLayer | modules/local_map/models.py:408-448 | get_active_layer returns a layer of the list, and None iff the list is empty |
| LocalMapModels.InsertById | modules/local_map/models.py:454 | inserting into a list sorted by layer id keeps it sorted and adds exactly the one layer |
| LocalMapModels.SortById | modules/local_map/models.py:454 | the sort by layer id gives a sorted permutation in which the layers sharing an id keep their relative order (Python's sort is stable) |
| LocalMapModels.InsertByIdStable | modules/local_map/models.py:454 | inserting a layer into a sorted list puts it first among the layers with its id and keeps the order of all others with each id |
| LocalMapModels.MapConfig.constructor | modules/local_map/models.py:357-360 | a new map configuration has the given id and name, no layers and default layer 0 |
| LocalMapModels.MapConfig.AddLayer | modules/local_map/models.py:450-454 | add_layer leaves the layers sorted by id and holding the old layers plus the new one |
| LocalMapModels.MapConfig.RemoveLayer | modules/local_map/models.py:456-470 | remove_layer returns True iff some layer has the id and then removes only the first such layer; otherwise the list is unchanged |
| CoordinateTransformSolver.WeightedFit | modules/local_map/coordinate_transform.py:108-167 | with exact kernels the weighted fit raises LinAlgError iff all game points are collinear, and otherwise returns the transform that fits every point exactly, whenever one exists |
| CoordinateTransformSolver.FitUnique | modules/local_map/coordinate_transform.py:61-167 | over game points of which some three are not collinear, at most one affine transform fits every point exactly, so the least-squares fits have only one exact answer |
| CoordinateTransformSolver.SortRanked | modules/local_map/coordinate_transform.py:512 | sorting the (distance, point) list by distance gives a permutation ordered by distance with ties kept in list order (a stable sort) |
| CoordinateTransformSolver.SortedPrefixIsNearest | modules/local_map/coordinate_transform.py:506-515 | the first min(4, n) entries of the stably sorted distance list are exactly the min(4, n) points nearest the player, nearer first and earlier first on ties |
| CoordinateTransformSolver.NearestSelectionUnique | modules/local_map/coordinate_transform.py:512-514 | only one index list is such a nearest selection, so the points the local fit uses are fixed by the positions alone |
| CoordinateTransformSolver.LocalInterpolation | modules/local_map/coordinate_transform.py:474-538 | _calculate_local_interpolation raises ValueError iff there are fewer than 3 points, and otherwise fits the basic transform to the nearest selection |
| CoordinateTransformSolver.Inliers | modules/local_map/coordinate_transform.py:204-211 | the inlier list holds ascending, distinct indices of calibration points |
| CoordinateTransformSolver.InliersExact | modules/local_map/coordinate_transform.py:205-211 | a point is an inlier iff its pixel error under the candidate is below the 10-pixel threshold |
| CoordinateTransformSolver.CollectInliers | modules/local_map/coordinate_transform.py:204-211 | the enumerate loop collects exactly the inlier indices, in order |
| CoordinateTransformSolver.Trials | modules/local_map/coordinate_transform.py:194-214 | one trial per iteration, each the basic fit of that iteration's three sampled points with its inliers |
| CoordinateTransformSolver.BestAfter | modules/local_map/coordinate_transform.py:187-220 | the kept score is the kept inlier count, a score of 0 means no model is kept, and a non-zero score is the inlier list of one of the trials run so far |
| CoordinateTransformSolver.BestIsMaximal | modules/local_map/coordinate_transform.py:217-220 | no trial has more inliers than the kept score |
| CoordinateTransformSolver.BestIsEarliest | modules/local_map/coordinate_transform.py:217-220 | the kept model and inliers belong to the earliest trial reaching the best score, since `score > best_score` replaces only on a strict increase |
| CoordinateTransformSolver.RansacIteration | modules/local_map/coordinate_transform.py:194-220 | one iteration replaces the best model iff its inlier count is strictly larger than the best score |
| CoordinateTransformSolver.Ransac | modules/local_map/coordinate_transform.py:170-240 | _calculate_ransac_transform keeps the best model over its 500 draws, then refits basic on at most 6 inliers, weighted on more, and weighted over all points when fewer than 3 inliers were found |
| CoordinateTransformSolver.ChooseStrategy | modules/local_map/coordinate_transform.py:47-58 | with a player position and local interpolation on the local fit is chosen; otherwise basic for 3 points, weighted for 4 to 6 and RANSAC for 7 or more, each case iff its condition holds |
| CoordinateTransformSolver.CalculateAffineTransform | modules/local_map/coordinate_transform.py:16-58 | calculate_affine_transform raises ValueError iff there are fewer than 3 points, and otherwise returns the fit of the chosen strategy |
| CoordinateTransformSolver.CalculateFromPoints | modules/local_map/models.py:562-591 | calculate_from_points raises ValueError iff there are fewer than 3 points, gives the identity transform when the solver module cannot be imported, and otherwise the affine fit of the chosen strategy |
| CoordinateTransformSolver.Range | modules/local_map/coordinate_transform.py:264-267 | max(values) - min(values) is never negative |
| CoordinateTransformSolver.AxisScale | modules/local_map/coordinate_transform.py:270-278 | an axis scale is 1.0 when the game range is zero, and otherwise the factor that stretches the game range onto the map range |
| CoordinateTransformSolver.ThroughPoint | modules/local_map/coordinate_transform.py:281-296 | the offsets taken from a point put that point exactly on its pixel, with no rotation or shear |
| CoordinateTransformSolver.SimpleTransform | modules/local_map/coordinate_transform.py:243-296 | calculate_simple_transform raises ValueError iff there are fewer than 2 points; otherwise it has no rotation or shear, non-negative scales (1.0 on an axis without spread) and maps the first calibration point exactly onto its pixel |
| CoordinateTransformSolver.SimpleTransformScales | modules/local_map/coordinate_transform.py:264-278 | each scale of the simple transform is the map range over the game range of its axis, and 1.0 on an axis whose game coordinates do not spread (AxisScale's contract gives scale × game range = map range) |
| CoordinateTransformSolver.BarycentricSolvesNormalEquations | modules/local_map/coordinate_transform.py:450-468 | the u and v computed from the dot products solve the 2x2 system expressing p - a in the edges c - a and b - a |
| CoordinateTransformSolver.IsInsideTriangle2D | modules/local_map/coordinate_transform.py:427-471 | a point is reported inside only for a three-corner triangle that is not degenerate |
| CoordinateTransformSolver.TriangleContainsFirstCorner | modules/local_map/coordinate_transform.py:450-471 | every non-degenerate triangle contains its first corner |
| CoordinateTransformSolver.TriangleContainsThirdCorner | modules/local_map/coordinate_transform.py:450-471 | every non-degenerate triangle contains its third corner |
| CoordinateTransformSolver.InsideTriangleIff | modules/local_map/coordinate_transform.py:427-471 | for a triangle past the degeneracy cut-off, _is_inside_triangle_2d reports a point inside iff p − a = u·(c − a) + v·(b − a) for some u ≥ 0, v ≥ 0 with u + v ≤ 1 |
| CoordinateTransformSolver.ValidateTransform | modules/local_map/coordinate_transform.py:299-326 | validate_transform returns one (dx, dy) residual per point, in order, and their mean length (np.sqrt(dx² + dy²)) as the average error (none for an empty list, where np.mean gives nan) |
| CoordinateTransformSolver.SumNormsZero | modules/local_map/coordinate_transform.py:324 | the sum of residual norms is non-negative and zero iff every residual is (0, 0) |
| CoordinateTransformSolver.ZeroErrorIffFits | modules/local_map/coordinate_transform.py:299-326 | the average error is zero iff the transform maps every calibration point exactly onto its pixel |
| CoordinateTransformSolver.SelfTestSolution | modules/local_map/coordinate_transform.py:363-390 | the three self-test points are fitted exactly by one transform only |
| CoordinateTransformSolver.SelfTestQuery | modules/local_map/coordinate_transform.py:401-404 | any transform fitting the three self-test points sends game (125, 225) to map (550, 350) |
| CoordinateTransformSolver.SelfTest | modules/local_map/coordinate_transform.py:358-404 | run against exact kernels, the self-test's three points take the basic path and give exactly map_x = 2·x + 300, map_y = 2·z − 100, (125, 225) maps to (550, 350), and validate_transform reports zero error on every point |
| CoordinateTransformSolver.BarycentricAtThirdCorner | modules/local_map/coordinate_transform.py:450-468 | at the corner c the barycentric weights are u = 1, v = 0 |
| ConfigManager.SameIdsSameIndex | modules/local_map/config_manager.py:103-188 | an edit that keeps every layer id in place keeps where get_layer_by_id finds each id |
| ConfigManager.CountBaseZero | modules/local_map/config_manager.py:641-646 | count_base_maps is zero iff get_base_map finds no base layer |
| ConfigManager.CountBasePermutation | modules/local_map/models.py:454 | reordering the layers (the sort in add_layer) does not change the number of base layers |
| ConfigManager.CountBaseUpdate | modules/local_map/config_manager.py:103-188 | replacing one layer changes the base count by exactly the change in that layer's base flag |
| ConfigManager.InsertNewLayer | modules/local_map/config_manager.py:129-145 | adding a layer with a new id and re-sorting gives one more layer, the id then finds exactly that layer, the base count grows only for a base layer, and region consistency is kept |
| ConfigManager.SetImageEffect | modules/local_map/config_manager.py:103-147 | after set_map_image the id finds a layer with the given image, name, heights and rotation; a new layer is a floor without points or region; the sort by id, the base count and region consistency are kept |
| ConfigManager.AddCalibrationPointEffect | modules/local_map/config_manager.py:149-177 | add_calibration_point appends the point to the first layer with the id and changes nothing else; an unknown layer leaves the list unchanged |
| ConfigManager.ClearCalibrationPointsEffect | modules/local_map/config_manager.py:179-188 | after clear_calibration_points the layer is no longer calibrated and every other layer is unchanged |
| ConfigManager.TransformFor | modules/local_map/config_manager.py:207-222 | calculate_transform gives no transform for an unknown layer or one with fewer than 3 points (is_calibrated), and otherwise the fit of the layer's points, an exception becoming None |
| ConfigManager.SetRegionAsWritten | modules/local_map/config_manager.py:371-395 | as written, set_layer_region keeps every layer id at its index; what it does to the edited layer (region stored, reference kept, lost on reload) is stated by SetRegionAsWrittenLosesRegion |
| ConfigManager.SetRegion | modules/local_map/config_manager.py:371-395 | the corrected set_layer_region keeps every layer id at its index; that the edited floor then owns the new region is stated by SetRegionEffect |
| ConfigManager.SetRegionEffect | modules/local_map/config_manager.py:371-395 | the corrected set_layer_region leaves base layers alone, makes a floor layer the owner of exactly the new region (its effective region), and keeps region consistency and the base count |
| ConfigManager.BindEffect | modules/local_map/config_manager.py:519-548 | bind_layer_to_region changes nothing for an unknown layer or owner or an owner without a region; otherwise the layer refers to the owner and its effective region is the owner's region; consistency and the base count are kept |
| ConfigManager.UnbindEffect | modules/local_map/config_manager.py:550-569 | after unbind_layer_region the layer has no effective region; consistency and the base count are kept |
| ConfigManager.ClearReferences | modules/local_map/config_manager.py:621-625 | clearing the references to a deleted owner keeps every layer id in place |
| ConfigManager.DeleteLayerOutcome | modules/local_map/config_manager.py:594-632 | delete_layer fails for an unknown layer, refuses a base layer, and succeeds exactly for an existing floor layer |
| ConfigManager.DeleteLayerEffect | modules/local_map/config_manager.py:594-632 | a successful delete_layer removes exactly the first layer with the id, keeps the others in order, and when the layer owned a region, no remaining layer refers to it |
| ConfigManager.DeleteLayerKeepsInvariants | modules/local_map/config_manager.py:594-632 | deleting a floor layer keeps the base count and region consistency |
| ConfigManager.ClearFloorRegions | modules/local_map/config_manager.py:690-700 | delete_all_regions keeps every layer id in place |
| ConfigManager.SwapBaseEffect | modules/local_map/config_manager.py:657-688 | swap_base_map fails iff the layer is unknown, already the base map, or there is no base map to swap with; on success the new layer becomes the base map, the old one a floor, the base count is kept, and every floor ends without a region or reference |
| ConfigManager.DeleteAllRegionsEffect | modules/local_map/config_manager.py:690-700 | after delete_all_regions no floor layer has an effective region; consistency and the base count are kept |
| ConfigManager.PointsRoundTrip | modules/local_map/config_manager.py:299-309 | region points written as [x, y] pairs read back as the same points |
| ConfigManager.CalibrationPointsRoundTrip | modules/local_map/config_manager.py:311-335 | calibration points written to JSON read back unchanged |
| ConfigManager.LayerJson | modules/local_map/config_manager.py:246-267 | _serialize_layer writes exactly the nine layer keys, plus 'region' iff the layer owns its region, with the layer id under 'layer_id' |
| ConfigManager.LayerFromJson | modules/local_map/config_manager.py:269-297 | a layer is read only from an object holding its id under 'layer_id'; is_base_map is the stored flag, or layer_id == 0 when absent; a layer read with a reference never carries a region |
| ConfigManager.LayerJsonRoundTrip | modules/local_map/config_manager.py:246-297 | a serialised layer reads back unchanged, except that the region of a layer with a reference is dropped |
| ConfigManager.LayerReloadExact | modules/local_map/config_manager.py:246-297 | a layer survives save and reload unchanged iff it does not hold both a region and a reference |
| ConfigManager.SetRegionAsWrittenLosesRegion | modules/local_map/config_manager.py:263-297 | as written, setting the region of a floor that refers to an owner stores the region, and the saved layer reloads without it |
| ConfigManager.RegionLossExample | modules/local_map/config_manager.py:371-395 | for one floor bound to layer 1, the triangle set by set_layer_region is gone after save and reload |
| ConfigManager.SetRegionSurvivesReload | modules/local_map/config_manager.py:371-395 | with the corrected set_layer_region, the region a floor gets survives save and reload |
| ConfigManager.MapConfigManager.constructor | modules/local_map/config_manager.py:72-97 | _create_default_config gives one empty configuration for each of the eleven default maps, keyed by map id, with its display name and default layer 0 |
| ConfigManager.MapConfigManager.SetMapImage | modules/local_map/config_manager.py:103-147 | set_map_image applies the set-image edit to the map's layer list in place and does nothing for an unknown map |
| ConfigManager.MapConfigManager.AddCalibrationPoint | modules/local_map/config_manager.py:149-177 | add_calibration_point appends the stamped point to the layer in place |
| ConfigManager.MapConfigManager.ClearCalibrationPoints | modules/local_map/config_manager.py:179-188 | clear_calibration_points empties the layer's points in place |
| ConfigManager.MapConfigManager.SetLayerRegion | modules/local_map/config_manager.py:371-395 | set_layer_region applies the corrected region edit in place |
| ConfigManager.MapConfigManager.ClearLayerRegion | modules/local_map/config_manager.py:397-406 | clear_layer_region removes the layer's own region in place |
| ConfigManager.MapConfigManager.BindLayerToRegion | modules/local_map/config_manager.py:519-548 | bind_layer_to_region applies the bind edit in place |
| ConfigManager.MapConfigManager.UnbindLayerRegion | modules/local_map/config_manager.py:550-569 | unbind_layer_region applies the unbind edit in place |
| ConfigManager.MapConfigManager.ValidateRegionNoOverlap | modules/local_map/config_manager.py:408-449 | validate_region_no_overlap passes iff the new region meets no region of another owning layer, and otherwise names the first layer that it meets, or propagates the exception the test raised there |
| ConfigManager.MapConfigManager.ValidateHeightInRegion | modules/local_map/config_manager.py:451-495 | validate_height_in_region passes iff no other layer in the same region has an overlapping height band, and otherwise reports the first such layer and its band |
| ConfigManager.MapConfigManager.DeleteLayer | modules/local_map/config_manager.py:594-632 | delete_layer reports an unknown map; otherwise it fails and changes nothing exactly as the delete outcome says, and on success the layer list becomes the remaining layers |
| ConfigManager.MapConfigManager.CalculateTransform | modules/local_map/config_manager.py:207-222 | calculate_transform gives None for an unknown map, and otherwise applies the calibration gate to the map's layers |
| ConfigManager.MapConfigManager.ValidateBaseMapConstraint | modules/local_map/config_manager.py:648-655 | validate_base_map_constraint passes iff the map has exactly one base layer, and reports a missing base map iff it has none |
| ConfigManager.MapConfigManager.SwapBaseMap | modules/local_map/config_manager.py:657-688 | swap_base_map reports an unknown map; otherwise it fails and changes nothing, or installs the swapped list, exactly as the swap says |
| ConfigManager.MapConfigManager.DeleteAllRegions | modules/local_map/config_manager.py:690-700 | delete_all_regions clears every floor's region and reference in place |
| TransformCache.Quantise | modules/local_map/map_resource_cache.py:256-260 | round(v / 10) * 10 is a multiple of ten within 5 units of v |
| TransformCache.KeyFor | modules/local_map/map_resource_cache.py:255-262 | the cache key keeps the map and layer and has a position cell iff a position was given |
| TransformCache.KeyIgnoresHeight | modules/local_map/map_resource_cache.py:256-262 | positions in the same 10-unit (x, z) cell share a key whatever their height |
| TransformCache.KeptMembers | modules/local_map/map_resource_cache.py:289-304 | invalidation keeps exactly the keys of other maps or layers, without duplicates |
| TransformCache.Survivors | modules/local_map/map_resource_cache.py:274-277 | when the cache holds 50 entries or more, exactly the oldest one is evicted |
| TransformCache.TransformCache.constructor | modules/local_map/map_resource_cache.py:40-59 | the transform cache starts empty |
| TransformCache.TransformCache.GetTransform | modules/local_map/map_resource_cache.py:235-287 | a cached key is answered from the cache with no change; otherwise a truthy result is stored under the key after evicting the oldest entry when 50 are held, and None or an exception leaves the cache unchanged and returns None |
| TransformCache.TransformCache.Invalidate | modules/local_map/map_resource_cache.py:289-304 | invalidate_transform removes exactly the entries of the given map and layer and keeps the others with their order |
| TransformCache.TransformCache.ClearAll | modules/local_map/map_resource_cache.py:306-314 | clear_all_transforms empties the cache |
| TransformCache.CollectMatching | modules/local_map/map_resource_cache.py:296-299 | the list comprehension collects exactly the keys of the given map and layer |
| TransformCache.RemoveKeys | modules/local_map/map_resource_cache.py:300-301 | popping the collected keys leaves exactly the other entries, unchanged |
| TransformCache.CalibrateThenLookupAsWritten | modules/local_map/config_manager.py:149-177 | as written: after add_calibration_point the layer has the new point, yet a cached key is still answered with the transform calculate_transform gave before it |
| TransformCache.StaleTransformExample | modules/local_map/map_resource_cache.py:263-281 | layer 1 of bigmap, calibrated with 3 points and looked up once, is still served the 3-point fit after a 4th point, while calculate_transform now gives the 4-point fit |
| TransformCache.CalibrateThenLookup | modules/local_map/map_resource_cache.py:289-304 | with invalidation after adding the point, the next lookup returns what calculate_transform gives for the current points |
| MapCanvas.MapToCanvas | modules/local_map/map_canvas.py:595-617 | without an image the canvas point is (0, 0); otherwise the canvas point's distance from the view offset is the map point's distance from the image centre, scaled by the zoom |
| MapCanvas.CanvasToMap | modules/local_map/map_canvas.py:567-593 | a canvas point converts to a map point iff an image is loaded and the unscaled point lies on the image |
| MapCanvas.MapCanvasRoundTrip | modules/local_map/map_canvas.py:567-617 | converting a map point on the image to canvas and back gives the same map point |
| MapCanvas.CanvasMapRoundTrip | modules/local_map/map_canvas.py:567-617 | converting a canvas point that lands on the image to map and back gives the same canvas point |
| MapCanvas.ClampZoom | modules/local_map/map_canvas.py:708 | the zoom is clamped into [min_zoom, max_zoom], unchanged inside it and set to the nearer bound outside |
| MapCanvas.WheelFactor | modules/local_map/map_canvas.py:541-547 | a wheel event zooms by 1.1 or 0.9, and is ignored iff it is neither button 4 or 5 nor a non-zero delta |
| MapCanvas.ZoomKeepsCursorPoint | modules/local_map/map_canvas.py:553-562 | the offset update of a wheel zoom keeps the map point under the cursor in place |
| MapCanvas.MapCanvas.constructor | modules/local_map/map_canvas.py:33-85 | a new canvas has the given size, no image, zoom 1, offset (0, 0), no markers, no drag or callback, neutral filters and an empty image cache |
| MapCanvas.MapCanvas.FitZoom | modules/local_map/map_canvas.py:155-159 | the fitted zoom is 0.9 times the smaller of the two canvas-to-image ratios: positive and leaving a margin on both axes |
| MapCanvas.MapCanvas.ResetViewState | modules/local_map/map_canvas.py:150-163 | _reset_view does nothing without an image; with one it fits the zoom and centres the offset |
| MapCanvas.MapCanvas.ResetView | modules/local_map/map_canvas.py:713-716 | reset_view resets the view as _reset_view does and renders once |
| MapCanvas.MapCanvas.LoadMap | modules/local_map/map_canvas.py:99-131 | load_map succeeds iff the image loads; it records the path, clears the cached images when the path changes, and on success fits and centres the view and renders once |
| MapCanvas.MapCanvas.SetZoom | modules/local_map/map_canvas.py:701-711 | set_zoom stores the clamped zoom and renders iff it differs from the current one |
| MapCanvas.MapCanvas.MouseWheel | modules/local_map/map_canvas.py:535-565 | a wheel event that is ignored or would leave the zoom range changes nothing; otherwise the zoom is scaled by the factor about the cursor and rendered once |
| MapCanvas.MapCanvas.MouseDown | modules/local_map/map_canvas.py:502-506 | mouse down records the start point and clears the drag flag |
| MapCanvas.MapCanvas.MouseDrag | modules/local_map/map_canvas.py:508-523 | a move of more than 5 pixels on an axis starts a drag; while dragging the offset follows the mouse and the start point moves with it; otherwise nothing changes |
| MapCanvas.MapCanvas.MouseUp | modules/local_map/map_canvas.py:525-533 | a release reports a click iff no drag happened, a callback is set and the point lies on the image, with the map point it converts to, and always ends the drag |
| MapCanvas.MapCanvas.SetClickCallback | modules/local_map/map_canvas.py:718-720 | set_click_callback records whether a callback is present |
| MapCanvas.MapCanvas.AddCalibrationMarker | modules/local_map/map_canvas.py:619-631 | add_calibration_marker appends the marker to the list |
| MapCanvas.MapCanvas.ClearCalibrationMarkers | modules/local_map/map_canvas.py:633-636 | clear_calibration_markers empties the list |
| MapCanvas.MapCanvas.ShowPlayerPosition | modules/local_map/map_canvas.py:638-653 | show_player_position stores the position and heading |
| MapCanvas.MapCanvas.ClearPlayerMarker | modules/local_map/map_canvas.py:655-658 | clear_player_marker removes the stored position |
| MapCanvas.MapCanvas.AddRegionPoint | modules/local_map/map_canvas.py:660-672 | add_region_point appends the point |
| MapCanvas.MapCanvas.DrawRegionLines | modules/local_map/map_canvas.py:674-693 | draw_region_lines stores the given outline |
| MapCanvas.MapCanvas.ClearRegionMarkers | modules/local_map/map_canvas.py:695-699 | clear_region_markers empties the points and the outline |
| MapCanvas.MapCanvas.CachedPhotoLegacy | modules/local_map/map_canvas.py:194-245 | the key rounds zoom and filters to two decimals; a hit leaves the cache unchanged, and a miss adds the key after evicting the oldest when 10 are held |
| MapCanvas.MapCanvas.SetFilters | modules/local_map/map_canvas.py:305-330 | set_filters stores the three values; only a change empties the scaled-image cache and re-renders |
| LogParser.FindFrom | modules/local_map/log_parser.py:56 | the search finds the first occurrence of the text at or after the start position, or reports none iff there is none |
| LogParser.ContainsMeansOccurs | modules/local_map/log_parser.py:56 | the `in` test on a line holds iff the text occurs somewhere in it |
| LogParser.Run | modules/local_map/log_parser.py:58 | a character-class run is the longest stretch of class characters from the start position |
| LogParser.SearchFrom | modules/local_map/log_parser.py:57-60 | re.search finds a match iff some occurrence of the literal prefix is followed by a group that matches, and reports the leftmost such match |
| LogParser.BundleAt | modules/local_map/log_parser.py:57-60 | the map-bundle group is a non-empty run of word characters followed by `.bundle` |
| LogParser.QueueAt | modules/local_map/log_parser.py:76-79 | the queue-time group is a non-empty run of digits, dots and commas |
| LogParser.LocationAt | modules/local_map/log_parser.py:87 | the map group after `Location: ` is non-empty and holds no comma |
| LogParser.ShortIdAt | modules/local_map/log_parser.py:92 | the raid id is exactly six upper-case letters or digits |
| LogParser.IpAtIsDottedQuad | modules/local_map/log_parser.py:128-131 | what the IPv4 pattern matches is four groups of one to three digits joined by dots |
| LogParser.CommasToDots | modules/local_map/log_parser.py:81 | replace(',', '.') keeps the length and changes exactly the commas into dots |
| LogParser.DecimalValue | modules/local_map/log_parser.py:81-82 | float() of a text of digits and dots fails iff it is empty, a lone dot, or has two dots, otherwise gives a non-negative value, and on digits alone gives the number they spell |
| LogParser.DecimalValueDotted | modules/local_map/log_parser.py:81-82 | float() of digits w, a dot and digits f is the number the digits of w and f spell together, over ten to the number of digits of f |
| LogParser.DecimalValueParts | modules/local_map/log_parser.py:81-82 | float() of w "." f is the value of w plus the value of f shifted behind the dot |
| LogParser.DecimalValueAt | modules/local_map/log_parser.py:81-82 | float() of a text whose first and only dot is at k is the value before the dot plus the shifted value after it |
| Digits.DigitsValueAppend | modules/local_map/log_parser.py:81-82 | the value of the digits w + f is the value of w times ten to the length of f, plus the value of f |
| LogParser.NewRaid | modules/local_map/log_parser.py:67-72 | a raid opened by map loading has the map id, an empty raid id, offline, PMC, no server address and no queue time |
| LogParser.AfterMapLoad | modules/local_map/log_parser.py:56-72 | a scene-preset line for a known bundle starts a new raid on the mapped map id; any other line keeps the raid |
| LogParser.QueueTime | modules/local_map/log_parser.py:76-82 | the queue-time field is absent iff the MatchingCompleted pattern does not match |
| LogParser.QueueTimeReadsReal | modules/local_map/log_parser.py:76-82 | on a line whose first "MatchingCompleted:" is followed by a number, " real:" and a number running to the end, the queue time is float() of the "real:" number with commas read as dots, or not-a-number when float() fails |
| LogParser.SampleQueueTime | modules/local_map/log_parser.py:238 | the sample line "…MatchingCompleted:5.2 real:5.1" has queue time 5.1, and so does the same line written with commas |
| LogParser.SampleMatchingStep | modules/local_map/log_parser.py:75-82 | the matchmaking step on the sample line, with a raid open, sets that raid's queue time to 5.1 (from "real:", not the 5.2 before it), also with decimal commas |
| LogParser.AfterGameCreate | modules/local_map/log_parser.py:85-104 | a game-create line sets the map and raid id when their patterns match, sets online iff the line says RaidMode: Online, sets PMC for Pmc and Scav for Savage (Pmc first), and keeps the rest |
| LogParser.ServerIpFrom | modules/local_map/log_parser.py:125-141 | an address taken from the line is matched by one of the four patterns and is neither 127.x nor 192.168.x |
| LogParser.AfterMatching | modules/local_map/log_parser.py:75-82 | the matchmaking step raises ValueError iff a raid is open and the queue text is not a number; a MatchingCompleted line with a raid open and a number sets the raid's queue time to that number and changes nothing else; any other line keeps the raid |
| LogParser.AfterCreate | modules/local_map/log_parser.py:85-104 | the game-create step keeps whether a raid is open and its server address |
| LogParser.AfterMatchOver | modules/local_map/log_parser.py:119-121 | a UserMatchOver line closes the raid; any other line keeps it |
| LogParser.AfterAddressSearch | modules/local_map/log_parser.py:125-141 | the address search changes only the server address, never one already set, and only to an address the patterns found |
| LogParser.ServerIpAlwaysPublic | modules/local_map/log_parser.py:125-141 | a parsed line keeps the invariant that a stored server address is a dotted quad outside 127.x and 192.168.x |
| LogParser.ServerIpSetOnce | modules/local_map/log_parser.py:125 | once the raid has a server address, lines that do not start a new raid keep it |
| LogParser.OnlyGameStartedReturns | modules/local_map/log_parser.py:107-116 | parse_line returns raid information only for a GameStarted line, stamped with the current time, and always does so when such a line reaches an open raid |
| LogParser.MatchOverClearsRaid | modules/local_map/log_parser.py:119-121 | a UserMatchOver line without GameStarted leaves no open raid and returns nothing |
| LogParser.UnrelatedLineChangesNothing | modules/local_map/log_parser.py:45-143 | a line with none of the markers and no address changes nothing and returns nothing |
| LogParser.Parser.constructor | modules/local_map/log_parser.py:42-43 | the parser starts with no open raid |
| LogParser.Parser.ParseLine | modules/local_map/log_parser.py:45-143 | parse_line moves the current raid and gives the result exactly as the line step does |
| LogParser.IpFoundIsDottedQuad | modules/local_map/log_parser.py:128-135 | whatever address a prefixed pattern's search finds is four dot-separated groups of one to three digits |
| ScreenshotParser.DecimalPrefix | modules/local_map/screenshot_parser.py:34-40 | a `-?\d+\.\d+` field read off the front of the text is a well-formed decimal, negative only where a sign is allowed, and the text is that decimal's digits followed by the rest |
| ScreenshotParser.DecimalPrefixOf | modules/local_map/screenshot_parser.py:34-40 | a well-formed decimal followed by a non-digit is read back as exactly that decimal |
| ScreenshotParser.ZAndTail | modules/local_map/screenshot_parser.py:36-42 | the z field, the optional underscore and the rotation tail, read with the backtracking choice of the z fraction, give well-formed fields |
| ScreenshotParser.TailRoundTrip | modules/local_map/screenshot_parser.py:37-42 | the rotation, optional extra field and index written out are read back as the same tail |
| ScreenshotParser.Header | modules/local_map/screenshot_parser.py:33 | the header gives a YYYY-MM-DD date and an HH-MM time |
| ScreenshotParser.MatchName | modules/local_map/screenshot_parser.py:32-43 | PATTERN.match yields only well-formed field texts (dates, times, decimals, index) |
| ScreenshotParser.RenderRoundTrip | modules/local_map/screenshot_parser.py:32-43 | every file name built from well-formed fields, whatever follows `.png`, is matched by the pattern with exactly those fields |
| ScreenshotParser.Timestamp | modules/local_map/screenshot_parser.py:83-88 | strptime on the date and time gives only a valid calendar date and time of day |
| ScreenshotExamples.LeapDay | modules/local_map/screenshot_parser.py:85-88 | 2024-02-29 10:00 is accepted |
| ScreenshotExamples.NoLeapDay | modules/local_map/screenshot_parser.py:85-88 | 2023-02-29 is refused |
| ScreenshotExamples.NoHourTwentyFour | modules/local_map/screenshot_parser.py:85-88 | hour 24 is refused |
| ScreenshotParser.Basename | modules/local_map/screenshot_parser.py:59 | os.path.basename gives the longest suffix without a slash or backslash |
| ScreenshotParser.BasenameOf | modules/local_map/screenshot_parser.py:59 | the base name of a directory followed by a separator-free name is that name |
| ScreenshotParser.Parse | modules/local_map/screenshot_parser.py:46-100 | parse succeeds iff the base name matches and its date and time are a real moment; the result carries the given map id, the base name and a valid timestamp |
| ScreenshotParser.ParsedIsScreenshot | modules/local_map/screenshot_parser.py:102-115 | a parsed name is a screenshot, and a screenshot name fails to parse only for an impossible date or time |
| ScreenshotParser.ParseRendered | modules/local_map/screenshot_parser.py:46-115 | a well-formed screenshot name under any directory is recognised and parses to the position, rotation, timestamp and base name it spells |
| ScreenshotExamples.DocumentedName | modules/local_map/screenshot_parser.py:17-18 | the documented example name parses to position (123.45, 67.89, -10.23), rotation (0.1234, 0.5678, 0.9012, 0.3456) and 2024-12-05 14:32 |
| ScreenshotExamples.ImpossibleDateIsScreenshotButNotParsed | modules/local_map/screenshot_parser.py:85-115 | a name dated 2023-02-29 counts as a screenshot but does not parse |
| MapFunctionConfig.ToFloat | modules/local_map/function_config.py:38 | float() keeps a number's value and fails on null, lists and dictionaries |
| MapFunctionConfig.Load | modules/local_map/function_config.py:28-43 | _load gives the defaults for a missing, unreadable or non-dictionary file or a zoom step float() rejects; otherwise each field is the file's value or its default |
| MapFunctionConfig.Serialize | modules/local_map/function_config.py:48-53 | save writes exactly the four keys |
| MapFunctionConfig.SaveLoadRoundTrip | modules/local_map/function_config.py:28-58 | loading what save wrote gives the same configuration |
| MapFunctionConfig.EmptyFileGivesDefaults | modules/local_map/function_config.py:34-39 | an empty dictionary loads as the defaults F5, +, - and 0.05 |
| MapFunctionConfig.ClampStep | modules/local_map/function_config.py:73 | the zoom step is clamped into [0.01, 1.0], unchanged inside it |
| MapFunctionConfig.FunctionConfigManager.constructor | modules/local_map/function_config.py:25-26 | the manager starts with the loaded configuration |
| MapFunctionConfig.FunctionConfigManager.Save | modules/local_map/function_config.py:45-58 | save writes the serialised configuration |
| MapFunctionConfig.FunctionConfigManager.UpdateOverlayHotkey | modules/local_map/function_config.py:60-63 | update_overlay_hotkey changes only that hotkey and saves |
| MapFunctionConfig.FunctionConfigManager.UpdateZoomHotkeys | modules/local_map/function_config.py:65-69 | update_zoom_hotkeys changes only the two zoom hotkeys and saves |
| MapFunctionConfig.FunctionConfigManager.UpdateZoomStep | modules/local_map/function_config.py:71-74 | update_zoom_step stores the clamped step, within [0.01, 1.0], and saves |
| FilterModels.NumberOr | modules/screen_filter/models.py:22-33 | data.get(key, default) gives the default for a missing key and the stored number otherwise |
| FilterModels.ConfigToDict | modules/screen_filter/models.py:18-19 | to_dict writes exactly the nine setting keys, each as a number |
| FilterModels.ConfigRoundTrip | modules/screen_filter/models.py:18-33 | from_dict(to_dict(c)) == c |
| FilterModels.EmptyConfigDict | modules/screen_filter/models.py:5-33 | an empty dictionary reads as the default settings |
| FilterModels.MissingKeyIndependent | modules/screen_filter/models.py:22-33 | a missing key takes its own default and leaves every other setting as read |
| FilterModels.PresetToDict | modules/screen_filter/models.py:43-46 | a preset's dictionary has exactly the keys id, name, config, hotkey and is_default |
| FilterModels.PresetFromDict | modules/screen_filter/models.py:49-56 | missing keys read as "", "Unnamed", the default settings, no hotkey and not built in; a null hotkey is no hotkey |
| FilterModels.PresetRoundTrip | modules/screen_filter/models.py:43-56 | from_dict(to_dict(p)) == p |
| ValueMapper.Clamp | modules/screen_filter/value_mapper.py:204-206 | _clamp lands in [lo, hi], keeps a value inside and gives the nearer bound outside |
| ValueMapper.UiToAlgoBrightness | modules/screen_filter/value_mapper.py:32-42 | the algorithm brightness is always within [-0.5, 0.5] |
| ValueMapper.AlgoToUiBrightness | modules/screen_filter/value_mapper.py:45-53 | the panel brightness is always within [-100, 100] |
| ValueMapper.BrightnessMapping | modules/screen_filter/value_mapper.py:32-42 | inside the panel range the brightness is divided by 200, and outside it the nearer end of the algorithm range is used |
| ValueMapper.BrightnessRoundTrip | modules/screen_filter/value_mapper.py:32-53 | panel to algorithm and back is the identity on the panel range, and algorithm to panel and back is the identity on the algorithm range |
| ValueMapper.UiToAlgoGamma | modules/screen_filter/value_mapper.py:56-59 | the algorithm gamma is always within [0.5, 3.0] |
| ValueMapper.AlgoToUiGamma | modules/screen_filter/value_mapper.py:62-65 | the panel gamma is always within [0.5, 3.0] |
| ValueMapper.GammaIdentity | modules/screen_filter/value_mapper.py:56-65 | both gamma conversions are the same clamp, idempotent, and the identity on the range |
| ValueMapper.UiToAlgoContrast | modules/screen_filter/value_mapper.py:68-77 | the algorithm contrast is always within [-0.5, 0.5] |
| ValueMapper.AlgoToUiContrast | modules/screen_filter/value_mapper.py:80-88 | the panel contrast is always within [-50, 50] |
| ValueMapper.ContrastRoundTrip | modules/screen_filter/value_mapper.py:68-88 | inside the panel range the contrast is divided by 100, and the two conversions invert each other on their ranges |
| ValueMapper.UiToAlgoRgb | modules/screen_filter/value_mapper.py:91-94 | a channel scale is always within [0, 1] |
| ValueMapper.AlgoToUiRgb | modules/screen_filter/value_mapper.py:97-100 | a panel channel value is always within [0, 255] |
| ValueMapper.RgbRoundTrip | modules/screen_filter/value_mapper.py:91-100 | the two channel conversions invert each other on their ranges |
| ValueMapper.ValidateConfig | modules/screen_filter/value_mapper.py:103-146 | validate_config accepts a configuration iff its gamma is at least 0.01; every other value is clamped and cannot fail |
| ValueMapper.SafeValues | modules/screen_filter/value_mapper.py:149-201 | the suggestion keeps gamma and the channel scales and drops the overlay offsets; a valid configuration keeps brightness and contrast, and an invalid one, which no reduction can repair, gets 0 for both |
| ValueMapper.SuggestSafeValues | modules/screen_filter/value_mapper.py:149-201 | suggest_safe_values, with its reduction steps, returns exactly that suggestion |
| ValueMapper.SafeMaxBrightness | modules/screen_filter/value_mapper.py:219-249 | the safe maximum is a panel brightness within [-100, 100], and the full 100 when the brightest gamma-corrected value is at most 0.01 |
| GammaControllerPy.Trunc | modules/screen_filter/gamma_controller.py:161 | int() truncates toward zero, within 1 of its argument |
| GammaControllerPy.ClampWord | modules/screen_filter/gamma_controller.py:171-185 | a ramp word is clamped into [0, 65535], unchanged inside |
| GammaControllerPy.EffectiveGamma | modules/screen_filter/gamma_controller.py:149-150 | a gamma below 0.01 is replaced by 0.01, any other is kept |
| GammaControllerPy.CalculateValue | modules/screen_filter/gamma_controller.py:142-161 | _calculate_value is always a word in [0, 65535] |
| GammaControllerPy.LowGammaReplaced | python_src/gamma_controller.py:113-114 | every gamma below 0.01 gives the values of gamma 0.01 |
| GammaControllerPy.Scaled | modules/screen_filter/gamma_controller.py:170-171 | scaling a value by a channel factor and clamping gives a word in [0, 65535] |
| GammaControllerPy.Entry | modules/screen_filter/gamma_controller.py:166-171 | each ramp entry i is a word computed from i / 255 |
| GammaControllerPy.GenerateRamp | modules/screen_filter/gamma_controller.py:163-187 | _generate_ramp fills all 256 entries of the three channels with the entries of the configuration |
| GammaControllerPy.RampShape | python_src/gamma_controller.py:127-151 | every word of the ramp lies in [0, 65535], and channels with equal scales are equal |
| GammaControllerPy.DefaultEntryLinear | modules/screen_filter/gamma_controller.py:189-192 | in exact arithmetic, with the default settings entry i is 257 * i when pow(x, 1) = x |
| GammaControllerPy.DefaultRampLinear | python_src/gamma_controller.py:153-156 | in exact arithmetic, the default ramp that reset_monitors applies is the linear ramp 257 * i on every channel, ending at 65535 |
| GammaControllerPy.GammaController.constructor | modules/screen_filter/gamma_controller.py:64-65 | no device has been given a ramp yet |
| GammaControllerPy.GammaController.ApplyConfig | modules/screen_filter/gamma_controller.py:128-140 | apply_config gives every named device the ramp of the configuration and leaves every other device as it was |
| GammaControllerPy.GammaController.ResetMonitors | modules/screen_filter/gamma_controller.py:189-192 | reset_monitors gives every named device the default ramp and leaves every other device as it was |
| FilterTypes.FirstOutOfRange | src-tauri/src/filter/types.rs:51-55 | no parameter is named exactly when every value lies in [0.5, 2.0]; a named one is the first out of range |
| FilterTypes.Validate | src-tauri/src/filter/types.rs:41-58 | validate succeeds if and only if all six parameters lie in [0.5, 2.0]; an error names an out-of-range parameter |
| FilterTypes.ToWord | src-tauri/src/filter/types.rs:75 | the cast to u16 truncates: a word in [0, 65535] within 1 below its argument |
| FilterTypes.ClampReal | src-tauri/src/filter/types.rs:66-75 | clamp lands in [lo, hi], keeps a value already inside and pins one outside to the nearer bound |
| FilterTypes.CalculateColorValue | src-tauri/src/filter/types.rs:61-76 | calculate_color_value always gives a word in [0, 65535] |
| FilterTypes.NeutralColorValue | src-tauri/src/filter/types.rs:61-76 | in exact arithmetic, under the default configuration entry i is 257·i, the identity ramp, when pow(x, 1) = x |
| FilterTypes.ZeroBrightnessIsBlack | src-tauri/src/filter/types.rs:72-75 | brightness 0 gives 0 for every entry and channel scale |
| FilterTypes.NewPreset | src-tauri/src/filter/types.rs:100-109 | a new custom preset keeps the given id, name and configuration, has no hotkey and is not a default |
| FilterTypes.DefaultCollectionShape | src-tauri/src/filter/types.rs:132-184 | the default collection holds exactly default, daytime and nighttime, each a default preset filed under its own id with a valid configuration |
| FilterTypes.UpsertKeepsHotkeysUnique | src-tauri/src/filter/types.rs:234-253 | upserting a preset whose hotkey passes validate_hotkey keeps hotkeys unique across presets |
| FilterTypes.DefaultHotkeysUnique | src-tauri/src/filter/types.rs:132-184 | no two default presets share a hotkey |
| FilterTypes.PresetCollection.constructor | src-tauri/src/filter/types.rs:132-184 | a new collection holds the default presets with default active |
| FilterTypes.PresetCollection.FromData | src-tauri/src/filter/types.rs:122-129 | a collection read back from its serialised fields holds exactly those fields |
| FilterTypes.PresetCollection.Replace | src-tauri/src/filter/manager.rs:241-252 | replacing the collection installs the given presets and active id |
| FilterTypes.PresetCollection.UpsertPreset | src-tauri/src/filter/types.rs:188-191 | upsert files the preset under its id, replacing any old one, and leaves the active id alone |
| FilterTypes.PresetCollection.DeletePreset | src-tauri/src/filter/types.rs:193-211 | a default preset cannot be deleted, a missing id is an error; otherwise exactly that id goes and an active id pointing at it falls back to default; default presets always survive |
| FilterTypes.PresetCollection.GetPreset | src-tauri/src/filter/types.rs:213-216 | get finds a preset exactly when its id is stored, and returns the stored one |
| FilterTypes.PresetCollection.GetActivePreset | src-tauri/src/filter/types.rs:218-223 | get_active is empty exactly when there is no active id or it names no stored preset |
| FilterTypes.PresetCollection.SetActivePreset | src-tauri/src/filter/types.rs:225-232 | set_active succeeds exactly for a stored id and then makes it active; otherwise nothing changes |
| FilterTypes.PresetCollection.ValidateHotkey | src-tauri/src/filter/types.rs:234-253 | validate_hotkey fails exactly when another preset, not the excluded one, already uses the hotkey, and the message names that preset |
| FilterTypes.DefaultHotkeys | src-tauri/src/filter/types.rs:297-305 | among the defaults F2 is taken, F5 is free, and F2 is free when preset default itself is excluded |
| GammaRampRs.LinearEntry | src-tauri/src/filter/gamma_ramp.rs:36-41 | the default entry i is the word 257·i, within [0, 65535] |
| GammaRampRs.DefaultRamp | src-tauri/src/filter/gamma_ramp.rs:28-46 | the default ramp is linear in all three channels, from 0 to 65535 |
| GammaRampRs.LinearRamp | src-tauri/src/filter/gamma_ramp.rs:28-46 | the linear ramp as a value, the one reset_monitor falls back to |
| GammaRampRs.LinearRampUnique | src-tauri/src/filter/gamma_ramp.rs:28-46 | there is exactly one linear ramp |
| GammaRampRs.FromConfig | src-tauri/src/filter/gamma_ramp.rs:50-64 | from_config fills every entry of each channel with calculate_color_value for that channel's scale |
| GammaRampRs.RampFor | src-tauri/src/filter/gamma_ramp.rs:50-64 | the ramp from_config builds, as a value |
| GammaRampRs.RampForUnique | src-tauri/src/filter/gamma_ramp.rs:50-64 | the entries determine the ramp: any ramp built from the configuration equals it |
| GammaRampRs.RampEntriesAreWords | src-tauri/src/filter/gamma_ramp.rs:50-64 | every entry of a built ramp is a word in [0, 65535] |
| GammaRampRs.DefaultConfigRampIsLinear | src-tauri/src/filter/gamma_ramp.rs:315-320 | in exact arithmetic, the default configuration gives the linear ramp, with red[128] between 30000 and 35000 |
| GammaRampRs.GammaRampController.constructor | src-tauri/src/filter/gamma_ramp.rs:74-81 | a new controller has saved no original ramps |
| GammaRampRs.GammaRampController.SetRamp | src-tauri/src/filter/gamma_ramp.rs:198-232 | set_ramp_for_monitor writes the ramp to a writable device and reports an error for any other, changing nothing |
| GammaRampRs.GammaRampController.ApplyFilterToMonitor | src-tauri/src/filter/gamma_ramp.rs:234-261 | an invalid configuration changes nothing; the device's original ramp is saved once before the first write; an unreadable device is an error |
| GammaRampRs.GammaRampController.SaveAndWrite | src-tauri/src/filter/gamma_ramp.rs:96-117 | one pass of apply_filter's loop: save the original if readable and not yet saved, then write the new ramp |
| GammaRampRs.GammaRampController.WriteAll | src-tauri/src/filter/gamma_ramp.rs:96-117 | after the loop, over any monitor list including one that names a device twice: every writable monitor shows the configuration's ramp and the others keep theirs; saved originals are never overwritten; a newly saved original is the device's earlier ramp, or the new ramp for a device listed twice that could not be read but could be written; failure means some monitor was not writable |
| GammaRampRs.GammaRampController.ApplyFilter | src-tauri/src/filter/gamma_ramp.rs:83-131 | apply_filter rejects an invalid configuration and an empty monitor list, changing nothing; otherwise it succeeds exactly when every monitor is writable, with the ramps and saved originals WriteAll describes, repeated devices included |
| GammaRampRs.RepeatedAdapterSavesNewRamp | src-tauri/src/filter/gamma_ramp.rs:96-117 | an adapter listed twice (two monitors on it) that cannot be read but can be written ends up with the filter's own ramp saved as its original |
| GammaRampRs.GammaRampController.Reset | src-tauri/src/filter/gamma_ramp.rs:133-160 | reset restores every saved original it can write, forgets all saved originals, and succeeds exactly when all were writable |
| GammaRampRs.GammaRampController.ResetMonitor | src-tauri/src/filter/gamma_ramp.rs:263-273 | reset_monitor writes the saved original, or the linear ramp when none was saved |
| FilterManagerRs.Updated | src-tauri/src/filter/manager.rs:124-140 | update_preset changes exactly the supplied fields and keeps the id and the default flag |
| FilterManagerRs.FilterManager.constructor | src-tauri/src/filter/manager.rs:20-41 | new uses the stored collection when the file exists, else the built-in defaults with default active; no ramps are saved yet |
| FilterManagerRs.FilterManager.GetPreset | src-tauri/src/filter/manager.rs:74-80 | get_preset succeeds exactly for a stored id and returns that preset |
| FilterManagerRs.FilterManager.GetActivePreset | src-tauri/src/filter/manager.rs:210-213 | get_active_preset is the collection's active preset |
| FilterManagerRs.FilterManager.CreatePreset | src-tauri/src/filter/manager.rs:83-111 | an invalid configuration or a hotkey already in use is refused with nothing changed; otherwise the preset is stored under "custom_" plus the UUID; hotkeys stay unique |
| FilterManagerRs.FilterManager.UpdatePreset | src-tauri/src/filter/manager.rs:114-147 | an unknown id, an invalid new configuration or a hotkey used by another preset is refused with nothing changed; otherwise the preset is updated in place; hotkeys stay unique |
| FilterManagerRs.FilterManager.DeletePreset | src-tauri/src/filter/manager.rs:150-157 | delete_preset refuses default and unknown presets, otherwise removes exactly that preset and moves the active id back to default if it pointed there |
| FilterManagerRs.FilterManager.RenamePreset | src-tauri/src/filter/manager.rs:160-162 | rename_preset changes only the name of a stored preset and refuses an unknown id |
| FilterManagerRs.FilterManager.ApplyToMonitors | src-tauri/src/filter/manager.rs:180-182 | the per-display loop succeeds only if every display was writable, and then each shows the configuration's ramp; saved originals are never lost |
| FilterManagerRs.FilterManager.ApplyPreset | src-tauri/src/filter/manager.rs:165-190 | an unknown preset or an empty display list changes nothing; on success every display shows the preset's ramp and the preset becomes active; on failure the active id is unchanged |
| FilterManagerRs.FilterManager.ApplyConfig | src-tauri/src/filter/manager.rs:193-207 | apply_config rejects an invalid configuration and an empty display list unchanged; on success every display shows the configuration's ramp |
| FilterManagerRs.FilterManager.ResetFilter | src-tauri/src/filter/manager.rs:216-226 | reset_filter forgets the saved originals, succeeds exactly when all could be restored, and only then clears the active preset |
| FilterManagerRs.FilterManager.ImportPresets | src-tauri/src/filter/manager.rs:236-246 | unparsable JSON is refused with nothing changed; a parsed collection replaces the current one |
| FilterManagerRs.FilterManager.ResetToDefaults | src-tauri/src/filter/manager.rs:249-257 | reset_to_defaults installs the built-in presets with default active |
| FilterManagerRs.FilterManager.CreateThenDelete | src-tauri/src/filter/manager.rs:276-299 | a created preset can be deleted and is then no longer found |
| FilterStateManager.Entries | modules/screen_filter/state_manager.py:182 | config.get("presets", []) is a list of preset dictionaries, empty when the key is absent |
| FilterStateManager.DefaultPresets | modules/screen_filter/state_manager.py:61-116 | the built-in presets are default, daytime and nighttime, all default presets, on F2, F3 and F4, the first with the neutral configuration |
| FilterStateManager.PresetDicts | modules/screen_filter/state_manager.py:214 | each preset becomes its to_dict dictionary, in order |
| FilterStateManager.DefaultConfig | modules/screen_filter/state_manager.py:52-59 | the default settings hold exactly the presets, no selected displays, no last preset and reset_on_close true |
| FilterStateManager.MigrateEntry | modules/screen_filter/state_manager.py:130-135 | a default preset carrying one of the six built-in names is renamed to that name's translation; any other entry is unchanged |
| FilterStateManager.MigrateEntries | modules/screen_filter/state_manager.py:118-137 | migration treats every entry of the list on its own and keeps the list's length |
| FilterStateManager.MigrationOnlyRenames | modules/screen_filter/state_manager.py:118-137 | migration changes no field but the name, and only of migratable entries |
| FilterStateManager.LoadConfig | modules/screen_filter/state_manager.py:38-50 | a missing or unreadable file gives the default settings; a loaded one is kept with its preset list migrated |
| FilterStateManager.NeedsResave | modules/screen_filter/state_manager.py:22-36 | the constructor saves only when a file with a non-empty preset list was loaded |
| FilterStateManager.NoResaveWhenNamesCurrent | modules/screen_filter/state_manager.py:22-36 | when every built-in name already equals its translation, loading writes nothing |
| FilterStateManager.FirstWithId | modules/screen_filter/state_manager.py:186-188 | the position of the first dictionary with the id, or the length when there is none |
| FilterStateManager.FirstWithIdIs | modules/screen_filter/state_manager.py:186-188 | the first match is unique: any position meeting its contract is it |
| FilterStateManager.RemoveId | modules/screen_filter/state_manager.py:205-210 | the filtered list holds exactly the entries whose id differs |
| FilterStateManager.RemoveIdOrder | modules/screen_filter/state_manager.py:205-210 | the comprehension keeps list order: removing from a + b is removing from a, then from b, and one entry is kept iff its id differs |
| FilterStateManager.RemoveIdEntries | modules/screen_filter/state_manager.py:205-210 | each entry with another id is kept as often as it occurs, and none with the id |
| FilterStateManager.DefaultConfigPresets | modules/screen_filter/state_manager.py:52-116 | reading back the default settings' preset list gives the built-in presets |
| FilterStateManager.ConfigManager.constructor | modules/screen_filter/state_manager.py:14-36 | the settings are the loaded ones, written back exactly when migration changed stored names |
| FilterStateManager.ConfigManager.SaveConfig | modules/screen_filter/state_manager.py:139-145 | save_config writes the current settings unchanged |
| FilterStateManager.ConfigManager.GetSelectedMonitors | modules/screen_filter/state_manager.py:149-151 | the stored display list, an empty list when absent |
| FilterStateManager.ConfigManager.SetSelectedMonitors | modules/screen_filter/state_manager.py:153-155 | stores the display list without saving; reading it back gives it |
| FilterStateManager.ConfigManager.GetLastPresetId | modules/screen_filter/state_manager.py:159-161 | the stored last preset id, None when absent |
| FilterStateManager.ConfigManager.SetLastPresetId | modules/screen_filter/state_manager.py:163-165 | stores the id without saving; reading it back gives it |
| FilterStateManager.ConfigManager.GetResetOnClose | modules/screen_filter/state_manager.py:169-171 | the stored flag, true when absent |
| FilterStateManager.ConfigManager.SetResetOnClose | modules/screen_filter/state_manager.py:173-176 | stores the flag and saves; reading it back gives it |
| FilterStateManager.ConfigManager.GetAllPresets | modules/screen_filter/state_manager.py:180-182 | every stored dictionary read back with from_dict, in order |
| FilterStateManager.ConfigManager.GetPresetById | modules/screen_filter/state_manager.py:184-189 | the first preset with the id; None exactly when no entry has it |
| FilterStateManager.ConfigManager.AddPreset | modules/screen_filter/state_manager.py:191-195 | the preset's dictionary is appended to the list, created if absent |
| FilterStateManager.ConfigManager.UpdatePreset | modules/screen_filter/state_manager.py:197-203 | only the first entry with the id is replaced; without one nothing changes |
| FilterStateManager.ConfigManager.DeletePreset | modules/screen_filter/state_manager.py:205-210 | every entry with the id goes and every other stays |
| FilterStateManager.ConfigManager.SetAllPresets | modules/screen_filter/state_manager.py:212-214 | the list is replaced, and get_all_presets then gives the given presets back |
| PresetManagerPy.DefaultPresetsShape | modules/screen_filter/preset_manager.py:65-110 | the built-in list is default, daytime and nighttime, all default presets, on F2, F3 and F4 |
| PresetManagerPy.PresetsIn | modules/screen_filter/preset_manager.py:14-16 | data.get('presets', []) read back with from_dict; a missing list gives none, anything not an object or a malformed entry fails |
| PresetManagerPy.FirstWithId | modules/screen_filter/preset_manager.py:40-45 | the position of the first preset with the id, or the length when there is none |
| PresetManagerPy.FirstWithIdIs | modules/screen_filter/preset_manager.py:40-45 | the first match is unique: any position meeting its contract is it |
| PresetManagerPy.RemoveId | modules/screen_filter/preset_manager.py:60-63 | the filtered list holds exactly the presets whose id differs |
| PresetManagerPy.RemoveIdOrder | modules/screen_filter/preset_manager.py:60-63 | the comprehension keeps list order: removing from a + b is removing from a, then from b, and one preset is kept iff its id differs |
| PresetManagerPy.RemoveIdEntries | modules/screen_filter/preset_manager.py:60-63 | each preset with another id is kept as often as it occurs, and none with the id |
| PresetManagerPy.RemoveAbsentId | modules/screen_filter/preset_manager.py:60-63 | deleting an id no preset has changes nothing |
| PresetManagerPy.RemoveIdIdempotent | modules/screen_filter/preset_manager.py:60-63 | deleting the same id twice is deleting it once |
| PresetManagerPy.PresetManager.constructor | modules/screen_filter/preset_manager.py:6-23 | a missing file gives the built-in presets and saves them; an unreadable or malformed one gives them without saving; otherwise the file's presets |
| PresetManagerPy.PresetManager.SavePresets | modules/screen_filter/preset_manager.py:25-34 | save_presets writes the current list unchanged |
| PresetManagerPy.PresetManager.GetPresetById | modules/screen_filter/preset_manager.py:40-45 | the first preset with the id; None exactly when no preset has it |
| PresetManagerPy.PresetManager.AddPreset | modules/screen_filter/preset_manager.py:47-50 | the preset is appended and the list saved |
| PresetManagerPy.PresetManager.UpdatePreset | modules/screen_filter/preset_manager.py:52-58 | only the first preset with the id is replaced and the list saved; without one nothing changes and nothing is saved |
| PresetManagerPy.PresetManager.DeletePreset | modules/screen_filter/preset_manager.py:60-63 | every preset with the id goes, every other stays, and the list is saved |
| HotkeyRegistry.UpperChar | utils/hotkey_manager.py:127 | upper-casing a character maps a to z onto A to Z and leaves every other character alone |
| HotkeyRegistry.Upper | utils/hotkey_manager.py:127-134 | str.upper() keeps the length, upper-cases each character in place and leaves no lower-case letter |
| HotkeyRegistry.UpperOfUpper | utils/hotkey_manager.py:243-245 | a key already in upper case is its own upper case |
| HotkeyRegistry.UpperIdempotent | utils/hotkey_manager.py:125-133 | normalising a key twice is normalising it once |
| HotkeyRegistry.RegisterKeepsKeysDistinct | utils/hotkey_manager.py:123-140 | registering a key no other binding holds keeps every key bound at most once |
| HotkeyRegistry.RegisteredAfterRegister | utils/hotkey_manager.py:123-140 | after registering, the key counts as registered in any spelling that upper-cases to it |
| HotkeyRegistry.UpdateIgnoresConflicts | utils/hotkey_manager.py:163-183 | update_hotkey_key does not check conflicts: moving a binding onto another's key leaves two bindings on one key |
| HotkeyRegistry.HotkeyManager.constructor | utils/hotkey_manager.py:48-68 | a new manager has no bindings, no assignment in progress and the global context |
| HotkeyRegistry.HotkeyManager.RegisterHotkey | utils/hotkey_manager.py:103-142 | registration succeeds exactly when no other id holds the key in any case, and then binds the id to the upper-cased key with no trigger yet; otherwise nothing changes |
| HotkeyRegistry.HotkeyManager.UnregisterHotkey | utils/hotkey_manager.py:144-161 | unregistering removes the id, and reports whether it was there |
| HotkeyRegistry.HotkeyManager.UpdateHotkeyKey | utils/hotkey_manager.py:163-183 | a known id gets the upper-cased new key and nothing else changes; an unknown id is reported |
| HotkeyRegistry.HotkeyManager.EnterAssignmentMode | utils/hotkey_manager.py:185-217 | assignment mode starts only when none is in progress, recording the requester, conflict check, timeout and start time |
| HotkeyRegistry.HotkeyManager.CancelAssignmentMode | utils/hotkey_manager.py:219-227 | cancelling ends any assignment and reports whether one was in progress |
| HotkeyRegistry.HotkeyManager.SetActiveContext | utils/hotkey_manager.py:229-239 | the context becomes the given one; bindings and assignment are untouched |
| HotkeyRegistry.HotkeyManager.IsHotkeyRegistered | utils/hotkey_manager.py:241-245 | a key is registered exactly when some binding holds it, compared case-insensitively |
| HotkeyRegistry.HotkeyManager.GetHotkeyById | utils/hotkey_manager.py:247-250 | the binding stored under the id, or None |
| HotkeyRegistry.HotkeyManager.GetActiveHotkeys | utils/hotkey_manager.py:350-358 | the active list holds exactly the global bindings and those of the current context, each once |
| HotkeyRegistry.HotkeyManager.Poll | utils/hotkey_manager.py:256-291 | one pass of the loop: during assignment nothing fires; otherwise exactly the active, pressed bindings past their debounce fire and get the current time as last trigger |
| HotkeyRegistry.HotkeyManager.HandleAssignment | utils/hotkey_manager.py:301-348 | a timed-out assignment ends with nothing captured; a key-down without conflict ends it and captures the upper-cased key; otherwise it stays |
| PathManager.Clean | utils/path_manager.py:123 | parsing keeps only real components: no empty piece and no "." |
| PathManager.CleanKeeps | utils/path_manager.py:123 | a list of real components is kept as it is |
| PathManager.Parse | utils/path_manager.py:142-143 | Path(s) gives well-formed components and is absolute exactly when s starts with '/' |
| PathManager.ParseRender | utils/path_manager.py:123-126 | parsing the string of a well-formed path gives the path back |
| PathManager.RelativeTo | utils/path_manager.py:124 | relative_to gives a relative path that app_root joins back to the input, and fails exactly when no relative path does |
| PathManager.ReplaceBackslash | utils/path_manager.py:126 | replacing backslashes leaves none, keeps the length, and changes nothing in a string without them |
| PathManager.GetRelativePath | utils/path_manager.py:112-129 | a path outside app_root comes back unchanged; one inside becomes its relative form with forward slashes only |
| PathManager.GetAbsolutePath | utils/path_manager.py:131-148 | an absolute path comes back unchanged; a relative one is joined onto app_root and is then absolute |
| PathManager.ParseComponent | utils/path_manager.py:47-50 | a single component parses to the one-component relative path |
| PathManager.RenderPlain | utils/path_manager.py:126 | the string of a path without backslashes has none |
| PathManager.RelativeAbsoluteRoundTrip | utils/path_manager.py:112-148 | turning a relative path absolute and back gives it again |
| PathManager.AbsoluteRelativeRoundTrip | utils/path_manager.py:112-148 | turning a path under app_root relative and back gives its normalised form |
| PathManager.ConfigFile | utils/path_manager.py:66-76 | a configuration file is app_root/config/<name> |
| PathManager.FilterConfigPath | utils/path_manager.py:66-68 | the filter settings live at app_root/config/filter_config.json |
| PathManager.MapConfigPath | utils/path_manager.py:70-72 | the map settings live at app_root/config/map_config.json |
| PathManager.GlobalConfigPath | utils/path_manager.py:74-76 | the global settings live at app_root/config/global_config.json |
| PathManager.MapsDirShape | utils/path_manager.py:48-49 | maps_dir is app_root/assets/maps |
| PathManager.MapDirShape | utils/path_manager.py:84-88 | a map's directory is app_root/assets/maps/<map_id> |
| PathManager.ExportsDirShape | utils/path_manager.py:105-108 | the exports directory is app_root/exports |
| PathManager.MapImageShape | utils/path_manager.py:90-101 | a map image path has the components app_root, assets, maps, the map id and the file name |
| PathManager.MapImagePath | utils/path_manager.py:90-101 | a map image is app_root/assets/maps/<map_id>/<file> |
| PathManager.MapImageRelative | utils/path_manager.py:90-129 | the relative form of a map image path is assets/maps/<map_id>/<file> |
| PathManager.MapImageAbsolute | utils/path_manager.py:90-148 | assets/maps/<map_id>/<file> made absolute is the map image path |
| Rounding.RoundHalfEven | modules/local_map/map_resource_cache.py:258-259 | round() gives an integer within one half of its argument, the even one on a tie |
| Rounding.Hundredths | modules/local_map/map_canvas.py:198-201 | round(x, 2), counted in hundredths, lies within half a hundredth of x |
| Digits.DigitRun | modules/local_map/screenshot_parser.py:34 | `\d+` matches greedily: the run it takes is all digits and the next character is not one |
| Digits.DigitRunOf | modules/local_map/screenshot_parser.py:34 | the greedy run over digits followed by a non-digit is exactly those digits |
| Text.Split | utils/i18n.py:69 | str.split(sep) gives at least one piece and no piece holds the separator |
| Text.JoinSplit | utils/i18n.py:69 | joining the pieces of a split gives the string back |
| Text.SplitNoSep | utils/i18n.py:69 | a string without the separator is one piece |
| Text.SplitCons | utils/i18n.py:69 | a separator-free leading piece splits off on its own |
| Text.SplitJoin | utils/i18n.py:69 | splitting a join of separator-free pieces gives the pieces back |
| I18n.DescendNull | utils/i18n.py:71-78 | once the key walk has failed it stays failed |
| I18n.DescendAppend | utils/i18n.py:71-78 | walking a + b is walking a, then b from where a ended |
| I18n.DescendNest | utils/i18n.py:71-78 | a dotted key finds the entry nested along its parts |
| I18n.DottedKey | utils/i18n.py:57-78 | the dotted key made of dot-free parts walks exactly those parts |
| I18n.EmptyTreeFindsNothing | utils/i18n.py:40-55 | with an empty translation tree no key is found |
| I18n.Loaded | utils/i18n.py:40-55 | a missing or unreadable locale file leaves an empty tree; a parsed one is used as it is |
| I18n.I18nManager.constructor | utils/i18n.py:22-33 | a new manager is in zh_CN with that language's tree loaded |
| I18n.I18nManager.LoadTranslations | utils/i18n.py:40-55 | the tree becomes what the file gave, the language stays |
| I18n.I18nManager.SetLanguage | utils/i18n.py:35-38 | the language changes and its file's tree is loaded |
| I18n.I18nManager.T | utils/i18n.py:57-92 | a key that leads nowhere gives "[key]"; without arguments the value found is returned; with arguments a string is formatted, a missing placeholder falls back to the template, a non-string raises and any other format error propagates |

## Left out

- Floating point: all arithmetic is exact. IEEE rounding, NaN and infinities are not modelled, and neither is the float formatting of messages.
- Numerical kernels are parameters and are never computed:
  - numpy's `lstsq` and `solve` are the two functions of `CoordinateTransformSolver.Solvers`;
  - `norm` stands for the residual length np.sqrt(dx² + dy²) of validate_transform (modules/local_map/coordinate_transform.py:319, 324);
  - `math.pow` and `powf` are `pow` and `gammaCorrect`;
  - `sqrt` is kept abstract: inside `norm`, and through squared distances in `_calculate_2d_distance` (below);
  - `exp` and `atan2` (`Rotation.to_yaw`) do not appear.
  Each lemma requires only what its caller relies on, for example pow(x, 1) = x for the linear ramp.
- `_calculate_basic_transform`: building the least-squares system and solving it is the `basic` solver. Its guard and dispatch are modelled.
- `_calculate_2d_distance`: distances are compared squared (`Dist2`). The code only orders distances, and the square root is monotone.
- Printing and logging (`print`, `println!`, `eprintln!`, tracebacks) are dropped. Message texts are kept where a result carries them.
- Files and persistence:
  - a file read is its parsed contents, or a marker for missing or unreadable;
  - a write is recorded as the value written (`written`), or not modelled where nothing reads it back;
  - `load_config`/`save_config` of the map manager, `_serialize_map_config`, the floating-window configuration, `persist_presets` and `export_presets` are not part of this model;
  - JSON type errors in hand-edited files are not modelled beyond the well-typedness the loaders require;
  - ConfigManager.CalibrationPointFromJson keeps the timestamp as text: a string that `datetime.fromisoformat` rejects is accepted, where Python raises.
- FilterManagerRs.FilterManager.CreatePreset: persisting the collection is taken to succeed, so an I/O error after the change is not modelled. The same holds for UpdatePreset, DeletePreset, RenamePreset, ApplyPreset, ResetFilter, ImportPresets and ResetToDefaults.
- FilterManagerRs.FilterManager.ApplyPreset: after a failure part-way through the display list, the displays already written keep the new ramp. The contract states only that the active preset is unchanged.
- FilterManagerRs.FilterManager.ApplyConfig: after a failure part-way through the display list, the displays already written keep the new ramp. The contract states the two refusals and the success case, not the displays written before a failure.
- FilterTypes.Validate: the error is the name of the first parameter out of range. The Rust message around that name ("… 必须在 0.5 到 2.0 之间，当前值: …") is not modelled, and neither is the value printed in Rust's float format.
- GammaRampRs.GammaRampController.WriteAll: each collected error is the device's write error followed by "; ". In the source each error is "显示器 " plus the monitor's display name, then the write error, and the errors are joined with "; " with no trailing separator. Monitors are known here only by device name, so the display name is not modelled.
- FilterManagerRs.FilterManager.constructor: a stored file that fails to parse makes `new` return an error. Only "file present and parsed" and "file missing" are modelled.
- `FilterManager::get_all_presets` and `get_ui_ranges` are not modelled: the first lists a HashMap in unspecified order, the second returns constant display ranges.
- The `Drop` of `GammaRampController` is not modelled.
- GammaRampRs models the `#[cfg(target_os = "windows")]` build only. In the other build, `apply_filter`, `reset`, `apply_filter_to_monitor` and `reset_monitor` always return the error "屏幕滤镜仅支持 Windows 平台" (src-tauri/src/filter/gamma_ramp.rs:273-292).
- Win32 calls and monitor enumeration are not modelled:
  - each display is its current ramp in `deviceRamps`;
  - `writable` is the set of displays whose SetDeviceGammaRamp succeeds;
  - the monitor list is a parameter.
  Python's `apply_config` cannot fail in the model.
- Threads, locks and callbacks are not modelled: the transform cache's lock and its duplicate computation, the hotkey polling thread and callback threads, the LogMonitor file tail, and `Mutex`/`Arc`.
  - HotkeyRegistry.HotkeyManager.Poll is one pass of the detection loop: `keyboard.is_pressed` is `pressed` and `time.time()` is `now`.
  - HotkeyRegistry.HotkeyManager.HandleAssignment is one pass of assignment mode: the event read is `event`, with None for no key-down.
  - Starting, stopping and the polling sleep are not modelled.
- Clocks and randomness are parameters: `datetime.now` is a timestamp string argument, and `uuid4` is `uuid`.
- `get_map_config`, `get_all_maps`, `get_layers_by_region`, `get_region_owner_info` and `get_base_map` of MapConfigManager are lookups over the modelled lists. They are not separate members.
- ConfigManager.TransformFor: `CoordinateTransform.calculate_from_points` is its `fit` argument, with the player position already applied and None for a raised exception. The calibration gate and the exception handling are modelled.
  - TransformCache.TransformCache.GetTransform takes what calculate_transform gave as its `computation` argument.
- Drawing, PIL image filters (`_apply_image_filters`, `_apply_filters`), the image and PhotoImage caches of MapResourceCache, `_get_cached_photo`'s first-level lookup and `_clear_cache`'s reference release are not modelled. The legacy scaled-image cache is modelled by its keys only.
- ConfigManager.MapConfigManager.ValidateHeightInRegion: regions compare as values. In Python, points loaded from JSON are lists and points drawn in the UI are tuples, so two equal regions can compare unequal there.
- Text: upper-casing is ASCII-only (`HotkeyRegistry.Upper`), and `\d` matches ASCII digits only. Python applies both to all of Unicode.
- Paths follow POSIX pure-path rules. Not modelled:
  - Windows drive letters, backslash separators, case-insensitive comparison and the "//" root;
  - `mkdir` and the file copying of `normalize_image_path`;
  - the singleton `__new__` of PathManager, HotkeyManager.__new__ (utils/hotkey_manager.py:42-46) and I18nManager.__new__ (utils/i18n.py:16-20): each model object is built once and passed on;
  - the choice of app_root from `sys.frozen`.
- I18n: `str.format` is the `format` parameter. The module-level `t` shortcut and the locale directory lookup are not modelled.
- Rounding.Hundredths: `round(x, 2)` on a float can differ from rounding x·100 exactly, so only the half-hundredth bound is stated.
- LogParser.RaidInfo has no `end_time`. log_parser.py:120 stamps it on the RaidInfo that parse_line already returned, through the shared object; that aliasing is not modelled.
- ScreenshotParser.Basename splits only at a slash or a backslash. ntpath also splits after a drive colon, so "C:shot.png" has the base name "shot.png" in Python.
- LogParser: a queue time is read by `float()` only on digits and dots. Other float syntaxes such as exponents, signs and whitespace cannot occur after the pattern match and are not modelled.
- The Python and Rust colour computations use different brightness conventions, so no lemma relates them.
- GammaControllerPy.DefaultEntryLinear: the ramp is 257·i only in exact arithmetic. With IEEE doubles, the `int()` truncation (modules/screen_filter/gamma_controller.py:161, python_src/gamma_controller.py:125) can give one less than 257·i for a default-settings entry (at 20 indices, for example 256 at i = 1).
- GammaControllerPy.DefaultRampLinear: for the same reason, the ramp that reset_monitors applies is exactly 257·i only in exact arithmetic.
- FilterTypes.NeutralColorValue: the `as u16` truncation at src-tauri/src/filter/types.rs:75 can likewise put an entry one below 257·i after rounding. Only `GammaRamp::default` (src-tauri/src/filter/gamma_ramp.rs:38) builds the exactly linear ramp.
- GammaRampRs.DefaultConfigRampIsLinear: the source's test promises only a near-linear ramp, 30000 < red[128] < 35000 (gamma_ramp.rs:315-320). The exact 257·i holds in exact arithmetic, not after float rounding.

## Findings

| source | as written | input that shows it | evidently intended | confidence | as-written member | corrected member |
|---|---|---|---|---|---|---|
| modules/local_map/models.py:221-228 | `_segments_intersect` is a staticmethod but calls `self._on_segment`, so it raises NameError whenever the straddle test fails and a cross product is exactly 0 | segments (1,0)-(1,1) and (0,0)-(2,0), a T-junction | a collinear endpoint counts as an intersection when it lies on the other segment | not executed | Geometry.TouchingSegmentsRaise | Geometry.SegmentsIntersectFixed |
| modules/local_map/config_manager.py:394 | `set_layer_region` stores the new region but keeps `region_owner_layer_id`, and `_serialize_layer` writes `region` only for region owners, so the region is lost on save and reload | floor layer 2 that refers to layer 1 gets the triangle (0,0), (10,0), (0,10) | the edited floor becomes the region's owner, so its region survives a reload | not executed | ConfigManager.RegionLossExample | ConfigManager.SetRegionSurvivesReload |
| modules/local_map/config_manager.py:149-177 | `add_calibration_point` never invalidates the transform cache, and the cache key holds no calibration data, so the next lookup serves the transform of the old points | layer 1 of bigmap gets 3 points and is looked up, a 4th point is added, and it is looked up again with a fit that counts the points: the 3-point transform is served | adding a point invalidates the layer's cached transforms | not executed | TransformCache.StaleTransformExample | TransformCache.CalibrateThenLookup |
