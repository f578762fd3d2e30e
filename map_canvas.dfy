/**
 * The view logic of the map canvas widget: the conversion between canvas
 * pixels and map-image pixels, zoom by setter and by mouse wheel, view
 * reset, drag versus click, the marker lists and the legacy per-canvas cache
 * of scaled images. Drawing and image scaling are not part of this model; a
 * counter of renders stands for the calls to _render.
 */
module MapCanvas {
  import opened Wrappers
  import opened Rounding

  /** The loaded image's size in pixels. */
  datatype ImageSize = ImageSize(width: real, height: real)

  /**
   * _map_to_canvas_coords: the image centre sits at the offset and map
   * distances are scaled by the zoom; (0, 0) when no image is loaded.
   */
  function MapToCanvas(image: Option<ImageSize>, zoom: real, offsetX: real, offsetY: real, mapX: real, mapY: real)
    : (c: (real, real))
    ensures image.None? ==> c == (0.0, 0.0)
    ensures image.Some? ==> c.0 - offsetX == (mapX - image.value.width / 2.0) * zoom
    ensures image.Some? ==> c.1 - offsetY == (mapY - image.value.height / 2.0) * zoom
  {
    match image
    case None => (0.0, 0.0)
    case Some(img) => (offsetX + (mapX - img.width / 2.0) * zoom, offsetY + (mapY - img.height / 2.0) * zoom)
  }

  /** The map pixel a canvas pixel shows, whether or not it lies on the image. */
  function Unclipped(img: ImageSize, zoom: real, offsetX: real, offsetY: real, canvasX: real, canvasY: real): (real, real)
    requires zoom > 0.0
  {
    (img.width / 2.0 + (canvasX - offsetX) / zoom, img.height / 2.0 + (canvasY - offsetY) / zoom)
  }

  predicate OnImage(img: ImageSize, p: (real, real))
  {
    0.0 <= p.0 <= img.width && 0.0 <= p.1 <= img.height
  }

  /**
   * _canvas_to_map_coords: the map pixel under a canvas pixel, None when no
   * image is loaded or the pixel lies outside [0, width] x [0, height].
   */
  function CanvasToMap(image: Option<ImageSize>, zoom: real, offsetX: real, offsetY: real, canvasX: real, canvasY: real)
    : (m: Option<(real, real)>)
    requires zoom > 0.0
    ensures m.Some? <==> image.Some? && OnImage(image.value, Unclipped(image.value, zoom, offsetX, offsetY, canvasX, canvasY))
  {
    match image
    case None => None
    case Some(img) =>
      var p := Unclipped(img, zoom, offsetX, offsetY, canvasX, canvasY);
      if OnImage(img, p) then Some(p) else None
  }

  lemma ScaleCancels(a: real, zoom: real)
    requires zoom > 0.0
    ensures a * zoom / zoom == a
    ensures (a / zoom) * zoom == a
  {
  }

  /** A point on the image, drawn on the canvas and read back, is the same map point. */
  lemma MapCanvasRoundTrip(img: ImageSize, zoom: real, offsetX: real, offsetY: real, mapX: real, mapY: real)
    requires zoom > 0.0 && OnImage(img, (mapX, mapY))
    ensures var c := MapToCanvas(Some(img), zoom, offsetX, offsetY, mapX, mapY);
      CanvasToMap(Some(img), zoom, offsetX, offsetY, c.0, c.1) == Some((mapX, mapY))
  {
    var c := MapToCanvas(Some(img), zoom, offsetX, offsetY, mapX, mapY);
    ScaleCancels(mapX - img.width / 2.0, zoom);
    ScaleCancels(mapY - img.height / 2.0, zoom);
    assert c.0 - offsetX == (mapX - img.width / 2.0) * zoom;
    assert c.1 - offsetY == (mapY - img.height / 2.0) * zoom;
    assert (c.0 - offsetX) / zoom == mapX - img.width / 2.0;
    assert (c.1 - offsetY) / zoom == mapY - img.height / 2.0;
    assert Unclipped(img, zoom, offsetX, offsetY, c.0, c.1) == (mapX, mapY);
  }

  /** A canvas pixel that shows a map point is where that map point is drawn. */
  lemma CanvasMapRoundTrip(img: ImageSize, zoom: real, offsetX: real, offsetY: real, canvasX: real, canvasY: real)
    requires zoom > 0.0
    requires CanvasToMap(Some(img), zoom, offsetX, offsetY, canvasX, canvasY).Some?
    ensures var m := CanvasToMap(Some(img), zoom, offsetX, offsetY, canvasX, canvasY).value;
      MapToCanvas(Some(img), zoom, offsetX, offsetY, m.0, m.1) == (canvasX, canvasY)
  {
    var m := CanvasToMap(Some(img), zoom, offsetX, offsetY, canvasX, canvasY).value;
    ScaleCancels(canvasX - offsetX, zoom);
    ScaleCancels(canvasY - offsetY, zoom);
    assert m.0 - img.width / 2.0 == (canvasX - offsetX) / zoom;
    assert m.1 - img.height / 2.0 == (canvasY - offsetY) / zoom;
    assert (m.0 - img.width / 2.0) * zoom == canvasX - offsetX;
    assert (m.1 - img.height / 2.0) * zoom == canvasY - offsetY;
    var c := MapToCanvas(Some(img), zoom, offsetX, offsetY, m.0, m.1);
    assert c.0 == canvasX && c.1 == canvasY;
  }

  const MinZoom: real := 0.1
  const MaxZoom: real := 5.0
  /** Movement beyond this many pixels on either axis turns a press into a drag. */
  const DragThreshold: int := 5
  const PhotoCacheMax: nat := 10

  /** set_zoom's clamp into [min_zoom, max_zoom]. */
  function ClampZoom(z: real): (r: real)
    ensures MinZoom <= r <= MaxZoom
    ensures MinZoom <= z <= MaxZoom ==> r == z
    ensures z < MinZoom ==> r == MinZoom
    ensures z > MaxZoom ==> r == MaxZoom
  {
    if MaxZoom < z then MaxZoom else if z < MinZoom then MinZoom else z
  }

  /** A mouse-wheel event: Linux sends button 4 or 5, other systems a signed delta. */
  datatype WheelEvent = WheelEvent(num: int, delta: int)

  /** The wheel's zoom factor: 1.1 up, 0.9 down, none for an event that is neither. */
  function WheelFactor(e: WheelEvent): (f: Option<real>)
    ensures f.Some? ==> f.value == 1.1 || f.value == 0.9
    ensures f.None? <==> e.num != 4 && e.delta <= 0 && e.num != 5 && e.delta >= 0
  {
    if e.num == 4 || e.delta > 0 then Some(1.1)
    else if e.num == 5 || e.delta < 0 then Some(0.9)
    else None
  }

  /**
   * Zooming about the cursor: with the offset moved to
   * cursor - (cursor - offset) * (newZoom / zoom), the map point under the
   * cursor stays under it.
   */
  lemma ZoomKeepsCursorPoint(img: ImageSize, zoom: real, newZoom: real, offsetX: real, offsetY: real,
                             mouseX: real, mouseY: real)
    requires zoom > 0.0 && newZoom > 0.0
    ensures var ox := mouseX - (mouseX - offsetX) * (newZoom / zoom);
            var oy := mouseY - (mouseY - offsetY) * (newZoom / zoom);
      Unclipped(img, newZoom, ox, oy, mouseX, mouseY) == Unclipped(img, zoom, offsetX, offsetY, mouseX, mouseY)
  {
    var ox := mouseX - (mouseX - offsetX) * (newZoom / zoom);
    var oy := mouseY - (mouseY - offsetY) * (newZoom / zoom);
    AboutCursor(mouseX - offsetX, zoom, newZoom);
    AboutCursor(mouseY - offsetY, zoom, newZoom);
    assert mouseX - ox == (mouseX - offsetX) * (newZoom / zoom);
    assert mouseY - oy == (mouseY - offsetY) * (newZoom / zoom);
    assert (mouseX - ox) / newZoom == (mouseX - offsetX) / zoom;
    assert (mouseY - oy) / newZoom == (mouseY - offsetY) / zoom;
  }

  lemma AboutCursor(d: real, zoom: real, newZoom: real)
    requires zoom > 0.0 && newZoom > 0.0
    ensures (d * (newZoom / zoom)) / newZoom == d / zoom
  {
    var q := d / zoom;
    assert d == q * zoom;
    calc {
      (d * (newZoom / zoom)) / newZoom;
      ((q * zoom) * (newZoom / zoom)) / newZoom;
      { assert (q * zoom) * (newZoom / zoom) == q * newZoom; }
      (q * newZoom) / newZoom;
    }
  }

  /** The key of the legacy scaled-image cache: zoom and the three filter values, each rounded to hundredths. */
  datatype PhotoKey = PhotoKey(zoom: int, brightness: int, contrast: int, gamma: int)

  function PhotoKeyFor(zoom: real, brightness: real, contrast: real, gamma: real): PhotoKey
  {
    PhotoKey(Hundredths(zoom), Hundredths(brightness), Hundredths(contrast), Hundredths(gamma))
  }

  predicate DistinctKeys(s: seq<PhotoKey>)
  {
    forall i, j :: 0 <= i < j < |s| ==> s[i] != s[j]
  }

  /** The map canvas widget's view state. */
  class MapCanvas {
    const canvasWidth: real
    const canvasHeight: real
    var image: Option<ImageSize>
    var currentImagePath: Option<string>
    var zoom: real
    var offsetX: real
    var offsetY: real
    var dragStartX: int
    var dragStartY: int
    var isDragging: bool
    var hasClickCallback: bool
    var calibrationMarkers: seq<(real, real, string)>
    var playerPos: Option<(real, real, real)>
    var regionPoints: seq<(real, real)>
    var regionLines: seq<(real, real)>
    var filterBrightness: real
    var filterContrast: real
    var filterGamma: real
    /** Insertion order of the legacy cache's keys; the scaled images themselves are not modelled. */
    var photoKeys: seq<PhotoKey>
    /** How many times the view has been re-rendered. */
    var renders: nat

    ghost predicate Valid()
      reads this
    {
      && canvasWidth > 0.0 && canvasHeight > 0.0 && zoom > 0.0
      && (image.Some? ==> image.value.width > 0.0 && image.value.height > 0.0)
      && DistinctKeys(photoKeys) && |photoKeys| <= PhotoCacheMax
    }

    constructor (width: real, height: real)
      requires width > 0.0 && height > 0.0
      ensures Valid()
      ensures canvasWidth == width && canvasHeight == height && image.None? && currentImagePath.None?
      ensures zoom == 1.0 && offsetX == 0.0 && offsetY == 0.0 && !isDragging && !hasClickCallback
      ensures calibrationMarkers == [] && playerPos.None? && regionPoints == [] && regionLines == []
      ensures filterBrightness == 0.0 && filterContrast == 0.0 && filterGamma == 1.0
      ensures photoKeys == [] && renders == 0
    {
      canvasWidth, canvasHeight := width, height;
      image, currentImagePath := None, None;
      zoom, offsetX, offsetY := 1.0, 0.0, 0.0;
      dragStartX, dragStartY, isDragging := 0, 0, false;
      hasClickCallback := false;
      calibrationMarkers, playerPos, regionPoints, regionLines := [], None, [], [];
      filterBrightness, filterContrast, filterGamma := 0.0, 0.0, 1.0;
      photoKeys, renders := [], 0;
    }

    /** The fitting zoom of _reset_view: 90% of the smaller of the two canvas-to-image ratios. */
    function FitZoom(img: ImageSize): (z: real)
      reads this
      requires Valid() && img.width > 0.0 && img.height > 0.0
      ensures z > 0.0
      ensures z <= 0.9 * (canvasWidth / img.width) && z <= 0.9 * (canvasHeight / img.height)
      ensures z == 0.9 * (canvasWidth / img.width) || z == 0.9 * (canvasHeight / img.height)
    {
      var zx := canvasWidth / img.width;
      var zy := canvasHeight / img.height;
      (if zx <= zy then zx else zy) * 0.9
    }

    /** _reset_view: fit the image and centre it; nothing happens without an image. */
    method ResetViewState()
      requires Valid()
      modifies this`zoom, this`offsetX, this`offsetY
      ensures Valid()
      ensures image.None? ==> zoom == old(zoom) && offsetX == old(offsetX) && offsetY == old(offsetY)
      ensures image.Some? ==> zoom == FitZoom(image.value) && offsetX == canvasWidth / 2.0 && offsetY == canvasHeight / 2.0
    {
      if image.None? {
        return;
      }
      zoom := FitZoom(image.value);
      offsetX := canvasWidth / 2.0;
      offsetY := canvasHeight / 2.0;
    }

    /** reset_view: _reset_view, then a render. */
    method ResetView()
      requires Valid()
      modifies this`zoom, this`offsetX, this`offsetY, this`renders
      ensures Valid() && renders == old(renders) + 1
      ensures image.None? ==> zoom == old(zoom) && offsetX == old(offsetX) && offsetY == old(offsetY)
      ensures image.Some? ==> zoom == FitZoom(image.value) && offsetX == canvasWidth / 2.0 && offsetY == canvasHeight / 2.0
    {
      ResetViewState();
      renders := renders + 1;
    }

    /**
     * load_map: the legacy cache is dropped when the path changes; `loaded`
     * is what the shared image cache returned for the path. On success the
     * view is reset and rendered.
     */
    method LoadMap(imagePath: string, loaded: Option<ImageSize>) returns (ok: bool)
      requires Valid()
      requires loaded.Some? ==> loaded.value.width > 0.0 && loaded.value.height > 0.0
      modifies this`image, this`currentImagePath, this`photoKeys, this`zoom, this`offsetX, this`offsetY, this`renders
      ensures Valid()
      ensures ok <==> loaded.Some?
      ensures image == loaded && currentImagePath == Some(imagePath)
      ensures photoKeys == if old(currentImagePath).Some? && old(currentImagePath) != Some(imagePath) then [] else old(photoKeys)
      ensures ok ==> zoom == FitZoom(loaded.value) && offsetX == canvasWidth / 2.0 && offsetY == canvasHeight / 2.0
                     && renders == old(renders) + 1
      ensures !ok ==> zoom == old(zoom) && offsetX == old(offsetX) && offsetY == old(offsetY) && renders == old(renders)
    {
      if currentImagePath.Some? && currentImagePath != Some(imagePath) {
        photoKeys := [];
      }
      image := loaded;
      currentImagePath := Some(imagePath);
      if loaded.None? {
        return false;
      }
      ResetView();
      return true;
    }

    /** set_zoom: store the clamped zoom and re-render only when it changed. */
    method SetZoom(z: real)
      requires Valid()
      modifies this`zoom, this`renders
      ensures Valid()
      ensures zoom == ClampZoom(z)
      ensures renders == if ClampZoom(z) != old(zoom) then old(renders) + 1 else old(renders)
    {
      var clamped := ClampZoom(z);
      if clamped != zoom {
        zoom := clamped;
        renders := renders + 1;
      }
    }

    /**
     * _on_mouse_wheel: scale the zoom by the event's factor unless that
     * leaves [min_zoom, max_zoom], keeping the map point under the cursor in
     * place.
     */
    method MouseWheel(mouseX: real, mouseY: real, e: WheelEvent)
      requires Valid()
      modifies this`zoom, this`offsetX, this`offsetY, this`renders
      ensures Valid()
      ensures var f := WheelFactor(e);
        if f.None? || old(zoom) * f.value < MinZoom || old(zoom) * f.value > MaxZoom then
          zoom == old(zoom) && offsetX == old(offsetX) && offsetY == old(offsetY) && renders == old(renders)
        else
          && zoom == old(zoom) * f.value && renders == old(renders) + 1
          && offsetX == mouseX - (mouseX - old(offsetX)) * (zoom / old(zoom))
          && offsetY == mouseY - (mouseY - old(offsetY)) * (zoom / old(zoom))
    {
      var factor := WheelFactor(e);
      if factor.None? {
        return;
      }
      var newZoom := zoom * factor.value;
      if newZoom < MinZoom || newZoom > MaxZoom {
        return;
      }
      var dx := mouseX - offsetX;
      var dy := mouseY - offsetY;
      var ratio := newZoom / zoom;
      offsetX := mouseX - dx * ratio;
      offsetY := mouseY - dy * ratio;
      zoom := newZoom;
      renders := renders + 1;
    }

    /** _on_mouse_down: remember where the press started; it is not a drag yet. */
    method MouseDown(x: int, y: int)
      modifies this`dragStartX, this`dragStartY, this`isDragging
      ensures dragStartX == x && dragStartY == y && !isDragging
    {
      dragStartX, dragStartY, isDragging := x, y, false;
    }

    /**
     * _on_mouse_drag: a move of more than 5 pixels on either axis starts a
     * drag; while dragging, the offset follows the mouse.
     */
    method MouseDrag(x: int, y: int)
      modifies this`dragStartX, this`dragStartY, this`isDragging, this`offsetX, this`offsetY
      ensures isDragging <==> old(isDragging) || Abs(x - old(dragStartX)) > DragThreshold || Abs(y - old(dragStartY)) > DragThreshold
      ensures isDragging ==>
        && offsetX == old(offsetX) + (x - old(dragStartX)) as real && offsetY == old(offsetY) + (y - old(dragStartY)) as real
        && dragStartX == x && dragStartY == y
      ensures !isDragging ==>
        offsetX == old(offsetX) && offsetY == old(offsetY) && dragStartX == old(dragStartX) && dragStartY == old(dragStartY)
    {
      var dx := x - dragStartX;
      var dy := y - dragStartY;
      if Abs(dx) > DragThreshold || Abs(dy) > DragThreshold {
        isDragging := true;
      }
      if isDragging {
        offsetX := offsetX + dx as real;
        offsetY := offsetY + dy as real;
        dragStartX, dragStartY := x, y;
      }
    }

    /**
     * _on_mouse_up: a release that ends no drag is a click, and the callback
     * (when one is set) receives the map point under it, if any. Returns the
     * point passed to the callback.
     */
    method MouseUp(x: int, y: int) returns (clicked: Option<(real, real)>)
      requires Valid()
      modifies this`isDragging
      ensures !isDragging
      ensures clicked.Some? <==>
        !old(isDragging) && hasClickCallback && CanvasToMap(image, zoom, offsetX, offsetY, x as real, y as real).Some?
      ensures clicked.Some? ==> clicked == CanvasToMap(image, zoom, offsetX, offsetY, x as real, y as real)
    {
      clicked := None;
      if !isDragging && hasClickCallback {
        clicked := CanvasToMap(image, zoom, offsetX, offsetY, x as real, y as real);
      }
      isDragging := false;
    }

    /** set_click_callback. */
    method SetClickCallback(present: bool)
      modifies this`hasClickCallback
      ensures hasClickCallback == present
    {
      hasClickCallback := present;
    }

    /** add_calibration_marker. */
    method AddCalibrationMarker(mapX: real, mapY: real, caption: string)
      modifies this`calibrationMarkers
      ensures calibrationMarkers == old(calibrationMarkers) + [(mapX, mapY, caption)]
    {
      calibrationMarkers := calibrationMarkers + [(mapX, mapY, caption)];
    }

    /** clear_calibration_markers. */
    method ClearCalibrationMarkers()
      modifies this`calibrationMarkers
      ensures calibrationMarkers == []
    {
      calibrationMarkers := [];
    }

    /** show_player_position: the marker is replaced. */
    method ShowPlayerPosition(mapX: real, mapY: real, yaw: real)
      modifies this`playerPos
      ensures playerPos == Some((mapX, mapY, yaw))
    {
      playerPos := Some((mapX, mapY, yaw));
    }

    /** clear_player_marker. */
    method ClearPlayerMarker()
      modifies this`playerPos
      ensures playerPos.None?
    {
      playerPos := None;
    }

    /** add_region_point. */
    method AddRegionPoint(mapX: real, mapY: real)
      modifies this`regionPoints
      ensures regionPoints == old(regionPoints) + [(mapX, mapY)]
    {
      regionPoints := regionPoints + [(mapX, mapY)];
    }

    /** draw_region_lines: the outline is replaced by a copy of the given points. */
    method DrawRegionLines(points: seq<(real, real)>)
      modifies this`regionLines
      ensures regionLines == points
    {
      regionLines := points;
    }

    /** clear_region_markers. */
    method ClearRegionMarkers()
      modifies this`regionPoints, this`regionLines
      ensures regionPoints == [] && regionLines == []
    {
      regionPoints, regionLines := [], [];
    }

    /**
     * set_filters: a change of any of the three values stores them, empties
     * the legacy cache and re-renders; the same values change nothing.
     */
    method SetFilters(brightness: real, contrast: real, gamma: real)
      requires Valid()
      modifies this`filterBrightness, this`filterContrast, this`filterGamma, this`photoKeys, this`renders
      ensures Valid()
      ensures filterBrightness == brightness && filterContrast == contrast && filterGamma == gamma
      ensures var changed := old(filterBrightness) != brightness || old(filterContrast) != contrast || old(filterGamma) != gamma;
        && (changed ==> photoKeys == [] && renders == old(renders) + 1)
        && (!changed ==> photoKeys == old(photoKeys) && renders == old(renders))
    {
      if filterBrightness != brightness || filterContrast != contrast || filterGamma != gamma {
        filterBrightness, filterContrast, filterGamma := brightness, contrast, gamma;
        photoKeys := [];
        renders := renders + 1;
      }
    }

    /**
     * _get_cached_photo_legacy's bookkeeping: a key already present is a hit
     * and changes nothing; otherwise, with 10 keys present, the oldest is
     * dropped before the new key is added.
     */
    method CachedPhotoLegacy(z: real) returns (hit: bool)
      requires Valid()
      modifies this`photoKeys
      ensures Valid()
      ensures var key := PhotoKeyFor(z, filterBrightness, filterContrast, filterGamma);
        && (hit <==> key in old(photoKeys))
        && (hit ==> photoKeys == old(photoKeys))
        && (!hit ==> photoKeys == (if |old(photoKeys)| >= PhotoCacheMax then old(photoKeys)[1..] else old(photoKeys)) + [key])
    {
      var key := PhotoKeyFor(z, filterBrightness, filterContrast, filterGamma);
      if key in photoKeys {
        return true;
      }
      if |photoKeys| >= PhotoCacheMax {
        photoKeys := photoKeys[1..];
      }
      photoKeys := photoKeys + [key];
      return false;
    }
  }

  function Abs(n: int): (r: nat)
    ensures r == n || r == -n
  {
    if n < 0 then -n else n
  }
}
