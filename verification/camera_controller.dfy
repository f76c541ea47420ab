/**
 The camera controller of the arcade simulation: it keeps the camera's zoom
 between a floor derived from how the padded map fits the window and a
 configured maximum, and clamps the camera position, one axis at a time,
 so that the visible area stays inside the padded map (or sits on the map
 centre when the visible area is the larger of the two).

 The arcade `Camera2D` is reduced to its position, zoom and projection
 rectangle; the window to its width and height.
 */
module CameraControl {
  import opened Numeric

  /** arcade key codes of the arrow keys. */
  const KeyLeft: int := 65361
  const KeyUp: int := 65362
  const KeyRight: int := 65363
  const KeyDown: int := 65364

  /** The camera section of the configuration. `minAllowedZoom` is MIN_ZOOM. */
  datatype Settings = Settings(padding: real, maxZoom: real, minAllowedZoom: real, zoomFactor: real, panRate: real)

  /** The map rectangle `[0, width] x [0, height]` grown by `padding` on every side. */
  datatype MapBounds = MapBounds(width: real, height: real, padding: real) {
    function Left(): real { -padding }
    function Right(): real { width + padding }
    function Bottom(): real { -padding }
    function Top(): real { height + padding }

    function FullWidth(): (r: real)
      ensures r == Right() - Left()
    {
      width + 2.0 * padding
    }

    function FullHeight(): (r: real)
      ensures r == Top() - Bottom()
    {
      height + 2.0 * padding
    }

    /** The centre of the unpadded map, which is also the centre of the padded one. */
    function CenterX(): (r: real)
      ensures r == (Left() + Right()) / 2.0
    {
      width / 2.0
    }

    function CenterY(): (r: real)
      ensures r == (Bottom() + Top()) / 2.0
    {
      height / 2.0
    }
  }

  /** A left/right/bottom/top rectangle. */
  datatype Rect = Rect(left: real, right: real, bottom: real, top: real) {
    function Width(): real { right - left }
    function Height(): real { top - bottom }
  }

  datatype Camera = Camera(x: real, y: real, zoom: real, projection: Rect)

  datatype Controller = Controller(
    settings: Settings,
    windowWidth: real,
    windowHeight: real,
    camera: Option<Camera>,
    bounds: Option<MapBounds>,
    minZoom: real)

  datatype ZoomError = InvalidZoomDirection

  /** What the controller keeps true between calls. */
  predicate Valid(c: Controller) {
    && c.settings.minAllowedZoom > 0.0
    && c.settings.zoomFactor > 0.0
    && c.settings.maxZoom > 0.0
    && c.minZoom > 0.0
    && (c.camera.Some? ==> c.camera.value.zoom > 0.0)
    && (c.bounds.Some? ==> c.camera.Some? && c.bounds.value.FullWidth() > 0.0 && c.bounds.value.FullHeight() > 0.0)
  }

  /** The zoom lies between the current floor and the configured maximum. */
  predicate ZoomInRange(c: Controller) {
    c.camera.Some? && c.minZoom <= c.camera.value.zoom <= c.settings.maxZoom
  }

  /** `CameraController.__init__`: no camera and no map yet. */
  function NewController(settings: Settings, windowWidth: real, windowHeight: real): (r: Controller)
    ensures r.camera.None? && r.bounds.None?
    ensures r.minZoom == settings.minAllowedZoom
    ensures settings.minAllowedZoom > 0.0 && settings.zoomFactor > 0.0 && settings.maxZoom > 0.0 ==> Valid(r)
  {
    Controller(settings, windowWidth, windowHeight, None, None, settings.minAllowedZoom)
  }

  /** arcade's `Camera2D()` defaults: zoom 1, looking at the window centre,
      projecting the window rectangle around the origin. */
  function DefaultCamera(windowWidth: real, windowHeight: real): Camera {
    Camera(windowWidth / 2.0, windowHeight / 2.0, 1.0,
           Rect(-windowWidth / 2.0, windowWidth / 2.0, -windowHeight / 2.0, windowHeight / 2.0))
  }

  /** The zoom floor for a map: the tighter of the two fitting zooms, never
      below MIN_ZOOM. */
  function ZoomFloor(c: Controller, b: MapBounds): (r: real)
    requires b.FullWidth() != 0.0 && b.FullHeight() != 0.0
    ensures r >= c.settings.minAllowedZoom
    ensures r == c.settings.minAllowedZoom || r == c.windowWidth / b.FullWidth() || r == c.windowHeight / b.FullHeight()
    ensures r >= MinReal(c.windowWidth / b.FullWidth(), c.windowHeight / b.FullHeight())
    ensures r > c.settings.minAllowedZoom ==> r == MinReal(c.windowWidth / b.FullWidth(), c.windowHeight / b.FullHeight())
  {
    MaxReal(MinReal(c.windowWidth / b.FullWidth(), c.windowHeight / b.FullHeight()), c.settings.minAllowedZoom)
  }

  /** `update_min_zoom`: recompute the floor and raise the zoom to it; a no-op
      before a map is set up. */
  function UpdateMinZoom(c: Controller): (r: Controller)
    requires c.bounds.Some? ==> c.camera.Some? && c.bounds.value.FullWidth() != 0.0 && c.bounds.value.FullHeight() != 0.0
    ensures c.bounds.None? ==> r == c
    ensures r.settings == c.settings && r.bounds == c.bounds
    ensures r.windowWidth == c.windowWidth && r.windowHeight == c.windowHeight
    ensures r.camera.Some? <==> c.camera.Some?
    ensures c.bounds.Some? ==> && r.minZoom == ZoomFloor(c, c.bounds.value)
                               && r.camera.value.zoom >= r.minZoom
                               && r.camera.value.zoom >= c.camera.value.zoom
                               && (c.camera.value.zoom >= r.minZoom ==> r.camera.value.zoom == c.camera.value.zoom)
                               && r.camera.value.zoom == MaxReal(r.minZoom, c.camera.value.zoom)
                               && r.camera.value == c.camera.value.(zoom := r.camera.value.zoom)
  {
    match c.bounds
    case None => c
    case Some(b) =>
      var floor := ZoomFloor(c, b);
      var cam := c.camera.value;
      c.(minZoom := floor, camera := Some(cam.(zoom := MaxReal(floor, cam.zoom))))
  }

  /** `center_camera`: look at the map centre. */
  function CenterCamera(c: Controller): (r: Controller)
    requires c.bounds.Some? ==> c.camera.Some?
    ensures c.bounds.None? ==> r == c
    ensures c.bounds.Some? ==> && r.camera.Some?
                               && r.camera.value.x == c.bounds.value.CenterX()
                               && r.camera.value.y == c.bounds.value.CenterY()
                               && r == c.(camera := Some(c.camera.value.(x := r.camera.value.x, y := r.camera.value.y)))
  {
    match c.bounds
    case None => c
    case Some(b) => c.(camera := Some(c.camera.value.(x := b.CenterX(), y := b.CenterY())))
  }

  /** `setup`: a default camera, the padded map, its zoom floor, and the
      camera looking at the map centre. */
  function Setup(c: Controller, mapWidth: real, mapHeight: real): (r: Controller)
    requires mapWidth + 2.0 * c.settings.padding != 0.0 && mapHeight + 2.0 * c.settings.padding != 0.0
    ensures r.bounds == Some(MapBounds(mapWidth, mapHeight, c.settings.padding))
    ensures r.camera.Some?
    ensures r.camera.value.x == mapWidth / 2.0 && r.camera.value.y == mapHeight / 2.0
    ensures r.minZoom == ZoomFloor(c, r.bounds.value)
    ensures r.camera.value.zoom == MaxReal(r.minZoom, 1.0)
    ensures r.camera.value.projection == DefaultCamera(c.windowWidth, c.windowHeight).projection
    ensures r.settings == c.settings && r.windowWidth == c.windowWidth && r.windowHeight == c.windowHeight
  {
    var b := MapBounds(mapWidth, mapHeight, c.settings.padding);
    var c1 := c.(camera := Some(DefaultCamera(c.windowWidth, c.windowHeight)), bounds := Some(b));
    CenterCamera(UpdateMinZoom(c1))
  }

  /** `setup` on a valid controller with a map of positive padded size
      leaves a valid controller whose zoom is at least the floor. */
  lemma SetupValid(c: Controller, mapWidth: real, mapHeight: real)
    requires Valid(c)
    requires mapWidth + 2.0 * c.settings.padding > 0.0 && mapHeight + 2.0 * c.settings.padding > 0.0
    ensures Valid(Setup(c, mapWidth, mapHeight))
    ensures Setup(c, mapWidth, mapHeight).camera.value.zoom >= Setup(c, mapWidth, mapHeight).minZoom
  {
  }

  /** For a 3000 x 3000 map, padding 20 and an 800 x 600 window, the floor is
      600 / 3040, the height being the tighter axis. */
  lemma SetupExampleFloor()
    ensures var c := NewController(Settings(20.0, 4.0, 0.1, 1.2, 300.0), 800.0, 600.0);
            Setup(c, 3000.0, 3000.0).minZoom == 600.0 / 3040.0
  {
    var c := NewController(Settings(20.0, 4.0, 0.1, 1.2, 300.0), 800.0, 600.0);
    var b := MapBounds(3000.0, 3000.0, 20.0);
    assert b.FullWidth() == 3040.0 && b.FullHeight() == 3040.0;
    assert ZoomFloor(c, b) == 600.0 / 3040.0;
  }

  /** Python's `arg or current`: a missing argument and an explicit 0 both
      fall back to the current coordinate. */
  function ArgOrCurrent(arg: Option<real>, current: real): (r: real)
    ensures arg.Some? && arg.value != 0.0 ==> r == arg.value
    ensures arg.None? || arg.value == 0.0 ==> r == current
  {
    if arg.Some? && arg.value != 0.0 then arg.value else current
  }

  /** One axis of `clamp_position`: the map centre when the visible extent is
      larger than the padded map, otherwise the coordinate pulled into the
      range that keeps the visible extent inside `[lo, hi]`. */
  function ClampAxis(v: real, lo: real, hi: real, visible: real, center: real): (r: real)
    ensures visible > hi - lo ==> r == center
    ensures visible <= hi - lo ==> lo + visible / 2.0 <= r <= hi - visible / 2.0
    ensures visible <= hi - lo && lo + visible / 2.0 <= v <= hi - visible / 2.0 ==> r == v
    ensures visible <= hi - lo && v < lo + visible / 2.0 ==> r == lo + visible / 2.0
    ensures visible <= hi - lo && v > hi - visible / 2.0 ==> r == hi - visible / 2.0
  {
    if visible > hi - lo then center else ClampReal(lo + visible / 2.0, hi - visible / 2.0, v)
  }

  /** The coordinate a clamped camera may sit at on one axis. */
  predicate AxisClamped(v: real, lo: real, hi: real, visible: real, center: real) {
    if visible > hi - lo then v == center else lo + visible / 2.0 <= v <= hi - visible / 2.0
  }

  /** The camera shows only the padded map (or sits on its centre). */
  predicate Clamped(c: Controller)
    requires c.camera.Some? && c.bounds.Some?
  {
    var b := c.bounds.value;
    var cam := c.camera.value;
    && AxisClamped(cam.x, b.Left(), b.Right(), cam.projection.Width(), b.CenterX())
    && AxisClamped(cam.y, b.Bottom(), b.Top(), cam.projection.Height(), b.CenterY())
  }

  /** `clamp_position(x, y)`: clamp each axis of the given (or current)
      coordinates and move the camera there; without a map nothing moves. */
  function ClampPosition(c: Controller, x: Option<real>, y: Option<real>): (r: Controller)
    requires c.camera.Some?
    ensures r.camera.Some?
    ensures r == c.(camera := Some(c.camera.value.(x := r.camera.value.x, y := r.camera.value.y)))
    ensures c.bounds.None? ==> r == c
    ensures c.bounds.Some? ==> Clamped(r)
    ensures c.bounds.Some? ==>
              var b := c.bounds.value;
              var proj := c.camera.value.projection;
              && r.camera.value.x == ClampAxis(ArgOrCurrent(x, c.camera.value.x), b.Left(), b.Right(), proj.Width(), b.CenterX())
              && r.camera.value.y == ClampAxis(ArgOrCurrent(y, c.camera.value.y), b.Bottom(), b.Top(), proj.Height(), b.CenterY())
    ensures c.bounds.Some? ==>
              var b := c.bounds.value;
              var proj := c.camera.value.projection;
              && (proj.Width() > b.FullWidth() ==> r.camera.value.x == b.CenterX())
              && (proj.Height() > b.FullHeight() ==> r.camera.value.y == b.CenterY())
              && (var x0 := ArgOrCurrent(x, c.camera.value.x);
                  AxisClamped(x0, b.Left(), b.Right(), proj.Width(), b.CenterX()) ==> r.camera.value.x == x0)
              && (var y0 := ArgOrCurrent(y, c.camera.value.y);
                  AxisClamped(y0, b.Bottom(), b.Top(), proj.Height(), b.CenterY()) ==> r.camera.value.y == y0)
  {
    var cam := c.camera.value;
    var x0 := ArgOrCurrent(x, cam.x);
    var y0 := ArgOrCurrent(y, cam.y);
    match c.bounds
    case None => c
    case Some(b) =>
      var nx := ClampAxis(x0, b.Left(), b.Right(), cam.projection.Width(), b.CenterX());
      var ny := ClampAxis(y0, b.Bottom(), b.Top(), cam.projection.Height(), b.CenterY());
      c.(camera := Some(cam.(x := nx, y := ny)))
  }

  /** Clamping again, with no intervening change, changes nothing. */
  lemma ClampPositionIdempotent(c: Controller, x: Option<real>, y: Option<real>)
    requires c.camera.Some?
    ensures ClampPosition(ClampPosition(c, x, y), None, None) == ClampPosition(c, x, y)
  {
  }

  /** An explicit coordinate of exactly 0 is taken for a missing one. */
  lemma ClampPositionZeroIsMissing(c: Controller, y: Option<real>)
    requires c.camera.Some?
    ensures ClampPosition(c, Some(0.0), y) == ClampPosition(c, None, y)
  {
  }

  /** The projection `handle_resize` installs: a window of the given size,
      seen at `zoom`, centred on the origin. */
  function ResizedProjection(width: real, height: real, zoom: real): (r: Rect)
    requires zoom > 0.0
    ensures r.Width() == width / zoom && r.Height() == height / zoom
    ensures r.left == -r.right && r.bottom == -r.top
  {
    var hw := width / 2.0 / zoom;
    var hh := height / 2.0 / zoom;
    HalvesAdd(width, zoom);
    HalvesAdd(height, zoom);
    Rect(-hw, hw, -hh, hh)
  }

  lemma HalvesAdd(w: real, z: real)
    requires z > 0.0
    ensures w / 2.0 / z + w / 2.0 / z == w / z
  {
    var h := w / 2.0;
    assert h / z + h / z == (h + h) / z;
  }

  /** `handle_resize`: the window already has its new size when this runs
      (the window's own resize handler updates it first), so the floor is
      recomputed for that size; then the new window size is projected at the
      resulting zoom around the origin, and the position re-clamped. */
  function HandleResize(c: Controller, width: real, height: real): (r: Controller)
    requires Valid(c) && c.camera.Some?
    ensures r.camera.Some? && r.bounds == c.bounds && r.settings == c.settings
    ensures r.windowWidth == width && r.windowHeight == height
    ensures c.bounds.None? ==> r.minZoom == c.minZoom && r.camera.value.zoom == c.camera.value.zoom
    ensures c.bounds.Some? ==>
              var b := c.bounds.value;
              var fit := MinReal(width / b.FullWidth(), height / b.FullHeight());
              && r.minZoom >= c.settings.minAllowedZoom && r.minZoom >= fit
              && (r.minZoom == c.settings.minAllowedZoom || r.minZoom == fit)
              && r.camera.value.zoom >= r.minZoom
              && r.camera.value.zoom >= c.camera.value.zoom
              && (c.camera.value.zoom >= r.minZoom ==> r.camera.value.zoom == c.camera.value.zoom)
              && r.camera.value.zoom == MaxReal(r.minZoom, c.camera.value.zoom)
    ensures r == ClampPosition(r.(camera := Some(r.camera.value.(x := c.camera.value.x, y := c.camera.value.y))), None, None)
    ensures r.camera.value.projection.Width() == width / r.camera.value.zoom
    ensures r.camera.value.projection.Height() == height / r.camera.value.zoom
    ensures r.camera.value.projection.left == -r.camera.value.projection.right
    ensures r.camera.value.projection.bottom == -r.camera.value.projection.top
    ensures c.bounds.Some? ==> Clamped(r)
  {
    var c1 := UpdateMinZoom(c.(windowWidth := width, windowHeight := height));
    var cam := c1.camera.value;
    var c2 := c1.(camera := Some(cam.(projection := ResizedProjection(width, height, cam.zoom))));
    ClampPosition(c2, None, None)
  }

  /** Resizing an 800 x 600 window to 1600 x 1200 over a 3000 x 3000 map with
      padding 20 raises the floor from 600 / 3040 to 1200 / 3040. */
  lemma ResizeRaisesFloor()
    ensures var c := Setup(NewController(Settings(20.0, 4.0, 0.1, 1.2, 300.0), 800.0, 600.0), 3000.0, 3000.0);
            && c.minZoom == 600.0 / 3040.0
            && HandleResize(c, 1600.0, 1200.0).minZoom == 1200.0 / 3040.0
  {
    var c0 := NewController(Settings(20.0, 4.0, 0.1, 1.2, 300.0), 800.0, 600.0);
    SetupExampleFloor();
    var c := Setup(c0, 3000.0, 3000.0);
    var b := MapBounds(3000.0, 3000.0, 20.0);
    assert b.FullWidth() == 3040.0 && b.FullHeight() == 3040.0;
    assert ZoomFloor(c.(windowWidth := 1600.0, windowHeight := 1200.0), b) == 1200.0 / 3040.0;
  }

  /** `apply_zoom`: "in" multiplies the zoom by the factor up to the maximum,
      "out" divides it down to the floor, anything else is an error; the
      position is then re-clamped and the projection left as it was. */
  function ApplyZoom(c: Controller, direction: string): (r: Result<Controller, ZoomError>)
    requires Valid(c)
    requires direction == "in" || direction == "out" ==> c.camera.Some?
    ensures direction != "in" && direction != "out" <==> r == Err(InvalidZoomDirection)
    ensures r.Ok? ==> && r.value.camera.Some?
                      && r.value.settings == c.settings && r.value.bounds == c.bounds
                      && r.value.minZoom == c.minZoom
                      && r.value.camera.value.projection == c.camera.value.projection
    ensures direction == "in" ==> r.Ok? && r.value.camera.value.zoom == MinReal(c.camera.value.zoom * c.settings.zoomFactor, c.settings.maxZoom)
    ensures direction == "out" ==> r.Ok? && r.value.camera.value.zoom == MaxReal(c.camera.value.zoom / c.settings.zoomFactor, c.minZoom)
    ensures r.Ok? && c.bounds.Some? ==> Clamped(r.value)
    ensures r.Ok? ==> Valid(r.value)
    ensures r.Ok? ==> r.value == ClampPosition(c.(camera := Some(c.camera.value.(zoom := r.value.camera.value.zoom))), None, None)
    ensures r.Ok? && c.bounds.Some? && Clamped(c) ==>
              r.value.camera.value.x == c.camera.value.x && r.value.camera.value.y == c.camera.value.y
  {
    if direction == "in" then
      var cam := c.camera.value;
      var zoomed := c.(camera := Some(cam.(zoom := MinReal(cam.zoom * c.settings.zoomFactor, c.settings.maxZoom))));
      Ok(ClampPosition(zoomed, None, None))
    else if direction == "out" then
      var cam := c.camera.value;
      var zoomed := c.(camera := Some(cam.(zoom := MaxReal(cam.zoom / c.settings.zoomFactor, c.minZoom))));
      Ok(ClampPosition(zoomed, None, None))
    else
      Err(InvalidZoomDirection)
  }

  /** With a factor of at least 1 and a floor below the maximum, zooming in or
      out keeps the zoom inside [floor, maximum]. */
  lemma ApplyZoomKeepsRange(c: Controller, direction: string)
    requires Valid(c) && ZoomInRange(c)
    requires c.settings.zoomFactor >= 1.0 && c.minZoom <= c.settings.maxZoom
    requires direction == "in" || direction == "out"
    ensures ZoomInRange(ApplyZoom(c, direction).value)
  {
    var z := c.camera.value.zoom;
    var f := c.settings.zoomFactor;
    if direction == "in" {
      MulMonotone(z, 1.0, f);
      var zf := z * f;
      assert c.minZoom <= zf;
      assert ApplyZoom(c, direction).value.camera.value.zoom == MinReal(zf, c.settings.maxZoom);
    } else {
      DivideByAtLeastOne(z, f);
    }
  }

  /** Zooming out at the floor leaves the zoom at the floor. */
  lemma ZoomOutAtFloorIsNoOp(c: Controller)
    requires Valid(c) && c.camera.Some? && c.camera.value.zoom == c.minZoom
    requires c.settings.zoomFactor >= 1.0
    ensures ApplyZoom(c, "out").value.camera.value.zoom == c.minZoom
  {
    DivideByAtLeastOne(c.minZoom, c.settings.zoomFactor);
  }

  /** `handle_drag`: move against the screen-space drag, scaled to world
      units by the zoom, then clamp. */
  function HandleDrag(c: Controller, dx: real, dy: real): (r: Controller)
    requires Valid(c) && c.camera.Some?
    ensures r.camera.Some?
    ensures r == c.(camera := Some(c.camera.value.(x := r.camera.value.x, y := r.camera.value.y)))
    ensures r == ClampPosition(c, Some(c.camera.value.x - dx / c.camera.value.zoom), Some(c.camera.value.y - dy / c.camera.value.zoom))
    ensures c.bounds.Some? ==> Clamped(r)
    ensures Valid(r)
  {
    var cam := c.camera.value;
    ClampPosition(c, Some(cam.x - dx / cam.zoom), Some(cam.y - dy / cam.zoom))
  }

  /** A drag that lands inside the clamp window, on non-zero coordinates,
      is undone by the opposite drag. */
  lemma DragThenReverseDrag(c: Controller, dx: real, dy: real)
    requires Valid(c) && c.camera.Some? && c.bounds.Some? && Clamped(c)
    requires c.camera.value.x != 0.0 && c.camera.value.y != 0.0
    requires var cam := c.camera.value;
             var b := c.bounds.value;
             && cam.x - dx / cam.zoom != 0.0 && cam.y - dy / cam.zoom != 0.0
             && AxisClamped(cam.x - dx / cam.zoom, b.Left(), b.Right(), cam.projection.Width(), b.CenterX())
             && AxisClamped(cam.y - dy / cam.zoom, b.Bottom(), b.Top(), cam.projection.Height(), b.CenterY())
    ensures HandleDrag(HandleDrag(c, dx, dy), -dx, -dy) == c
  {
    var cam := c.camera.value;
    var x1 := cam.x - dx / cam.zoom;
    var y1 := cam.y - dy / cam.zoom;
    var c1 := HandleDrag(c, dx, dy);
    assert c1.camera.value.x == x1 && c1.camera.value.y == y1;
    assert x1 - (-dx) / cam.zoom == cam.x;
    assert y1 - (-dy) / cam.zoom == cam.y;
    var c2 := HandleDrag(c1, -dx, -dy);
    assert c2 == ClampPosition(c1, Some(cam.x), Some(cam.y));
    assert c2.camera.value.x == cam.x && c2.camera.value.y == cam.y;
  }

  /** The position change the held arrow keys ask for: each key adds or
      subtracts `pan_rate * dt` on its axis. The ensures is this definition,
      stated per key; what follows from it is in `OppositeKeysCancel`. */
  function PanDelta(keys: set<int>, panRate: real, dt: real): (r: (real, real))
    ensures var step := panRate * dt;
            && r.0 == (if KeyRight in keys then step else 0.0) - (if KeyLeft in keys then step else 0.0)
            && r.1 == (if KeyUp in keys then step else 0.0) - (if KeyDown in keys then step else 0.0)
  {
    var step := panRate * dt;
    var dx := 0.0;
    var dx := if KeyLeft in keys then dx - step else dx;
    var dx := if KeyRight in keys then dx + step else dx;
    var dy := 0.0;
    var dy := if KeyUp in keys then dy + step else dy;
    var dy := if KeyDown in keys then dy - step else dy;
    (dx, dy)
  }

  /** `update_panning`: apply the key delta and clamp, unless the delta is
      zero, in which case nothing happens at all. */
  function UpdatePanning(c: Controller, keys: set<int>, dt: real): (r: Controller)
    requires c.camera.Some? || PanDelta(keys, c.settings.panRate, dt) == (0.0, 0.0)
    ensures c.camera.Some? ==> r.camera.Some?
    ensures Valid(c) ==> Valid(r)
    ensures PanDelta(keys, c.settings.panRate, dt) == (0.0, 0.0) ==> r == c
    ensures PanDelta(keys, c.settings.panRate, dt) != (0.0, 0.0) ==>
              var d := PanDelta(keys, c.settings.panRate, dt);
              r == ClampPosition(c, Some(c.camera.value.x + d.0), Some(c.camera.value.y + d.1))
  {
    var d := PanDelta(keys, c.settings.panRate, dt);
    if d.0 != 0.0 || d.1 != 0.0 then
      var cam := c.camera.value;
      ClampPosition(c, Some(cam.x + d.0), Some(cam.y + d.1))
    else
      c
  }

  /** Holding both keys of an axis cancels them: with only opposite pairs
      held the camera stays where it is, unclamped. */
  lemma OppositeKeysCancel(c: Controller, keys: set<int>, dt: real)
    requires (KeyLeft in keys <==> KeyRight in keys) && (KeyUp in keys <==> KeyDown in keys)
    ensures UpdatePanning(c, keys, dt) == c
  {
  }

  /** Every camera operation keeps the controller valid. */
  lemma OperationsPreserveValid(c: Controller, dx: real, dy: real, keys: set<int>, dt: real, width: real, height: real)
    requires Valid(c) && c.camera.Some?
    ensures Valid(UpdateMinZoom(c))
    ensures Valid(CenterCamera(c))
    ensures Valid(ClampPosition(c, Some(dx), Some(dy)))
    ensures Valid(HandleDrag(c, dx, dy))
    ensures Valid(UpdatePanning(c, keys, dt))
    ensures Valid(HandleResize(c, width, height))
    ensures Valid(ApplyZoom(c, "in").value) && Valid(ApplyZoom(c, "out").value)
  {
  }
}
