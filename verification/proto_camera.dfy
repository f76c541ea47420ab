/**
 The prototype's own camera: a zoom factor and the world position at the
 centre of the screen, zoomed in steps of 10% between 0.25 and 4, dragged
 with the mouse or panned with the keyboard, and clamped so that the view
 never shows more empty space than it must.
 */
module ProtoCamera {
  import opened Numeric
  import opened ProtoWorld

  const MinZoom: real := 0.25
  const MaxZoom: real := 4.0

  /** `1 + ZOOM_SPEED`, the factor of one zoom step. */
  const ZoomStep: real := 1.1

  /** `PAN_SPEED`, in world units per second at zoom 1. */
  const PanSpeed: real := 6000.0

  /** A mouse position in screen pixels. */
  datatype ScreenPoint = ScreenPoint(x: int, y: int)

  datatype Camera = Camera(
    screenWidth: real,
    screenHeight: real,
    zoom: real,
    x: real,                          // world position at the screen centre
    y: real,
    dragging: bool,
    dragStart: Option<ScreenPoint>,
    dragLast: Option<ScreenPoint>)

  /** What every operation needs: a positive zoom, and a last drag position
      whenever a drag is in progress. */
  predicate Valid(c: Camera) {
    c.zoom > 0.0 && (c.dragging ==> c.dragLast.Some?)
  }

  predicate ZoomInRange(c: Camera) {
    MinZoom <= c.zoom <= MaxZoom
  }

  /** `Camera.__init__`: zoom 1, centred on the world, not dragging. */
  function NewCamera(screenWidth: real, screenHeight: real): (r: Camera)
    ensures Valid(r) && ZoomInRange(r) && !r.dragging
    ensures r.x == WorldWidth / 2.0 && r.y == WorldHeight / 2.0 && r.zoom == 1.0
  {
    Camera(screenWidth, screenHeight, 1.0, 1200.0, 900.0, false, None, None)
  }

  /** Python's `int()` on a float: truncation toward zero. */
  function Truncate(v: real): (r: int)
    ensures 0.0 <= v ==> r as real <= v < r as real + 1.0
    ensures v < 0.0 ==> r as real - 1.0 < v <= r as real
  {
    if v >= 0.0 then v.Floor else -((-v).Floor)
  }

  /** Truncating a whole number gives it back. */
  lemma TruncateWhole(n: int)
    ensures Truncate(n as real) == n
  {
    if n < 0 {
      assert -(n as real) == (-n) as real;
    }
  }

  /** The world coordinate at the screen's left (or bottom) edge. */
  function Offset(centre: real, screen: real, zoom: real): real
    requires zoom > 0.0
  {
    centre - screen / (2.0 * zoom)
  }

  /** The exact, unrounded screen coordinate of a world coordinate on one axis. */
  function ScreenCoord(v: real, centre: real, screen: real, zoom: real): real
    requires zoom > 0.0
  {
    (v - Offset(centre, screen, zoom)) * zoom
  }

  /** `world_to_screen`, truncating to whole pixels. The pixel lies within
      one pixel of the exact screen position, so mapping it back lands less
      than 1/zoom world units from the point on each axis; the camera's own
      position maps to the screen centre. */
  function WorldToScreen(c: Camera, w: Pos): (r: ScreenPoint)
    requires c.zoom > 0.0
    ensures r.x == Truncate(ScreenCoord(w.x, c.x, c.screenWidth, c.zoom))
    ensures r.y == Truncate(ScreenCoord(w.y, c.y, c.screenHeight, c.zoom))
    ensures var back := ScreenToWorld(c, r);
            && -1.0 / c.zoom < back.x - w.x < 1.0 / c.zoom
            && -1.0 / c.zoom < back.y - w.y < 1.0 / c.zoom
    ensures w == Pos(c.x, c.y) ==> r == ScreenPoint(Truncate(c.screenWidth / 2.0), Truncate(c.screenHeight / 2.0))
  {
    var sx := ScreenCoord(w.x, c.x, c.screenWidth, c.zoom);
    var sy := ScreenCoord(w.y, c.y, c.screenHeight, c.zoom);
    var r := ScreenPoint(Truncate(sx), Truncate(sy));
    CentredForm(r.x as real, c.x, c.screenWidth, c.zoom);
    CentredForm(r.y as real, c.y, c.screenHeight, c.zoom);
    AxisRoundTripError(sx, r.x, c.zoom, Offset(c.x, c.screenWidth, c.zoom), w.x);
    AxisRoundTripError(sy, r.y, c.zoom, Offset(c.y, c.screenHeight, c.zoom), w.y);
    CentreCoord(c.x, c.screenWidth, c.zoom);
    CentreCoord(c.y, c.screenHeight, c.zoom);
    r
  }

  /** The camera's centre coordinate sits half a screen from the edge. */
  lemma CentreCoord(centre: real, screen: real, zoom: real)
    requires zoom > 0.0
    ensures ScreenCoord(centre, centre, screen, zoom) == screen / 2.0
  {
    assert centre - Offset(centre, screen, zoom) == screen / (2.0 * zoom);
    assert (screen / (2.0 * zoom)) * zoom == screen / 2.0;
  }

  /** `screen_to_world`. */
  function ScreenToWorld(c: Camera, s: ScreenPoint): (r: Pos)
    requires c.zoom > 0.0
    ensures r.x == c.x + (s.x as real - c.screenWidth / 2.0) / c.zoom
    ensures r.y == c.y + (s.y as real - c.screenHeight / 2.0) / c.zoom
  {
    var wx := s.x as real / c.zoom + Offset(c.x, c.screenWidth, c.zoom);
    var wy := s.y as real / c.zoom + Offset(c.y, c.screenHeight, c.zoom);
    CentredForm(s.x as real, c.x, c.screenWidth, c.zoom);
    CentredForm(s.y as real, c.y, c.screenHeight, c.zoom);
    Pos(wx, wy)
  }

  lemma CentredForm(s: real, centre: real, screen: real, zoom: real)
    requires zoom > 0.0
    ensures s / zoom + Offset(centre, screen, zoom) == centre + (s - screen / 2.0) / zoom
  {
    assert screen / (2.0 * zoom) == (screen / 2.0) / zoom;
    assert s / zoom - (screen / 2.0) / zoom == (s - screen / 2.0) / zoom;
  }

  /** Scaling a quotient back by its divisor. */
  lemma DivMulCancel(a: real, z: real)
    requires z != 0.0
    ensures (a / z) * z == a
  {
  }

  /** A screen pixel mapped into the world and back lands on the same pixel:
      both directions use the same offset, and the pixel is whole. */
  lemma ScreenWorldRoundTrip(c: Camera, s: ScreenPoint)
    requires c.zoom > 0.0
    ensures WorldToScreen(c, ScreenToWorld(c, s)) == s
  {
    var ox := Offset(c.x, c.screenWidth, c.zoom);
    var oy := Offset(c.y, c.screenHeight, c.zoom);
    var w := Pos(s.x as real / c.zoom + ox, s.y as real / c.zoom + oy);
    assert ScreenToWorld(c, s) == w;
    DivMulCancel(s.x as real, c.zoom);
    DivMulCancel(s.y as real, c.zoom);
    assert ScreenCoord(w.x, c.x, c.screenWidth, c.zoom) == s.x as real;
    assert ScreenCoord(w.y, c.y, c.screenHeight, c.zoom) == s.y as real;
    TruncateWhole(s.x);
    TruncateWhole(s.y);
  }

  /** A world point mapped to a pixel and back moves by less than one
      pixel's worth of world units on each axis. */
  lemma WorldScreenRoundTripError(c: Camera, w: Pos)
    requires c.zoom > 0.0
    ensures var back := ScreenToWorld(c, WorldToScreen(c, w));
            && -1.0 / c.zoom < back.x - w.x < 1.0 / c.zoom
            && -1.0 / c.zoom < back.y - w.y < 1.0 / c.zoom
  {
  }

  /** One axis of `WorldScreenRoundTripError`, as plain arithmetic: `sx` is
      the exact screen coordinate, `t` its truncation and `o` the offset. */
  lemma AxisRoundTripError(sx: real, t: int, z: real, o: real, w: real)
    requires z > 0.0 && sx == (w - o) * z && t == Truncate(sx)
    ensures -1.0 / z < t as real / z + o - w < 1.0 / z
  {
    var e := t as real - sx;
    assert -1.0 < e < 1.0;
    assert sx / z == w - o;
    assert t as real / z == sx / z + e / z;
    assert e / z < 1.0 / z by { DivStrictMonotone(e, 1.0, z); }
    assert -1.0 / z < e / z by { DivStrictMonotone(-1.0, e, z); }
  }

  lemma DivStrictMonotone(a: real, b: real, z: real)
    requires a < b && z > 0.0
    ensures a / z < b / z
  {
    assert b / z - a / z == (b - a) / z;
  }

  /** The zoom after one step: up by 10% capped at 4 for a positive amount,
      otherwise down by 10% floored at 0.25. */
  function SteppedZoom(zoom: real, amount: real): (r: real)
    requires zoom > 0.0
    ensures r > 0.0
    ensures amount > 0.0 ==> r == MinReal(MaxZoom, zoom * ZoomStep)
    ensures amount <= 0.0 ==> r == MaxReal(MinZoom, zoom / ZoomStep)
    ensures MinZoom <= zoom <= MaxZoom ==> MinZoom <= r <= MaxZoom
  {
    if amount > 0.0 then MinReal(MaxZoom, zoom * ZoomStep) else MaxReal(MinZoom, zoom / ZoomStep)
  }

  /** `zoom_at_point` as the prototype writes it: the anchor point is
      converted to world coordinates with the zoom already changed, so the
      point under the cursor does not stay put (see `AnchorDriftsAsWritten`). */
  function ZoomAtPointAsWritten(c: Camera, amount: real, screenPos: Option<ScreenPoint>): (r: Camera)
    requires Valid(c)
    ensures Valid(r) && r.zoom == SteppedZoom(c.zoom, amount)
    ensures r == c.(zoom := r.zoom, x := r.x, y := r.y)
    ensures screenPos.None? ==> r.x == c.x && r.y == c.y
  {
    var zoomed := c.(zoom := SteppedZoom(c.zoom, amount));
    match screenPos
    case None => zoomed
    case Some(s) =>
      var before := ScreenToWorld(zoomed, s);
      var ratio := zoomed.zoom / c.zoom;
      var dx := before.x - c.x;
      var dy := before.y - c.y;
      zoomed.(x := c.x + dx * (1.0 - 1.0 / ratio), y := c.y + dy * (1.0 - 1.0 / ratio))
  }

  /** Zooming in from the initial camera about the top-left pixel moves the
      world point under that pixel from x = 800 to x = 97200/121 (about
      803.3). */
  lemma AnchorDriftsAsWritten()
    ensures var c := NewCamera(ScreenWidth, ScreenHeight);
            var s := ScreenPoint(0, 0);
            && ScreenToWorld(c, s).x == 800.0
            && ScreenToWorld(ZoomAtPointAsWritten(c, 1.0, Some(s)), s).x == 97200.0 / 121.0
  {
    var c := NewCamera(ScreenWidth, ScreenHeight);
    var s := ScreenPoint(0, 0);
    var r := ZoomAtPointAsWritten(c, 1.0, Some(s));
    assert r.zoom == 1.1;
    assert ScreenToWorld(r.(x := c.x), s).x == 1200.0 - 4000.0 / 11.0;
    assert r.x == 1200.0 - 4000.0 / 121.0;
  }

  /** `zoom_at_point` as intended: the anchor is converted with the zoom it
      had before the step, so the world point under the cursor stays where
      it was (see `ZoomKeepsAnchor`). */
  function ZoomAtPoint(c: Camera, amount: real, screenPos: Option<ScreenPoint>): (r: Camera)
    requires Valid(c)
    ensures Valid(r) && r.zoom == SteppedZoom(c.zoom, amount)
    ensures r == c.(zoom := r.zoom, x := r.x, y := r.y)
    ensures screenPos.None? ==> r.x == c.x && r.y == c.y
  {
    var zoom := SteppedZoom(c.zoom, amount);
    match screenPos
    case None => c.(zoom := zoom)
    case Some(s) =>
      var before := ScreenToWorld(c, s);
      var ratio := zoom / c.zoom;
      var dx := before.x - c.x;
      var dy := before.y - c.y;
      c.(zoom := zoom, x := c.x + dx * (1.0 - 1.0 / ratio), y := c.y + dy * (1.0 - 1.0 / ratio))
  }

  /** With the corrected step the world point under the cursor is the same
      before and after the zoom. */
  lemma ZoomKeepsAnchor(c: Camera, amount: real, s: ScreenPoint)
    requires Valid(c)
    ensures ScreenToWorld(ZoomAtPoint(c, amount, Some(s)), s) == ScreenToWorld(c, s)
  {
    var z := c.zoom;
    var z1 := SteppedZoom(z, amount);
    AnchorAxis(c.x, s.x as real - c.screenWidth / 2.0, z, z1);
    AnchorAxis(c.y, s.y as real - c.screenHeight / 2.0, z, z1);
  }

  /** One axis of `ZoomKeepsAnchor`: `a` is the cursor's distance from the
      screen centre in pixels. */
  lemma AnchorAxis(centre: real, a: real, z: real, z1: real)
    requires z > 0.0 && z1 > 0.0
    ensures var moved := centre + (a / z) * (1.0 - 1.0 / (z1 / z));
            moved + a / z1 == centre + a / z
  {
    assert 1.0 / (z1 / z) == z / z1;
    assert (a / z) * (z / z1) == a / z1;
    assert (a / z) * (1.0 - z / z1) == a / z - a / z1;
  }

  /** `zoom_in` and `zoom_out` ignore their `amount` argument and take one
      step about the given point, with the anchor converted as the program
      writes it (`ZoomAtPointAsWritten`). */
  function ZoomIn(c: Camera, screenPos: Option<ScreenPoint>): (r: Camera)
    requires Valid(c)
    ensures Valid(r) && r.zoom == MinReal(MaxZoom, c.zoom * ZoomStep)
    ensures r == c.(zoom := r.zoom, x := r.x, y := r.y)
    ensures screenPos.None? ==> r.x == c.x && r.y == c.y
  {
    ZoomAtPointAsWritten(c, 1.0, screenPos)
  }

  function ZoomOut(c: Camera, screenPos: Option<ScreenPoint>): (r: Camera)
    requires Valid(c)
    ensures Valid(r) && r.zoom == MaxReal(MinZoom, c.zoom / ZoomStep)
    ensures r == c.(zoom := r.zoom, x := r.x, y := r.y)
    ensures screenPos.None? ==> r.x == c.x && r.y == c.y
  {
    ZoomAtPointAsWritten(c, -1.0, screenPos)
  }

  /** Without an anchor point the as-written and the corrected step agree,
      which is how the prototype itself calls them. */
  lemma ZoomWithoutPointAgrees(c: Camera, amount: real)
    requires Valid(c)
    ensures ZoomAtPointAsWritten(c, amount, None) == ZoomAtPoint(c, amount, None)
  {
  }

  /** Away from the limits, zooming in and then out without an anchor gives
      back the camera unchanged. */
  lemma ZoomInThenOutRestores(c: Camera)
    requires Valid(c) && MinZoom <= c.zoom && c.zoom * ZoomStep <= MaxZoom
    ensures ZoomOut(ZoomIn(c, None), None) == c
  {
    var c1 := ZoomIn(c, None);
    assert c1.zoom == c.zoom * ZoomStep;
    assert c1.zoom / ZoomStep == c.zoom;
  }

  /** Zoom steps applied one after another, each with its own amount, as
      the program performs them. */
  function ZoomSteps(c: Camera, amounts: seq<real>, s: Option<ScreenPoint>): (r: Camera)
    requires Valid(c)
    ensures Valid(r)
    ensures s.None? ==> r.x == c.x && r.y == c.y
    decreases |amounts|
  {
    if |amounts| == 0 then c else ZoomSteps(ZoomAtPointAsWritten(c, amounts[0], s), amounts[1..], s)
  }

  /** Starting from the initial zoom of 1, no sequence of zoom steps leaves
      [0.25, 4]. */
  lemma {:induction false} ZoomStaysInRange(c: Camera, amounts: seq<real>, s: Option<ScreenPoint>)
    requires Valid(c) && ZoomInRange(c)
    ensures ZoomInRange(ZoomSteps(c, amounts, s))
    decreases |amounts|
  {
    if |amounts| > 0 {
      ZoomStaysInRange(ZoomAtPointAsWritten(c, amounts[0], s), amounts[1..], s);
    }
  }

  /** Every zoom the camera can reach from its initial state lies in
      [0.25, 4]. */
  lemma InitialZoomStaysInRange(screenWidth: real, screenHeight: real, amounts: seq<real>, s: Option<ScreenPoint>)
    ensures ZoomInRange(ZoomSteps(NewCamera(screenWidth, screenHeight), amounts, s))
  {
    ZoomStaysInRange(NewCamera(screenWidth, screenHeight), amounts, s);
  }

  /** One axis of the view clamp: with `visible = screen / zoom`, the centre
      stays in [visible/2, world - visible/2]; when the view is wider than
      the world, the lower bound visible/2 wins. */
  function ClampAxis(v: real, screen: real, zoom: real, world: real): (r: real)
    requires zoom > 0.0
    ensures var vis := screen / zoom;
            && (vis <= world ==> vis / 2.0 <= r <= world - vis / 2.0)
            && (vis > world ==> r == vis / 2.0)
            && (vis / 2.0 <= v <= world - vis / 2.0 ==> r == v)
            && (vis <= world && v < vis / 2.0 ==> r == vis / 2.0)
            && (vis <= world && v > world - vis / 2.0 ==> r == world - vis / 2.0)
  {
    var vis := screen / zoom;
    ClampReal(vis / 2.0, world - vis / 2.0, v)
  }

  /** The camera's centre is where the view clamp would leave it. */
  predicate InView(c: Camera)
    requires c.zoom > 0.0
  {
    ClampAxis(c.x, c.screenWidth, c.zoom, WorldWidth) == c.x && ClampAxis(c.y, c.screenHeight, c.zoom, WorldHeight) == c.y
  }

  function ClampToView(c: Camera): (r: Camera)
    requires c.zoom > 0.0
    ensures r == c.(x := r.x, y := r.y) && InView(r)
    ensures r.x == ClampAxis(c.x, c.screenWidth, c.zoom, WorldWidth)
    ensures r.y == ClampAxis(c.y, c.screenHeight, c.zoom, WorldHeight)
    ensures InView(c) ==> r == c
  {
    var r := c.(x := ClampAxis(c.x, c.screenWidth, c.zoom, WorldWidth), y := ClampAxis(c.y, c.screenHeight, c.zoom, WorldHeight));
    ClampAxisIdempotent(c.x, c.screenWidth, c.zoom, WorldWidth);
    ClampAxisIdempotent(c.y, c.screenHeight, c.zoom, WorldHeight);
    r
  }

  lemma ClampAxisIdempotent(v: real, screen: real, zoom: real, world: real)
    requires zoom > 0.0
    ensures var r := ClampAxis(v, screen, zoom, world); ClampAxis(r, screen, zoom, world) == r
  {
  }

  /** `pan`: move by the direction times `PAN_SPEED * dt / zoom` (faster
      when zoomed out), then clamp to the view. */
  function Pan(c: Camera, dx: real, dy: real, dt: real): (r: Camera)
    requires c.zoom > 0.0
    ensures r == c.(x := r.x, y := r.y) && InView(r)
    ensures var speed := PanSpeed * dt / c.zoom;
            r == ClampToView(c.(x := c.x + dx * speed, y := c.y + dy * speed))
  {
    var speed := PanSpeed * dt / c.zoom;
    ClampToView(c.(x := c.x + dx * speed, y := c.y + dy * speed))
  }

  /** A pan with no movement only clamps, so on a camera already in view
      it changes nothing. */
  lemma StillPanIsNoOp(c: Camera, dt: real)
    requires c.zoom > 0.0 && InView(c)
    ensures Pan(c, 0.0, 0.0, dt) == c
  {
    assert c.(x := c.x + 0.0 * (PanSpeed * dt / c.zoom), y := c.y + 0.0 * (PanSpeed * dt / c.zoom)) == c;
  }

  /** `start_drag`. */
  function StartDrag(c: Camera, p: ScreenPoint): (r: Camera)
    ensures r.dragging && r.dragStart == Some(p) && r.dragLast == Some(p)
    ensures r == c.(dragging := true, dragStart := Some(p), dragLast := Some(p))
  {
    c.(dragging := true, dragStart := Some(p), dragLast := Some(p))
  }

  /** `update_drag`: nothing unless dragging; otherwise move against the
      mouse's motion since the last update, scaled by the zoom, clamp to the
      view and remember the new mouse position. */
  function UpdateDrag(c: Camera, p: ScreenPoint): (r: Camera)
    requires Valid(c)
    ensures Valid(r)
    ensures !c.dragging ==> r == c
    ensures c.dragging ==>
              && r.dragLast == Some(p) && r.dragging && r.dragStart == c.dragStart && r.zoom == c.zoom
              && InView(r)
              && var last := c.dragLast.value;
                 (r.x, r.y) == (ClampAxis(c.x - (p.x - last.x) as real / c.zoom, c.screenWidth, c.zoom, WorldWidth),
                                ClampAxis(c.y - (p.y - last.y) as real / c.zoom, c.screenHeight, c.zoom, WorldHeight))
  {
    if !c.dragging then c
    else
      var last := c.dragLast.value;
      var worldDx := -((p.x - last.x) as real) / c.zoom;
      var worldDy := -((p.y - last.y) as real) / c.zoom;
      assert worldDx == -((p.x - last.x) as real / c.zoom);
      assert worldDy == -((p.y - last.y) as real / c.zoom);
      ClampToView(c.(x := c.x + worldDx, y := c.y + worldDy)).(dragLast := Some(p))
  }

  /** `end_drag`. */
  function EndDrag(c: Camera): (r: Camera)
    ensures !r.dragging && r.dragStart.None? && r.dragLast.None?
    ensures r == c.(dragging := false, dragStart := None, dragLast := None)
  {
    c.(dragging := false, dragStart := None, dragLast := None)
  }

  /** Dragging the mouse away and back to where the drag started puts the
      camera back, provided the first move did not reach the view's edge. */
  lemma DragAwayAndBackRestores(c: Camera, start: ScreenPoint, p: ScreenPoint)
    requires c.zoom > 0.0 && InView(c)
    requires var vis := c.screenWidth / c.zoom;
             var visY := c.screenHeight / c.zoom;
             var tx := c.x - (p.x - start.x) as real / c.zoom;
             var ty := c.y - (p.y - start.y) as real / c.zoom;
             vis / 2.0 <= tx <= WorldWidth - vis / 2.0 && visY / 2.0 <= ty <= WorldHeight - visY / 2.0
    ensures var back := UpdateDrag(UpdateDrag(StartDrag(c, start), p), start);
            back.x == c.x && back.y == c.y
  {
    var d1 := UpdateDrag(StartDrag(c, start), p);
    assert d1.dragging && d1.dragLast == Some(p) && d1.zoom == c.zoom;
    DragAxisBack(c.x, start.x, p.x, c.screenWidth, c.zoom, WorldWidth);
    DragAxisBack(c.y, start.y, p.y, c.screenHeight, c.zoom, WorldHeight);
  }

  /** One axis of `DragAwayAndBackRestores`: moving by the pointer's motion
      and then by the reverse motion, with no clamping on the way out,
      returns to a coordinate that was in view. */
  lemma DragAxisBack(v: real, s: int, p: int, screen: real, z: real, world: real)
    requires z > 0.0 && ClampAxis(v, screen, z, world) == v
    requires var t := v - (p - s) as real / z;
             screen / z / 2.0 <= t <= world - screen / z / 2.0
    ensures var t := ClampAxis(v - (p - s) as real / z, screen, z, world);
            ClampAxis(t - (s - p) as real / z, screen, z, world) == v
  {
    var t := v - (p - s) as real / z;
    assert ClampAxis(t, screen, z, world) == t;
    assert (s - p) as real / z == -((p - s) as real / z);
    assert t - (s - p) as real / z == v;
  }
}
