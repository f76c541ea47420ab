# EvoTales core, modelled in Dafny

EvoTales is an evolution sandbox. Plants grow, drop seeds and spread across a
map. Mammals (herbivores and carnivores) move, spend energy, eat, reproduce,
die and decay. The user watches through a camera they can zoom, drag and pan.
This project models the core of that system as pure Dafny functions over
immutable datatypes and proves properties about them. The core is in two
generations:

- **The arcade simulation.**
  - `PlantLifecycle` (`src/entities/plant.py`): growth levels on a jittered
    growth timer; seed drops on a jittered reproduction timer. The reproduction
    delay backs off after a streak of failed drops and resets after a streak
    of successes.
  - `CameraControl` (`src/simulation/camera_controller.py`): a zoom floor
    derived from how the padded map fits the window, and per-axis clamping of
    the camera position.
  - `InputDispatch` (`src/input_controller.py`): raw events are recorded in an
    input state and handed to the one current mode. The camera mode turns them
    into camera-controller calls.
  - `SpriteBook` (`src/sprite_manager.py`): sprite sheets, registered sprite
    rectangles, and the interactive rectangle editor.
- **The single-file prototype** (`src/inspiration/ev4.py`).
  - `ProtoWorld`: the world and spawn-area constants.
  - `ProtoCamera`: the prototype camera, including zoom about a point, world
    and screen conversions, drag and pan.
  - `ProtoPlant`: rejection-sampled plant placement and growth through four
    stages.
  - `ProtoMammal`: the mammals' energy, cooldown, death, decay, reproduction
    and eating bookkeeping.

`Numeric` holds shared helpers: `Option`, `Result`, min/max/clamp, and a few
real-arithmetic lemmas.

Random draws are parameters, each restricted to the range the source draws
from:

- `random.uniform(a, b)` is `a + (b - a) * u` for a fraction `u` in [0, 1].
- `random.randint` is an integer in its range.
- A random direction is a (cos, sin) pair on the unit circle.

Calls into the graphics library and into the entity manager are also
parameters, or are returned as requests.

## Model

| member | source | states |
|---|---|---|
| PlantLifecycle.NewPlant | src/entities/plant.py:19-42 | Fails with InvalidGrowthLevel when the level is outside [1, max], and with MissingEntityManager when there is no manager. Otherwise it succeeds exactly when the level's texture exists. The new plant has full timers, an empty history, that texture, and full_grown iff the level is at least the maximum. |
| PlantLifecycle.NewPlantValid | src/entities/plant.py:19-42 | A successfully constructed plant satisfies the plant invariants, and its full-grown flag agrees with its level. |
| PlantLifecycle.SetGrowthLevel | src/entities/plant.py:44-58 | full_grown follows the raw request. Without a texture for the clamped level, nothing else changes. With one, the level becomes the clamped request with that texture. The timer is redrawn (max timer times the jitter) only when level or texture actually change. Reproduction state is untouched. |
| PlantLifecycle.SetGrowthLevelNoOp | src/entities/plant.py:50-56 | Asking for the level and texture already shown leaves the timer alone and only refreshes full_grown. |
| PlantLifecycle.Grow | src/entities/plant.py:66-69 | The level rises by at most one and never past the maximum. While the timer stays positive only the timer runs down. A level change happens only on expiry and restarts the timer. |
| PlantLifecycle.GrowOneLevelOnExpiry | src/entities/plant.py:66-69 | On expiry with all textures present, the plant gains exactly one level and the new timer is within 20% of the maximum. Excess time is not carried over. |
| PlantLifecycle.MissingTextureMarksFullGrownEarly | src/entities/plant.py:44-58 | Concrete case: a missing next texture keeps the level but sets full_grown, breaking the flag/level agreement. |
| PlantLifecycle.RecordAttempt | src/entities/plant.py:74-87 | A success zeroes the fail streak and a failure zeroes the success streak. Reaching max_successes resets the factor to 1. Reaching max_fails multiplies the factor by the configured factor. Counters stay below their thresholds and the factor stays at least 1. |
| PlantLifecycle.FailuresAccumulate | src/entities/plant.py:77-79 | k failures below the threshold only add k to the fail count. |
| PlantLifecycle.FailStreakBacksOff | src/entities/plant.py:85-87 | max_fails consecutive failures multiply the delay factor by the configured factor and restart the counters. |
| PlantLifecycle.SuccessesAccumulate | src/entities/plant.py:74-76 | k successes below the threshold only add k to the success count. |
| PlantLifecycle.SuccessStreakResets | src/entities/plant.py:81-83 | max_successes consecutive successes bring the delay factor back to 1. |
| PlantLifecycle.AttemptsSplit | src/entities/plant.py:73-87 | The bookkeeping of a concatenated run is the bookkeeping of the second part, started from the state the first part left. |
| PlantLifecycle.AttemptsKeepFactor | src/entities/plant.py:83-87 | Whatever the outcomes, the delay factor never drops below 1. |
| PlantLifecycle.DropSeed | src/entities/plant.py:94-99 | The seed lands at exactly the drawn distance from the parent and carries no growth level. |
| PlantLifecycle.Reproduce | src/entities/plant.py:71-92 | A seed drop is attempted iff the timer reaches zero. Otherwise only the timer runs down. On a drop, the outcome is recorded and the timer restarts within 20% of delay times factor. Growth state is untouched. |
| PlantLifecycle.Update | src/entities/plant.py:60-64 | A full-grown plant takes exactly one reproduce step and stays full-grown: it attempts a seed drop iff its reproduction timer runs out. Any other plant takes exactly one grow step and drops no seed, so while its growth timer stays positive only that timer runs down. |
| PlantLifecycle.UpdatePreservesValid | src/entities/plant.py:60-92 | update keeps the level in [1, max], the counters non-negative and the factor at least 1. |
| PlantLifecycle.UpdatePreservesConsistent | src/entities/plant.py:60-69 | With every texture present, full_grown keeps agreeing with the level. |
| PlantLifecycle.RunMonotone | src/entities/plant.py:60-92 | Over any sequence of updates the level never decreases and the invariants hold. A full-grown plant stays full-grown. |
| PlantLifecycle.SpawnInitial | src/entities/plant.py:10-17 | Exactly initial_count placement requests, each with its drawn level in [1, max]. Each lies inside the padded map when the map is wider than twice the padding. |
| CameraControl.MapBounds.FullWidth | src/simulation/camera_controller.py:9-14 | The padded width is the distance between the padded left and right edges. |
| CameraControl.MapBounds.FullHeight | src/simulation/camera_controller.py:10-14 | The padded height is the distance between the padded bottom and top edges. |
| CameraControl.MapBounds.CenterX | src/simulation/camera_controller.py:16-18 | The unpadded map's centre is also the padded map's centre, horizontally. |
| CameraControl.MapBounds.CenterY | src/simulation/camera_controller.py:16-18 | The same, vertically. |
| CameraControl.NewController | src/simulation/camera_controller.py:23-32 | No camera and no map yet. The floor starts at MIN_ZOOM, and positive settings give a valid controller. |
| CameraControl.ZoomFloor | src/simulation/camera_controller.py:46-49 | The floor is at least MIN_ZOOM and at least the tighter of the two fitting zooms, and it is one of those values: max(MIN_ZOOM, min(fit width, fit height)). |
| CameraControl.UpdateMinZoom | src/simulation/camera_controller.py:40-51 | No-op without a map. With one, the floor is recomputed and the zoom becomes exactly max(floor, zoom): raised to the floor, never lowered, and kept when already above it. Only the zoom changes. |
| CameraControl.CenterCamera | src/simulation/camera_controller.py:53-57 | No-op without a map. With one, the camera looks at the map centre and nothing else changes. |
| CameraControl.Setup | src/simulation/camera_controller.py:34-38 | After setup the controller has the padded map and a camera at the map centre. The floor is recomputed, the zoom is max(floor, 1), and the projection is the default window projection. Settings and window size are kept. |
| CameraControl.SetupValid | src/simulation/camera_controller.py:34-38 | Setup on a valid controller with a positive padded map gives a valid controller whose zoom is at least the floor. |
| CameraControl.SetupExampleFloor | src/simulation/camera_controller.py:46-49 | A 3000×3000 map with padding 20 in an 800×600 window has floor 600/3040 (height is the tighter axis). |
| CameraControl.ArgOrCurrent | src/simulation/camera_controller.py:60-61 | A given non-zero coordinate is used. A missing one or an explicit 0 falls back to the current coordinate. |
| CameraControl.ClampAxis | src/simulation/camera_controller.py:65-84 | A visible extent larger than the padded map forces the centre. Otherwise the result keeps the visible extent inside the padded map: a coordinate already there is kept, and one outside goes to the nearest admissible edge. |
| CameraControl.ClampPosition | src/simulation/camera_controller.py:59-86 | Only the camera position changes. Without a map nothing moves. With one, each axis is ClampAxis of the given (or current) coordinate, so the result is clamped on both axes, centred on an axis where the view is larger than the map, and an already admissible target is kept. |
| CameraControl.ClampPositionIdempotent | src/simulation/camera_controller.py:59-86 | Clamping a clamped camera again changes nothing. |
| CameraControl.ClampPositionZeroIsMissing | src/simulation/camera_controller.py:60-61 | An explicit x of 0 behaves exactly like a missing x. |
| CameraControl.ResizedProjection | src/simulation/camera_controller.py:91-93 | The projection spans width/zoom by height/zoom, symmetric about the origin. |
| CameraControl.HandleResize | src/simulation/camera_controller.py:88-94 | The window takes the new size, and with a map the floor becomes max(MIN_ZOOM, min(width / full width, height / full height)) for that new size. The zoom becomes max(floor, zoom). The projection is the new window size at that zoom, about the origin. The position is the old position re-clamped, so without a map it stays. |
| CameraControl.ResizeRaisesFloor | src/simulation/camera_controller.py:46-49 | Growing an 800 × 600 window to 1600 × 1200 over a 3000 × 3000 map with padding 20 raises the floor from 600/3040 to 1200/3040. |
| CameraControl.ApplyZoom | src/simulation/camera_controller.py:96-105 | Any direction but "in"/"out" is an error. "in" multiplies the zoom by the factor, capped at the maximum. "out" divides it, floored at the floor. The result is the controller with that zoom and its position re-clamped, so nothing else changes. Since the projection is unchanged, zooming never moves a clamped camera. |
| CameraControl.ApplyZoomKeepsRange | src/simulation/camera_controller.py:96-100 | With factor ≥ 1 and floor ≤ maximum, a zoom inside [floor, maximum] stays inside. |
| CameraControl.ZoomOutAtFloorIsNoOp | src/simulation/camera_controller.py:99-100 | Zooming out at the floor leaves the zoom at the floor. |
| CameraControl.HandleDrag | src/simulation/camera_controller.py:107-112 | The camera moves against the drag, scaled to world units by the zoom, then clamps. Only the position changes and validity is kept. |
| CameraControl.DragThenReverseDrag | src/simulation/camera_controller.py:107-112 | A drag landing inside the clamp window, on non-zero coordinates, is undone by the opposite drag. |
| CameraControl.PanDelta | src/simulation/camera_controller.py:115-123 | Each held arrow key adds or subtracts pan_rate·dt on its axis. |
| CameraControl.UpdatePanning | src/simulation/camera_controller.py:114-129 | A zero delta leaves the controller untouched (no clamp). A non-zero delta moves the camera by it and clamps. Validity and the camera are kept. |
| CameraControl.OppositeKeysCancel | src/simulation/camera_controller.py:114-129 | With only opposite pairs of keys held, the controller is unchanged. |
| CameraControl.OperationsPreserveValid | src/simulation/camera_controller.py:40-129 | Every camera operation keeps the controller valid. |
| InputDispatch.OnKeyPress | src/input_controller.py:76-87 | The base mode ignores keys (lines 26-27). Without a camera the camera mode consumes every key. With one, X zooms in, Z zooms out, and other keys are not consumed. |
| InputDispatch.OnKeyRelease | src/input_controller.py:29-30 | No mode consumes or acts on a key release. |
| InputDispatch.OnMouseDrag | src/input_controller.py:89-102 | The camera mode consumes every drag and issues one camera drag by (dx, dy) exactly when a camera exists. The base mode ignores drags. |
| InputDispatch.OnMouseScroll | src/input_controller.py:104-122 | The camera mode consumes every scroll and zooms exactly when a camera exists and the scroll is non-zero: in when positive, out when negative. |
| InputDispatch.OnUpdate | src/input_controller.py:124-127 | The camera mode pans with the currently held keys exactly when a camera exists. |
| InputDispatch.Execute | src/input_controller.py:81-127 | Each camera command is the corresponding camera-controller call, and the controller stays valid with a camera. |
| InputDispatch.Dispatch | src/input_controller.py:181-183 | The handler's camera call is applied and the consumed flag discarded. State and mode are unchanged. |
| InputDispatch.NewInputController | src/input_controller.py:137-140 | Empty input state, the default mode, and exactly one on_enter call. |
| InputDispatch.SetMode | src/input_controller.py:146-149 | The old mode's on_exit is called, then the new mode's on_enter. The new mode replaces the old one. |
| InputDispatch.SetModeBackRestores | src/input_controller.py:146-149 | Switching to a mode and back gives back the same controller, with the hook log exit old, enter new, exit new, enter old. |
| InputDispatch.SwitchModesLog | src/input_controller.py:146-149 | After any run of switches the last mode is current and nothing else changed. The log has two hooks per switch: the i-th switch exits the mode current before it, then enters its own mode. |
| InputDispatch.HooksPairUp | src/input_controller.py:137-149 | From construction on, every on_exit call directly follows the on_enter call of the same mode. |
| InputDispatch.KeyPress | src/input_controller.py:151-154 | Records the modifiers and adds the key, then dispatches to the mode's key handler. |
| InputDispatch.KeyRelease | src/input_controller.py:156-159 | Records the modifiers and removes the key. The camera is untouched. |
| InputDispatch.MouseDrag | src/input_controller.py:161-172 | Records position and modifiers. In camera mode with a camera the controller is dragged by (dx, dy). Otherwise the controller is unchanged. |
| InputDispatch.MouseScroll | src/input_controller.py:174-176 | Records the position only (modifiers kept), then dispatches the scroll. |
| InputDispatch.Update | src/input_controller.py:178-179 | In camera mode with a camera the controller pans with the held keys. Otherwise nothing changes. |
| InputDispatch.ZoomKeys | src/input_controller.py:80-85 | In camera mode, pressing X zooms in and Z zooms out. |
| InputDispatch.ScrollZooms | src/input_controller.py:115-122 | In camera mode, scrolling up zooms in, down zooms out, and zero leaves the camera alone. |
| InputDispatch.InertWithoutCamera | src/input_controller.py:26-55 | In the base mode, or before a camera exists, no event changes the camera controller. |
| InputDispatch.PressReleaseRestoresKeys | src/input_controller.py:151-159 | Pressing and releasing a key that was not held restores the pressed set. |
| SpriteBook.NewSpriteManager | src/sprite_manager.py:11-16 | No sheets and no registrations; the adjustment step is 1. |
| SpriteBook.LoadSpriteSheet | src/sprite_manager.py:18-26 | The name maps to the new sheet. Every other sheet and every registration are kept. |
| SpriteBook.RegisterSpriteConfig | src/sprite_manager.py:28-49 | The sprite maps to the given rectangle, replacing any earlier one. Every other registration is kept. |
| SpriteBook.GetSpriteTexture | src/sprite_manager.py:51-75 | A texture exists iff the sheet is loaded and the sprite is registered on it. It is cut from that sheet with exactly the registered rectangle and orientation. |
| SpriteBook.CreateSprite | src/sprite_manager.py:77-100 | A sprite exists iff the texture lookup succeeds. It has the given scale and that texture. |
| SpriteBook.RegisteredSpriteIsFound | src/sprite_manager.py:28-75 | After registering a sprite and loading its sheet, the lookup returns exactly the registered rectangle, whatever came before. |
| SpriteBook.Lower | src/sprite_manager.py:126 | Lower-casing keeps the length and maps each ASCII upper-case letter to its lower case. |
| SpriteBook.DirectionMatches | src/sprite_manager.py:126-138 | A direction matches a letter iff it is that letter in either case. |
| SpriteBook.EffectiveStep | src/sprite_manager.py:122 | A missing or zero step falls back to the manager's step. |
| SpriteBook.AdjustSpritePosition | src/sprite_manager.py:102-144 | False and no change for an unregistered sprite or unknown direction. Otherwise true: w/s move the rectangle up/down and a/d left/right by the effective step, q/e change the step by ±1, and width and height are kept. No other registration changes. |
| SpriteBook.UpThenDownRestores | src/sprite_manager.py:126-129 | Up then down by the same explicit step restores every registration. |
| SpriteBook.LeftThenRightRestores | src/sprite_manager.py:130-133 | Left then right by the manager's step (upper-case keys) restores every registration. |
| SpriteBook.GrowThenShrinkStepRestores | src/sprite_manager.py:134-137 | q then e restores the step and touches no rectangle. |
| SpriteBook.ShrunkStepStallsMoves | src/sprite_manager.py:122-137 | Shrinking the step from 1 gives 0, after which a move without an explicit step does not move the rectangle. |
| ProtoWorld.ClampToSpawnArea | src/inspiration/ev4.py:505-506 | The result is in the spawn area, a point already inside is unchanged, and each axis is clamped independently. |
| ProtoWorld.ClampMovesTowardArea | src/inspiration/ev4.py:712-713 | Clamping moves a point, axis by axis, toward any point inside the spawn area and never past it. |
| ProtoWorld.SpawnLocation | src/inspiration/ev4.py:329-333 | A spawn location always lies in the spawn area (lines 159-164). |
| ProtoCamera.NewCamera | src/inspiration/ev4.py:26-34 | Zoom 1, centred on the world, not dragging, valid. |
| ProtoCamera.Truncate | src/inspiration/ev4.py:144 | `int()` truncates toward zero: within one of the value, on the zero side. |
| ProtoCamera.TruncateWhole | src/inspiration/ev4.py:144 | Truncating a whole number returns it. |
| ProtoCamera.WorldToScreen | src/inspiration/ev4.py:134-144 | The pixel, mapped back with screen_to_world, lands within 1/zoom of the world point on each axis. The camera's own position maps to the screen-centre pixel. |
| ProtoCamera.ScreenToWorld | src/inspiration/ev4.py:146-156 | The world point is the camera centre plus the pixel's distance from the screen centre divided by the zoom. |
| ProtoCamera.ScreenWorldRoundTrip | src/inspiration/ev4.py:134-156 | A pixel converted to the world and back is the same pixel. |
| ProtoCamera.WorldScreenRoundTripError | src/inspiration/ev4.py:134-156 | A world point converted to a pixel and back moves by less than 1/zoom on each axis. |
| ProtoCamera.AxisRoundTripError | src/inspiration/ev4.py:141-153 | Per-axis arithmetic: truncation changes the screen coordinate by less than one pixel, so the world coordinate changes by less than 1/zoom. |
| ProtoCamera.SteppedZoom | src/inspiration/ev4.py:42-45 | A positive amount multiplies by 1.1 capped at 4. Otherwise the zoom is divided by 1.1 floored at 0.25. The zoom stays positive, and inside [0.25, 4] once there. |
| ProtoCamera.ZoomAtPointAsWritten | src/inspiration/ev4.py:36-60 | zoom_at_point as written: the zoom takes one step, the position moves only when a point is given, and nothing else changes. |
| ProtoCamera.AnchorDriftsAsWritten | src/inspiration/ev4.py:43-59 | Zooming in on the initial camera at pixel (0, 0) moves the world x under that pixel from 800 to 97200/121. |
| ProtoCamera.ZoomAtPoint | src/inspiration/ev4.py:36-60 | The corrected zoom_at_point: same step and same frame; the anchor is converted with the old zoom. |
| ProtoCamera.ZoomKeepsAnchor | src/inspiration/ev4.py:47-60 | With the correction, the world point under the given pixel is the same before and after the zoom. |
| ProtoCamera.AnchorAxis | src/inspiration/ev4.py:53-60 | Per-axis arithmetic behind ZoomKeepsAnchor. |
| ProtoCamera.ZoomIn | src/inspiration/ev4.py:62-63 | One step in through the as-written zoom_at_point, ignoring the amount argument. The zoom becomes min(4, 1.1 × zoom), only zoom and position change, and without a point the position stays. |
| ProtoCamera.ZoomOut | src/inspiration/ev4.py:65-66 | One step out through the as-written zoom_at_point, ignoring the amount argument. The zoom becomes max(0.25, zoom / 1.1), only zoom and position change, and without a point the position stays. |
| ProtoCamera.ZoomWithoutPointAgrees | src/inspiration/ev4.py:36-60 | Without a point, the as-written and the corrected zoom_at_point give the same camera. |
| ProtoCamera.ZoomInThenOutRestores | src/inspiration/ev4.py:42-45 | Away from the limits, zooming in and then out without a point gives back the same camera. |
| ProtoCamera.ZoomSteps | src/inspiration/ev4.py:36-66 | Any sequence of as-written zoom steps keeps the camera valid. Without a point the position never moves. |
| ProtoCamera.ZoomStaysInRange | src/inspiration/ev4.py:42-45 | Any sequence of as-written zoom steps from a zoom in [0.25, 4] stays in [0.25, 4]. |
| ProtoCamera.InitialZoomStaysInRange | src/inspiration/ev4.py:29-45 | Every zoom reachable from the initial camera lies in [0.25, 4]. |
| ProtoCamera.ClampAxis | src/inspiration/ev4.py:121-132 | The centre stays in [visible/2, world − visible/2]. When the view is wider than the world, the lower bound wins. A centre already inside is kept, and one outside goes to the nearest bound. |
| ProtoCamera.ClampToView | src/inspiration/ev4.py:92-101 | Only the centre changes, each axis is ClampAxis of the old centre, the result is in view, and a camera already in view is unchanged. |
| ProtoCamera.ClampAxisIdempotent | src/inspiration/ev4.py:121-132 | Clamping a clamped coordinate again changes nothing. |
| ProtoCamera.Pan | src/inspiration/ev4.py:112-132 | The camera moves by direction × PAN_SPEED·dt/zoom (faster when zoomed out), then clamps to the view. Only the centre changes. |
| ProtoCamera.StillPanIsNoOp | src/inspiration/ev4.py:112-132 | A zero pan of a camera in view changes nothing. |
| ProtoCamera.StartDrag | src/inspiration/ev4.py:68-72 | Dragging starts with start and last position at the pointer. |
| ProtoCamera.UpdateDrag | src/inspiration/ev4.py:74-104 | No-op unless dragging. Otherwise the camera moves against the pointer motion since the last update, scaled by the zoom, clamps into view and remembers the pointer. |
| ProtoCamera.EndDrag | src/inspiration/ev4.py:106-110 | Dragging ends and both drag positions are cleared. |
| ProtoCamera.DragAwayAndBackRestores | src/inspiration/ev4.py:68-104 | Dragging away and back to the start restores the camera centre, provided the first move stays inside the clamp window. |
| ProtoPlant.GrowthTime | src/inspiration/ev4.py:389-394 | The growth timer is 10·(1 + k/100) seconds, so between 7 and 13. |
| ProtoPlant.NewPlant | src/inspiration/ev4.py:379-387 | The given stage, or the drawn one, with that stage's size and energy and a fresh timer. |
| ProtoPlant.Grow | src/inspiration/ev4.py:396-411 | A last-stage plant is unchanged. A positive timer runs down. An expired timer advances exactly one stage with a new timer. The stage rises by at most one and the plant stays valid. |
| ProtoPlant.GrowNeverShrinks | src/inspiration/ev4.py:182-183 | Growing never decreases size or energy gain. |
| ProtoPlant.Nearby | src/inspiration/ev4.py:354-357 | The prefilter keeps exactly the existing positions inside the bounding box. |
| ProtoPlant.PrefilterSound | src/inspiration/ev4.py:354-365 | Any position closer than the minimum distance passes the bounding-box prefilter. |
| ProtoPlant.NearbyDecidesSpacing | src/inspiration/ev4.py:354-367 | Checking only the prefiltered neighbours decides whether a candidate is spaced from every existing plant. |
| ProtoPlant.FindSpot | src/inspiration/ev4.py:341-375 | A found spot is in the spawn area, spaced from every plant, and the first acceptable candidate. Nothing is found iff all 100 candidates are rejected. |
| ProtoPlant.Create | src/inspiration/ev4.py:337-377 | A plant is created iff some candidate is acceptable. It lands on the first acceptable candidate: valid, in the spawn area and spaced from every plant, at the requested or drawn stage, with a fresh growth timer. |
| ProtoMammal.NewMammal | src/inspiration/ev4.py:420-465 | A newborn is alive, in the spawn area, with its species' base speed, initial energy and decay timer, and no cooldown. |
| ProtoMammal.NewbornCannotReproduce | src/inspiration/ev4.py:691-692 | Both species start below their reproduction energy threshold. |
| ProtoMammal.Move | src/inspiration/ev4.py:493-510 | The mammal steps along the direction at its speed, clamps into the spawn area and pays a non-negative move cost. Nothing else changes. |
| ProtoMammal.Update | src/inspiration/ev4.py:722-733 | A running cooldown counts down. A mammal without energy dies in place. Any other mammal takes exactly one move step with the cooled-down cooldown, so it pays the move cost and stays in the spawn area. Energy never rises. |
| ProtoMammal.UpdatesNeverGainEnergy | src/inspiration/ev4.py:722-733 | Over any number of frames without eating, energy never rises and the mammal stays in the spawn area. |
| ProtoMammal.StarvedMammalStaysDead | src/inspiration/ev4.py:729-731 | A mammal out of energy is dead after the next frame and stays dead in place. |
| ProtoMammal.Decay | src/inspiration/ev4.py:825-836 | Answers true iff dead. Only a dead mammal's decay timer runs down. |
| ProtoMammal.DecayLeadsToDespawn | src/inspiration/ev4.py:679-686 | A living mammal is never despawnable. A dead one is once decay has used up its timer. |
| ProtoMammal.Reproduce | src/inspiration/ev4.py:694-720 | Without permission nothing happens. With it, the parent pays the cost and restarts its cooldown. The offspring is a fresh mammal of the same species: alive, with the species' base speed and decay timer, the offspring energy and cooldown, and a position in the spawn area within twice the parent's size on each axis. |
| ProtoMammal.ReproductionStartsCooldowns | src/inspiration/ev4.py:691-720 | Right after reproducing, neither parent nor offspring can reproduce. |
| ProtoMammal.RemoveFirst | src/inspiration/ev4.py:747-748 | An absent entity leaves the list unchanged. A present one is removed exactly once. |
| ProtoMammal.RemoveFirstDropsFirstOccurrence | src/inspiration/ev4.py:747-748 | The first occurrence is the one removed, and the rest keep their order. |
| ProtoMammal.ConsumeEntity | src/inspiration/ev4.py:745-748 | Energy grows by the gain, capped at the species maximum. A non-negative gain never lowers energy that was within the maximum. The entity is removed from the list, if present. |

## Left out

- Rendering, the graphics library and all printing are left out. That covers sprites, textures, drawing, fields of view, energy bars, and the `print` calls, including the one behind the editor's "f" key.
- Loading and cutting images are left out. A loaded sheet is the path it was loaded from, and a texture is the sheet, rectangle and orientation it was cut with.
- `src/entities/plant.py` imports a `sprite_manager` instance and calls `get_texture`, which the sprite manager does not define. The plant's growth textures are therefore a parameter, and a missing texture is `None`.
- The plant and camera configuration values are parameters (`PlantConfig`, `Settings`). `src/entities/plant.py` imports `PLANT_CONFIG`, which `src/config.py` does not define.
- The entity manager's `handle_seed_drop` is not part of this model. A call to it is returned as a seed request, and its boolean answer is a parameter.
- Every random draw is a parameter: `uniform` draws as fractions in [0, 1], `randint` draws as integers in range, and a random angle as its (cos, sin) pair. Trigonometry is not modelled.
- arcade's `Camera2D()` defaults are assumed: zoom 1, position at the window centre, projection of the window size about the origin. The camera viewport set in `handle_resize` is not modelled.
- Floating-point arithmetic is modelled as exact real arithmetic, so rounding is not modelled.
- Python's truthiness is modelled only where the core relies on it: `x or y` falls back on 0 or `None`.
- Mammal steering is left out: angles, turning, wandering, targets, fields of view and travel distance. A move takes the resulting unit direction as input.
- The shared frame time `Mammal.simulation_delta_time` is a `dt` parameter.
- `Smartie` is left out. Its constructor passes three arguments to `Mammal.__init__`, which takes two, so no Smartie can be built.
- The prototype's environment loop (`CreatureSimulation`) is not part of this model. It composes the members above with rendering and agents.
- ProtoPlant.NewPlant: requires the stage to be in 0..3. Python's negative indexing and the IndexError for larger stages are not modelled; the prototype only ever passes `None` or 0.
- SpriteBook.Lower: only ASCII letters are lower-cased, whereas Python's `str.lower` also folds non-ASCII letters.
- CameraControl.ApplyZoom, HandleDrag, HandleResize and ClampPosition require a camera, and UpdatePanning requires one whenever the pan delta is non-zero. In Python, calling them before `setup` raises `AttributeError` on `None`; the input controller's camera mode checks for a camera before it pans.
- CameraControl.ZoomFloor, UpdateMinZoom and Setup require non-zero padded map extents. A padded width or height of zero makes Python raise `ZeroDivisionError`, and that error path is not modelled.
- `handle_resize` reads the window size after the window's own resize handler has stored it. `src/sim_window.py` is not part of this model, so HandleResize takes the new size as arguments and stores it itself.
- Python default arguments are not modelled; callers pass every argument explicitly. This covers `delta_time=1/60` on the plant's update, grow and reproduce, `growth_level=1` on the plant constructor, `scale=1.0` and `y_up=True` on the sprite helpers, and the ignored `amount` of `zoom_in`/`zoom_out`.

Behaviour worth knowing, modelled as the code has it:

- A missing texture keeps the level but still sets `full_grown`, so the flag can run ahead of the level.
- The input controller holds a single current mode; `set_mode` replaces it outright.
- `CameraMode`'s doc-comment swaps the zoom keys. The model follows the code, which zooms in on X and out on Z.

## Findings

| source | as written | input that shows it | evidently intended | confidence | as-written member | corrected member |
|---|---|---|---|---|---|---|
| src/inspiration/ev4.py:43-59 | `zoom_at_point` changes `self.zoom` first, then calls `screen_to_world`, so the cursor's "world position before zoom" is computed with the new zoom | initial camera (800×600 screen, zoom 1, centre (1200, 900)), zoom in about pixel (0, 0): the world x under that pixel goes from 800 to 97200/121 ≈ 803.3 | convert the anchor with the old zoom, so the world point under the cursor stays put | high, not executed | ProtoCamera.ZoomAtPointAsWritten | ProtoCamera.ZoomAtPoint |

The program's own `zoom_in` and `zoom_out` call the step as written, so ProtoCamera.ZoomIn, ZoomOut and ZoomSteps use ZoomAtPointAsWritten. The prototype's callers pass no point, and without one the two steps agree (ProtoCamera.ZoomWithoutPointAgrees), so the drift never shows in the prototype as it stands.
