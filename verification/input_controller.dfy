/**
 Input dispatch: the window forwards raw key and mouse events to an input
 controller, which records them in an input state and hands them to its one
 current mode. The base mode handles nothing; the camera mode turns events
 into camera commands. Whether a handler consumed an event is reported but
 never acted on, and there is no stack of modes.
 */
module InputDispatch {
  import opened Numeric
  import CameraControl

  /** arcade key codes of the zoom keys. */
  const KeyX: int := 120
  const KeyZ: int := 122

  datatype InputState = InputState(
    pressedKeys: set<int>,
    mouseButtons: set<int>,
    mouseX: int,
    mouseY: int,
    modifiers: int)

  /** The input modes: the base mode, and the camera mode driving the camera controller. */
  datatype Mode = BaseMode | CameraMode

  /** A call a mode makes on the camera controller. */
  datatype Command =
    | ZoomIn                          // apply_zoom("in")
    | ZoomOut                         // apply_zoom("out")
    | Drag(dx: int, dy: int)          // handle_drag(dx, dy)
    | Pan(keys: set<int>, dt: real)   // update_panning(keys, dt)

  /** A handler's answer: whether it consumed the event, and the camera call it made, if any. */
  datatype Response = Response(consumed: bool, command: Option<Command>)

  /** A call of a mode's `on_enter` or `on_exit` hook. */
  datatype HookCall = Enter(entered: Mode) | Exit(exited: Mode)

  datatype InputController = InputController(state: InputState, mode: Mode, cameraController: CameraControl.Controller)

  /** `InputState()`: nothing pressed, the mouse at the origin, no modifiers. */
  const EmptyState: InputState := InputState({}, {}, 0, 0, 0)

  /** `on_key_press`. The camera mode zooms in on X and out on Z (the
      reverse of what its doc-comment says) and consumes every key while the
      controller has no camera yet. */
  function OnKeyPress(mode: Mode, hasCamera: bool, key: int): (r: Response)
    ensures mode == BaseMode ==> r == Response(false, None)
    ensures mode == CameraMode && !hasCamera ==> r == Response(true, None)
    ensures mode == CameraMode && hasCamera ==>
              && (key == KeyX ==> r == Response(true, Some(ZoomIn)))
              && (key == KeyZ ==> r == Response(true, Some(ZoomOut)))
              && (key != KeyX && key != KeyZ ==> r == Response(false, None))
  {
    match mode
    case BaseMode => Response(false, None)
    case CameraMode =>
      if !hasCamera then Response(true, None)
      else if key == KeyX then Response(true, Some(ZoomIn))
      else if key == KeyZ then Response(true, Some(ZoomOut))
      else Response(false, None)
  }

  /** `on_key_release`: no mode overrides the base handler. */
  function OnKeyRelease(mode: Mode, key: int): (r: Response)
    ensures r == Response(false, None)
  {
    Response(false, None)
  }

  /** `on_mouse_drag`: the camera mode drags the camera once by the delta. */
  function OnMouseDrag(mode: Mode, hasCamera: bool, dx: int, dy: int): (r: Response)
    ensures mode == BaseMode ==> r == Response(false, None)
    ensures mode == CameraMode ==> r.consumed
    ensures r.command.Some? <==> mode == CameraMode && hasCamera
    ensures r.command.Some? ==> r.command.value == Drag(dx, dy)
  {
    match mode
    case BaseMode => Response(false, None)
    case CameraMode => if !hasCamera then Response(true, None) else Response(true, Some(Drag(dx, dy)))
  }

  /** `on_mouse_scroll`: scrolling up zooms in, down zooms out, a zero
      scroll does nothing; the camera mode consumes every scroll. */
  function OnMouseScroll(mode: Mode, hasCamera: bool, scrollY: int): (r: Response)
    ensures mode == BaseMode ==> r == Response(false, None)
    ensures mode == CameraMode ==> r.consumed
    ensures r.command.Some? <==> mode == CameraMode && hasCamera && scrollY != 0
    ensures r.command.Some? ==> r.command.value == (if scrollY > 0 then ZoomIn else ZoomOut)
  {
    match mode
    case BaseMode => Response(false, None)
    case CameraMode =>
      if !hasCamera then Response(true, None)
      else if scrollY > 0 then Response(true, Some(ZoomIn))
      else if scrollY < 0 then Response(true, Some(ZoomOut))
      else Response(true, None)
  }

  /** A mode's `update`: the camera mode pans with the keys currently held. */
  function OnUpdate(mode: Mode, hasCamera: bool, dt: real, state: InputState): (r: Option<Command>)
    ensures r.Some? <==> mode == CameraMode && hasCamera
    ensures r.Some? ==> r.value == Pan(state.pressedKeys, dt)
  {
    if mode == CameraMode && hasCamera then Some(Pan(state.pressedKeys, dt)) else None
  }

  /** Carry out a camera command on the controller. */
  function Execute(c: CameraControl.Controller, cmd: Command): (r: CameraControl.Controller)
    requires CameraControl.Valid(c) && c.camera.Some?
    ensures CameraControl.Valid(r)
    ensures r.camera.Some?
    ensures cmd == ZoomIn ==> r == CameraControl.ApplyZoom(c, "in").value
    ensures cmd == ZoomOut ==> r == CameraControl.ApplyZoom(c, "out").value
    ensures cmd.Drag? ==> r == CameraControl.HandleDrag(c, cmd.dx as real, cmd.dy as real)
    ensures cmd.Pan? ==> r == CameraControl.UpdatePanning(c, cmd.keys, cmd.dt)
  {
    match cmd
    case ZoomIn =>
      CameraControl.ApplyZoom(c, "in").value
    case ZoomOut =>
      CameraControl.ApplyZoom(c, "out").value
    case Drag(dx, dy) =>
      CameraControl.HandleDrag(c, dx as real, dy as real)
    case Pan(keys, dt) =>
      CameraControl.UpdatePanning(c, keys, dt)
  }

  predicate HasCamera(ic: InputController) {
    ic.cameraController.camera.Some?
  }

  /** `_dispatch`: apply the handler's camera call, if any, and discard the
      consumed flag. */
  function Dispatch(ic: InputController, command: Option<Command>): (r: InputController)
    requires CameraControl.Valid(ic.cameraController)
    requires command.Some? ==> HasCamera(ic)
    ensures r.state == ic.state && r.mode == ic.mode
    ensures CameraControl.Valid(r.cameraController)
    ensures command.None? ==> r == ic
    ensures command.Some? ==> r.cameraController == Execute(ic.cameraController, command.value)
  {
    match command
    case None => ic
    case Some(cmd) => ic.(cameraController := Execute(ic.cameraController, cmd))
  }

  /** The controller keeps a valid camera controller between events. */
  predicate Valid(ic: InputController) {
    CameraControl.Valid(ic.cameraController)
  }

  /** `InputController.__init__`: an empty input state and the default mode,
      whose `on_enter` hook is called once. */
  function NewInputController(defaultMode: Mode, camera: CameraControl.Controller): (r: (InputController, seq<HookCall>))
    ensures r.0.state == EmptyState && r.0.mode == defaultMode && r.0.cameraController == camera
    ensures r.1 == [Enter(defaultMode)]
  {
    (InputController(EmptyState, defaultMode, camera), [Enter(defaultMode)])
  }

  /** `set_mode`: the old mode's `on_exit`, the switch, then the new mode's
      `on_enter`; the new mode replaces the old one outright. */
  function SetMode(ic: InputController, mode: Mode): (r: (InputController, seq<HookCall>))
    ensures r.0 == ic.(mode := mode)
    ensures r.1 == [Exit(ic.mode), Enter(mode)]
  {
    (ic.(mode := mode), [Exit(ic.mode), Enter(mode)])
  }

  /** Switching to a mode and back restores the controller. */
  lemma SetModeBackRestores(ic: InputController, mode: Mode)
    ensures SetMode(SetMode(ic, mode).0, ic.mode).0 == ic
    ensures SwitchModes(ic, [mode, ic.mode]) == (ic, [Exit(ic.mode), Enter(mode), Exit(mode), Enter(ic.mode)])
  {
    var ms := [mode, ic.mode];
    var s1 := SetMode(ic, mode);
    var s2 := SetMode(s1.0, ic.mode);
    assert ms[1..] == [ic.mode] && [ic.mode][1..] == [];
    assert s2.0 == ic && s2.1 + [] == s2.1;
    assert SwitchModes(s2.0, []) == (ic, []);
    assert SwitchModes(s1.0, [ic.mode]) == (ic, s2.1);
    assert SwitchModes(ic, ms) == (ic, s1.1 + s2.1);
    assert s1.1 + s2.1 == [Exit(ic.mode), Enter(mode), Exit(mode), Enter(ic.mode)];
  }

  /** `set_mode` called once per entry of `modes`, collecting the hook calls. */
  function SwitchModes(ic: InputController, modes: seq<Mode>): (r: (InputController, seq<HookCall>))
    decreases |modes|
  {
    if |modes| == 0 then (ic, [])
    else
      var step := SetMode(ic, modes[0]);
      var rest := SwitchModes(step.0, modes[1..]);
      (rest.0, step.1 + rest.1)
  }

  /** A run of mode switches leaves the last mode current and nothing else
      changed, and its hook log alternates: the i-th switch exits the mode
      that was current and enters `modes[i]`. */
  lemma {:induction false} SwitchModesLog(ic: InputController, modes: seq<Mode>)
    ensures var r := SwitchModes(ic, modes);
            && r.0 == ic.(mode := if |modes| == 0 then ic.mode else modes[|modes| - 1])
            && |r.1| == 2 * |modes|
            && (forall i :: 0 <= i < |modes| ==> r.1[2 * i + 1] == Enter(modes[i]))
            && (forall i :: 0 <= i < |modes| ==> r.1[2 * i] == Exit(if i == 0 then ic.mode else modes[i - 1]))
    decreases |modes|
  {
    if |modes| > 0 {
      var step := SetMode(ic, modes[0]);
      var tail := modes[1..];
      SwitchModesLog(step.0, tail);
      var rest := SwitchModes(step.0, tail);
      var log := step.1 + rest.1;
      assert SwitchModes(ic, modes) == (rest.0, log);
      forall i | 0 <= i < |modes|
        ensures log[2 * i + 1] == Enter(modes[i])
        ensures log[2 * i] == Exit(if i == 0 then ic.mode else modes[i - 1])
      {
        if i > 0 {
          assert log[2 * i + 1] == rest.1[2 * (i - 1) + 1];
          assert log[2 * i] == rest.1[2 * (i - 1)];
          assert tail[i - 1] == modes[i];
          if i > 1 {
            assert tail[i - 2] == modes[i - 1];
          }
        }
      }
    }
  }

  /** In a switch log, exits sit at the even positions and enters at the odd ones. */
  lemma HookParity(start: Mode, modes: seq<Mode>, hooks: seq<HookCall>)
    requires |hooks| == 2 * |modes|
    requires forall i :: 0 <= i < |modes| ==> hooks[2 * i + 1] == Enter(modes[i])
    requires forall i :: 0 <= i < |modes| ==> hooks[2 * i] == Exit(if i == 0 then start else modes[i - 1])
    ensures forall j :: 0 <= j < |hooks| ==> (hooks[j].Exit? <==> j % 2 == 0)
  {
    forall j | 0 <= j < |hooks|
      ensures hooks[j].Exit? <==> j % 2 == 0
    {
      var i := j / 2;
      if j % 2 == 0 {
        assert hooks[2 * i] == Exit(if i == 0 then start else modes[i - 1]);
      } else {
        assert hooks[2 * i + 1] == Enter(modes[i]);
      }
    }
  }

  /** From construction on, every `on_exit` call is immediately preceded by
      the `on_enter` call of the same mode: hooks come in matched pairs. */
  lemma HooksPairUp(defaultMode: Mode, camera: CameraControl.Controller, modes: seq<Mode>)
    ensures var init := NewInputController(defaultMode, camera);
            var log := init.1 + SwitchModes(init.0, modes).1;
            forall k :: 0 < k < |log| && log[k].Exit? ==> log[k - 1] == Enter(log[k].exited)
  {
    var init := NewInputController(defaultMode, camera);
    SwitchModesLog(init.0, modes);
    var hooks := SwitchModes(init.0, modes).1;
    HookParity(defaultMode, modes, hooks);
    var log := init.1 + hooks;
    forall k | 0 < k < |log| && log[k].Exit?
      ensures log[k - 1] == Enter(log[k].exited)
    {
      var j := k - 1;
      assert log[k] == hooks[j];
      assert hooks[j].Exit?;
      var i := j / 2;
      assert j == 2 * i;
      if i > 0 {
        assert hooks[2 * (i - 1) + 1] == Enter(modes[i - 1]);
      }
    }
  }

  /** `on_key_press`: record the modifiers and the key, then dispatch. */
  function KeyPress(ic: InputController, key: int, modifiers: int): (r: InputController)
    requires Valid(ic)
    ensures Valid(r) && r.mode == ic.mode
    ensures r.state == ic.state.(pressedKeys := ic.state.pressedKeys + {key}, modifiers := modifiers)
    ensures key in r.state.pressedKeys
    ensures r.cameraController == Dispatch(ic, OnKeyPress(ic.mode, HasCamera(ic), key).command).cameraController
  {
    var st := ic.state.(modifiers := modifiers, pressedKeys := ic.state.pressedKeys + {key});
    var ic1 := ic.(state := st);
    Dispatch(ic1, OnKeyPress(ic.mode, HasCamera(ic), key).command)
  }

  /** `on_key_release`: record the modifiers and drop the key (absent or
      not), then dispatch. */
  function KeyRelease(ic: InputController, key: int, modifiers: int): (r: InputController)
    requires Valid(ic)
    ensures Valid(r) && r.mode == ic.mode
    ensures r.state == ic.state.(pressedKeys := ic.state.pressedKeys - {key}, modifiers := modifiers)
    ensures key !in r.state.pressedKeys
    ensures r.cameraController == ic.cameraController
  {
    var st := ic.state.(modifiers := modifiers, pressedKeys := ic.state.pressedKeys - {key});
    Dispatch(ic.(state := st), OnKeyRelease(ic.mode, key).command)
  }

  /** `on_mouse_drag`: record the mouse position and modifiers, then dispatch. */
  function MouseDrag(ic: InputController, x: int, y: int, dx: int, dy: int, buttons: int, modifiers: int): (r: InputController)
    requires Valid(ic)
    ensures Valid(r) && r.mode == ic.mode
    ensures r.state == ic.state.(mouseX := x, mouseY := y, modifiers := modifiers)
    ensures ic.mode == CameraMode && HasCamera(ic) ==>
              r.cameraController == CameraControl.HandleDrag(ic.cameraController, dx as real, dy as real)
    ensures !(ic.mode == CameraMode && HasCamera(ic)) ==> r.cameraController == ic.cameraController
  {
    var st := ic.state.(mouseX := x, mouseY := y, modifiers := modifiers);
    Dispatch(ic.(state := st), OnMouseDrag(ic.mode, HasCamera(ic), dx, dy).command)
  }

  /** `on_mouse_scroll`: record the mouse position (the modifiers are left
      alone), then dispatch. */
  function MouseScroll(ic: InputController, x: int, y: int, scrollX: int, scrollY: int): (r: InputController)
    requires Valid(ic)
    ensures Valid(r) && r.mode == ic.mode
    ensures r.state == ic.state.(mouseX := x, mouseY := y)
    ensures r.cameraController == Dispatch(ic, OnMouseScroll(ic.mode, HasCamera(ic), scrollY).command).cameraController
  {
    var st := ic.state.(mouseX := x, mouseY := y);
    Dispatch(ic.(state := st), OnMouseScroll(ic.mode, HasCamera(ic), scrollY).command)
  }

  /** `update`: the current mode's update with the recorded input state. */
  function Update(ic: InputController, dt: real): (r: InputController)
    requires Valid(ic)
    ensures Valid(r) && r.mode == ic.mode && r.state == ic.state
    ensures ic.mode == CameraMode && HasCamera(ic) ==>
              r.cameraController == CameraControl.UpdatePanning(ic.cameraController, ic.state.pressedKeys, dt)
    ensures !(ic.mode == CameraMode && HasCamera(ic)) ==> r == ic
  {
    Dispatch(ic, OnUpdate(ic.mode, HasCamera(ic), dt, ic.state))
  }

  /** In camera mode, pressing X zooms in and pressing Z zooms out. */
  lemma ZoomKeys(ic: InputController, modifiers: int)
    requires Valid(ic) && ic.mode == CameraMode && HasCamera(ic)
    ensures KeyPress(ic, KeyX, modifiers).cameraController == CameraControl.ApplyZoom(ic.cameraController, "in").value
    ensures KeyPress(ic, KeyZ, modifiers).cameraController == CameraControl.ApplyZoom(ic.cameraController, "out").value
  {
  }

  /** In camera mode, scrolling up zooms in, scrolling down zooms out and a
      zero scroll leaves the camera alone. */
  lemma ScrollZooms(ic: InputController, x: int, y: int, scrollX: int, scrollY: int)
    requires Valid(ic) && ic.mode == CameraMode && HasCamera(ic)
    ensures scrollY > 0 ==> MouseScroll(ic, x, y, scrollX, scrollY).cameraController == CameraControl.ApplyZoom(ic.cameraController, "in").value
    ensures scrollY < 0 ==> MouseScroll(ic, x, y, scrollX, scrollY).cameraController == CameraControl.ApplyZoom(ic.cameraController, "out").value
    ensures scrollY == 0 ==> MouseScroll(ic, x, y, scrollX, scrollY).cameraController == ic.cameraController
  {
  }

  /** In the base mode, or before the camera exists, events only touch the
      input state: the camera controller never changes. */
  lemma InertWithoutCamera(ic: InputController, key: int, modifiers: int, x: int, y: int, dx: int, dy: int, dt: real)
    requires Valid(ic) && (ic.mode == BaseMode || !HasCamera(ic))
    ensures KeyPress(ic, key, modifiers).cameraController == ic.cameraController
    ensures MouseDrag(ic, x, y, dx, dy, 0, modifiers).cameraController == ic.cameraController
    ensures MouseScroll(ic, x, y, dx, dy).cameraController == ic.cameraController
    ensures Update(ic, dt) == ic
  {
  }

  /** A key pressed and released again, with no event in between, leaves
      the pressed set as it was when the key was not held before. */
  lemma PressReleaseRestoresKeys(ic: InputController, key: int, modifiers: int)
    requires Valid(ic) && key !in ic.state.pressedKeys
    ensures KeyRelease(KeyPress(ic, key, modifiers), key, modifiers).state.pressedKeys == ic.state.pressedKeys
  {
  }
}
