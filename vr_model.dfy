/** The state that the BlockifyVR extension keeps in its module-level
    variables, as one value, together with the events that change it and
    the reporter blocks that read it back.

    The headset and controller hardware, A-Frame and three.js are outside
    the model: what they deliver (positions, rotations, thumbstick axes,
    viewer poses) arrives as the payload of an `Event`. */
module VRModel {
  import opened JsValues
  import opened Matrix4

  datatype Hand = Left | Right

  /** The ten buttons the two controller managers listen to: trigger,
      thumbstick and grip on both hands, A and B on the right, X and Y on
      the left. */
  datatype Button =
    | LeftTrigger | RightTrigger | LeftGrip | RightGrip
    | A | B | X | Y
    | LeftThumbstick | RightThumbstick

  datatype Device = Headset | LeftController | RightController

  datatype Axis = AxisX | AxisY | AxisZ

  datatype Vec3 = Vec3(x: real, y: real, z: real)

  /** What `logThumbstick` stores for one hand: the two axes and the
      direction in degrees (computed by the host with atan2). */
  datatype Thumbstick = Thumbstick(x: real, y: real, direction: real)

  /** An XRRigidTransform: its matrix and the matrix of its inverse. */
  datatype RigidTransform = RigidTransform(matrix: Mat4, inverse: Mat4)

  /** The first view of an XRViewerPose. */
  datatype ViewerPose = ViewerPose(projection: Mat4, transform: RigidTransform)

  /** Calls into the host runtime, recorded in order. */
  datatype Effect =
    | StartHats(opcode: string)
    | SetStageSize(width: real, height: real)

  const AnyButtonHat: string := "blockifyvr_whenAnyButtonPressed"

  /** The value `lastButtonPressed` takes for a button, which is also the
      button's entry in the `buttonMenu` menu. */
  function ButtonLabel(b: Button): string
  {
    match b
    case LeftTrigger => "left trigger"
    case RightTrigger => "right trigger"
    case LeftGrip => "left grip"
    case RightGrip => "right grip"
    case A => "A"
    case B => "B"
    case X => "X"
    case Y => "Y"
    case LeftThumbstick => "left thumbstick"
    case RightThumbstick => "right thumbstick"
  }

  /** The `controllerMenu` entry for a hand. */
  function ControllerLabel(h: Hand): string
  {
    match h
    case Left => "left controller"
    case Right => "right controller"
  }

  function HandNamed(name: string): (r: Option<Hand>)
    ensures forall h :: name == ControllerLabel(h) ==> r == Some(h)
    ensures r.Some? ==> name == ControllerLabel(r.value)
  {
    if name == "left controller" then Some(Left)
    else if name == "right controller" then Some(Right)
    else None
  }

  function ButtonNamed(name: string): (r: Option<Button>)
    ensures forall b :: name == ButtonLabel(b) ==> r == Some(b)
    ensures r.Some? ==> name == ButtonLabel(r.value)
  {
    match name
    case "left trigger" => Some(LeftTrigger)
    case "right trigger" => Some(RightTrigger)
    case "left grip" => Some(LeftGrip)
    case "right grip" => Some(RightGrip)
    case "A" => Some(A)
    case "B" => Some(B)
    case "X" => Some(X)
    case "Y" => Some(Y)
    case "left thumbstick" => Some(LeftThumbstick)
    case "right thumbstick" => Some(RightThumbstick)
    case _ => None
  }

  function ControllerDevice(h: Hand): Device
  {
    match h
    case Left => LeftController
    case Right => RightController
  }

  /** The `deviceMenu` entry for a device, and back. */
  function DeviceLabel(d: Device): string
  {
    match d
    case Headset => "headset"
    case LeftController => "left controller"
    case RightController => "right controller"
  }

  function DeviceNamed(name: string): (r: Option<Device>)
    ensures forall d :: name == DeviceLabel(d) ==> r == Some(d)
    ensures r.Some? ==> name == DeviceLabel(r.value)
  {
    if name == "headset" then Some(Headset)
    else if name == "left controller" then Some(LeftController)
    else if name == "right controller" then Some(RightController)
    else None
  }

  /** The `positionMenu` and `rotationMenu` entries for an axis, and back. */
  function PositionLabel(a: Axis): string
  {
    match a
    case AxisX => "x-position"
    case AxisY => "y-position"
    case AxisZ => "z-position"
  }

  function RotationLabel(a: Axis): string
  {
    match a
    case AxisX => "x-rotation"
    case AxisY => "y-rotation"
    case AxisZ => "z-rotation"
  }

  function PositionAxis(name: string): (r: Option<Axis>)
    ensures forall a :: name == PositionLabel(a) ==> r == Some(a)
    ensures r.Some? ==> name == PositionLabel(r.value)
  {
    if name == "x-position" then Some(AxisX)
    else if name == "y-position" then Some(AxisY)
    else if name == "z-position" then Some(AxisZ)
    else None
  }

  function RotationAxis(name: string): (r: Option<Axis>)
    ensures forall a :: name == RotationLabel(a) ==> r == Some(a)
    ensures r.Some? ==> name == RotationLabel(r.value)
  {
    if name == "x-rotation" then Some(AxisX)
    else if name == "y-rotation" then Some(AxisY)
    else if name == "z-rotation" then Some(AxisZ)
    else None
  }

  function Coord(v: Vec3, a: Axis): real
  {
    match a
    case AxisX => v.x
    case AxisY => v.y
    case AxisZ => v.z
  }

  /** How far a stick is pushed toward a `cardinalDirection` menu entry
      (the axis, negated for down and left); no value for other names. */
  function Deflection(stick: Thumbstick, direction: string): Option<real>
  {
    if direction == "up" then Some(stick.y)
    else if direction == "down" then Some(-stick.y)
    else if direction == "left" then Some(-stick.x)
    else if direction == "right" then Some(stick.x)
    else None
  }

  const StickThreshold: real := 0.95

  /** `undefined > c` and `undefined < c` are false in JavaScript. */
  function Above(v: Option<real>, c: real): bool { v.Some? && v.value > c }
  function Below(v: Option<real>, c: real): bool { v.Some? && v.value < c }

  /** What `item [ITEM] of [MATRIX] matrix` reports: the empty string or a
      number. */
  datatype MatrixItem = Blank | Number(value: real)

  /** `v || 0` for a number that may be undefined: undefined and 0 give 0. */
  function OrZero(v: Option<real>): real
  {
    if v.Some? && v.value != 0.0 then v.value else 0.0
  }

  /** `m[i]` on a JavaScript array: undefined outside the indices. */
  function ElementAt(m: seq<real>, i: int): Option<real>
  {
    if 0 <= i < |m| then Some(m[i]) else None
  }

  /** The extension's module-level variables. A key missing from `pressed`,
      `connected`, `thumbstick`, `position` or `rotation` is a variable that
      is still `undefined`. */
  datatype VRState = VRState(
    initialStageWidth: real,
    initialStageHeight: real,
    inVR: bool,
    pressed: map<Button, bool>,
    connected: map<Hand, bool>,
    lastButtonPressed: Option<string>,
    thumbstick: map<Hand, Thumbstick>,
    position: map<Device, Vec3>,
    rotation: map<Device, Vec3>,
    projection: Option<Mat4>,
    transform: Option<RigidTransform>,
    combined: Option<Mat4>,
    effects: seq<Effect>)
  {
    function Pressed(b: Button): Option<bool>
    {
      if b in pressed then Some(pressed[b]) else None
    }

    function Connected(h: Hand): Option<bool>
    {
      if h in connected then Some(connected[h]) else None
    }

    /** The `controllerConnected` block: the hand's flag for the two menu
        entries, undefined for any other name. */
    function IsControllerConnected(controller: string): (r: Option<bool>)
      ensures forall h :: controller == ControllerLabel(h) ==> r == Connected(h)
      ensures HandNamed(controller).None? ==> r == None
    {
      if controller == "left controller" then Connected(Left)
      else if controller == "right controller" then Connected(Right)
      else None
    }

    /** The `isButtonPressed` block, test for test. Its fifth test repeats
        the first ("left trigger") and can never be reached. */
    function IsButtonPressed(button: string): (r: Option<bool>)
      ensures forall b :: button == ButtonLabel(b) ==> r == Pressed(b)
      ensures ButtonNamed(button).None? ==> r == None
    {
      if button == "left trigger" then Pressed(LeftTrigger)
      else if button == "right trigger" then Pressed(RightTrigger)
      else if button == "left grip" then Pressed(LeftGrip)
      else if button == "right grip" then Pressed(RightGrip)
      else if button == "left trigger" then assert false; None
      else if button == "left thumbstick" then Pressed(LeftThumbstick)
      else if button == "right thumbstick" then Pressed(RightThumbstick)
      else if button == "A" then Pressed(A)
      else if button == "B" then Pressed(B)
      else if button == "X" then Pressed(X)
      else if button == "Y" then Pressed(Y)
      else None
    }

    /** The `positionOf` block. Its nine tests (one per axis and device)
        are mutually exclusive, so reading the two menu values and then the
        copied vector is the same thing. */
    function PositionOf(axis: string, device: string): (r: Option<real>)
      ensures r.Some? ==> PositionAxis(axis).Some? && DeviceNamed(device).Some?
      ensures forall a, d :: axis == PositionLabel(a) && device == DeviceLabel(d) ==>
        r == (if d in position then Some(Coord(position[d], a)) else None)
    {
      match (PositionAxis(axis), DeviceNamed(device))
      case (Some(a), Some(d)) => if d in position then Some(Coord(position[d], a)) else None
      case _ => None
    }

    /** The `rotationOf` block, likewise. */
    function RotationOf(axis: string, device: string): (r: Option<real>)
      ensures r.Some? ==> RotationAxis(axis).Some? && DeviceNamed(device).Some?
      ensures forall a, d :: axis == RotationLabel(a) && device == DeviceLabel(d) ==>
        r == (if d in rotation then Some(Coord(rotation[d], a)) else None)
    {
      match (RotationAxis(axis), DeviceNamed(device))
      case (Some(a), Some(d)) => if d in rotation then Some(Coord(rotation[d], a)) else None
      case _ => None
    }

    function StickX(h: Hand): Option<real>
    {
      if h in thumbstick then Some(thumbstick[h].x) else None
    }

    function StickY(h: Hand): Option<real>
    {
      if h in thumbstick then Some(thumbstick[h].y) else None
    }

    /** The `thumbstickDirection` block: x, y or direction of a hand's
        stick, undefined for other names or before the stick has moved. */
    function ThumbstickValue(value: string, controller: string): (r: Option<real>)
      ensures forall h :: controller == ControllerLabel(h) && h in thumbstick ==>
        && (value == "x value" ==> r == Some(thumbstick[h].x))
        && (value == "y value" ==> r == Some(thumbstick[h].y))
        && (value == "direction" ==> r == Some(thumbstick[h].direction))
      ensures forall h :: controller == ControllerLabel(h) && h !in thumbstick ==> r == None
      ensures r.Some? ==> value in {"x value", "y value", "direction"}
      ensures HandNamed(controller).None? ==> r == None
    {
      if value == "x value" && controller == "left controller" then StickX(Left)
      else if value == "y value" && controller == "left controller" then StickY(Left)
      else if value == "direction" && controller == "left controller" then
        (if Left in thumbstick then Some(thumbstick[Left].direction) else None)
      else if value == "x value" && controller == "right controller" then StickX(Right)
      else if value == "y value" && controller == "right controller" then StickY(Right)
      else if value == "direction" && controller == "right controller" then
        (if Right in thumbstick then Some(thumbstick[Right].direction) else None)
      else None
    }

    function StickBeyond(h: Hand, direction: string): bool
    {
      if Above(StickY(h), StickThreshold) && direction == "up" then true
      else if Below(StickY(h), -StickThreshold) && direction == "down" then true
      else if Below(StickX(h), -StickThreshold) && direction == "left" then true
      else if Above(StickX(h), StickThreshold) && direction == "right" then true
      else false
    }

    /** The `isThumbstickDirection` block: true exactly when the stick is
        pushed strictly beyond 0.95 toward the named direction, false
        otherwise (also before the stick has moved), undefined for a name
        that is not on the controller menu. */
    function IsThumbstickDirection(controller: string, direction: string): (r: Option<bool>)
      ensures r.None? <==> HandNamed(controller).None?
      ensures forall h :: controller == ControllerLabel(h) ==>
        (r == Some(true) <==>
           h in thumbstick && Deflection(thumbstick[h], direction).Some?
           && Deflection(thumbstick[h], direction).value > StickThreshold)
    {
      if controller == "left controller" then Some(StickBeyond(Left, direction))
      else if controller == "right controller" then Some(StickBeyond(Right, direction))
      else None
    }

    /** The matrix a `matrix` menu entry names, if it has been set. */
    function SelectMatrix(name: string): Option<Mat4>
    {
      if name == "combined" then combined
      else if name == "projection" then projection
      else if name == "view" then (if transform.Some? then Some(transform.value.matrix) else None)
      else if name == "inverse view" then (if transform.Some? then Some(transform.value.inverse) else None)
      else None
    }

    /** The `getMatrix` block as written. Its range guard `item < 1 &&
        item > 16` holds for no item, so the empty string is never
        reported; an item outside 1..16 reads undefined and reports 0. */
    function GetMatrix(itemArg: real, name: string): (r: MatrixItem)
      ensures r != Blank
      ensures var item := ToInt32(itemArg);
              var m := SelectMatrix(name);
              r == Number(if m.Some? && 1 <= item <= 16 then m.value[item - 1] else 0.0)
    {
      var item := ToInt32(itemArg);
      if item < 1 && item > 16 then Blank
      else
        var matrix := SelectMatrix(name);
        if matrix.None? then Number(0.0)
        else Number(OrZero(ElementAt(matrix.value, item - 1)))
    }

    /** `getMatrix` with the range guard it evidently means (`item < 1 ||
        item > 16`): the empty string for an item outside 1..16. */
    function GetMatrixGuarded(itemArg: real, name: string): (r: MatrixItem)
      ensures r == Blank <==> !(1 <= ToInt32(itemArg) <= 16)
      ensures r != Blank ==> r == GetMatrix(itemArg, name)
    {
      var item := ToInt32(itemArg);
      if item < 1 || item > 16 then Blank
      else
        var matrix := SelectMatrix(name);
        if matrix.None? then Number(0.0)
        else Number(OrZero(ElementAt(matrix.value, item - 1)))
    }
  }

  /** The variables as the extension declares them. Of the pressed and
      connected flags only `leftGripPressed`, `yButtonPressed` and
      `leftControllerConnected` get `false`: in `let a, b = false` only the
      last name is initialised. */
  function Initial(stageWidth: real, stageHeight: real): (s: VRState)
    ensures !s.inVR && s.lastButtonPressed == None && s.effects == []
    ensures forall b :: s.IsButtonPressed(ButtonLabel(b))
                        == (if b == LeftGrip || b == Y then Some(false) else None)
    ensures s.IsControllerConnected("left controller") == Some(false)
    ensures s.IsControllerConnected("right controller") == None
    ensures s.combined == None && s.projection == None && s.transform == None
    ensures forall axis, device :: s.PositionOf(axis, device) == None && s.RotationOf(axis, device) == None
    ensures forall value, controller :: s.ThumbstickValue(value, controller) == None
  {
    VRState(stageWidth, stageHeight, false,
            map[LeftGrip := false, Y := false], map[Left := false], None,
            map[], map[], map[], None, None, None, [])
  }

  /** Everything that changes the variables: the controller managers'
      listeners and ticks, the camera logger's tick, the `pose-matrices`
      tick and the scene's `enter-vr` and `exit-vr` listeners. */
  datatype Event =
    | Down(button: Button)
    | Up(button: Button)
    | Connect(hand: Hand)
    | Disconnect(hand: Hand)
    | StickMoved(hand: Hand, stick: Thumbstick)
    | ControllerTick(hand: Hand, rotation: Vec3, position: Vec3)
    | CameraTick(rotation: Vec3, position: Vec3)
    | PoseTick(hasRefSpace: bool, pose: Option<ViewerPose>)
    | EnterVR
    | ExitVR

  /** What one event does to the variables. */
  function Step(s: VRState, e: Event): VRState
  {
    match e
    case Down(b) =>
      s.(pressed := s.pressed[b := true],
         lastButtonPressed := Some(ButtonLabel(b)),
         effects := s.effects + [StartHats(AnyButtonHat)])
    case Up(b) => s.(pressed := s.pressed[b := false])
    case Connect(h) => s.(connected := s.connected[h := true])
    case Disconnect(h) => s.(connected := s.connected[h := false])
    case StickMoved(h, stick) => s.(thumbstick := s.thumbstick[h := stick])
    case ControllerTick(h, rot, pos) =>
      s.(rotation := s.rotation[ControllerDevice(h) := rot],
         position := s.position[ControllerDevice(h) := pos])
    case CameraTick(rot, pos) =>
      s.(rotation := s.rotation[Headset := rot], position := s.position[Headset := pos])
    case PoseTick(hasRefSpace, pose) =>
      if s.inVR && hasRefSpace && pose.Some? then
        s.(projection := Some(pose.value.projection),
           transform := Some(pose.value.transform),
           combined := Some(Combine(pose.value.transform.inverse, pose.value.projection)))
      else s
    case EnterVR =>
      s.(inVR := true,
         effects := s.effects + [SetStageSize(s.initialStageWidth, s.initialStageHeight)])
    case ExitVR =>
      s.(inVR := false,
         effects := s.effects + [SetStageSize(s.initialStageWidth, s.initialStageHeight)])
  }

  /** The variables after a sequence of events, in order. */
  function Run(s: VRState, es: seq<Event>): VRState
    decreases |es|
  {
    if es == [] then s else Step(Run(s, es[..|es| - 1]), es[|es| - 1])
  }

  /** The button of the last `Down` event, if any. */
  function LastDown(es: seq<Event>): Option<Button>
    decreases |es|
  {
    if es == [] then None
    else if es[|es| - 1].Down? then Some(es[|es| - 1].button)
    else LastDown(es[..|es| - 1])
  }

  /** Whether the last `Down` or `Up` event of a button was a `Down`. */
  function LastPress(es: seq<Event>, b: Button): Option<bool>
    decreases |es|
  {
    if es == [] then None
    else
      var e := es[|es| - 1];
      if e == Down(b) then Some(true)
      else if e == Up(b) then Some(false)
      else LastPress(es[..|es| - 1], b)
  }

  /** Whether the last `Connect` or `Disconnect` event of a hand was a
      `Connect`. */
  function LastConnection(es: seq<Event>, h: Hand): Option<bool>
    decreases |es|
  {
    if es == [] then None
    else
      var e := es[|es| - 1];
      if e == Connect(h) then Some(true)
      else if e == Disconnect(h) then Some(false)
      else LastConnection(es[..|es| - 1], h)
  }

  /** Whether the last `EnterVR` or `ExitVR` event was an `EnterVR`. */
  function LastVRChange(es: seq<Event>): Option<bool>
    decreases |es|
  {
    if es == [] then None
    else if es[|es| - 1] == EnterVR then Some(true)
    else if es[|es| - 1] == ExitVR then Some(false)
    else LastVRChange(es[..|es| - 1])
  }

  function CountDowns(es: seq<Event>): nat
    decreases |es|
  {
    if es == [] then 0 else CountDowns(es[..|es| - 1]) + (if es[|es| - 1].Down? then 1 else 0)
  }

  /** How many times the `whenAnyButtonPressed` hats were started. */
  function HatsStarted(effects: seq<Effect>): nat
    decreases |effects|
  {
    if effects == [] then 0
    else HatsStarted(effects[..|effects| - 1])
         + (if effects[|effects| - 1] == StartHats(AnyButtonHat) then 1 else 0)
  }

  /** What one event does to `lastButtonPressed`. */
  lemma StepLastButton(s: VRState, e: Event)
    ensures Step(s, e).lastButtonPressed
         == if e.Down? then Some(ButtonLabel(e.button)) else s.lastButtonPressed
  {
  }

  /** What one event appends to the effect log. */
  lemma StepEffects(s: VRState, e: Event)
    ensures Step(s, e).effects == s.effects + (
      if e.Down? then [StartHats(AnyButtonHat)]
      else if e.EnterVR? || e.ExitVR? then [SetStageSize(s.initialStageWidth, s.initialStageHeight)]
      else [])
  {
  }

  /** The matrices change only on a pose tick while in VR with a
      reference space and a viewer pose; then all three are overwritten. */
  lemma StepMatrices(s: VRState, e: Event)
    ensures var t := Step(s, e);
            if e.PoseTick? && s.inVR && e.hasRefSpace && e.pose.Some? then
              && t.projection == Some(e.pose.value.projection)
              && t.transform == Some(e.pose.value.transform)
              && t.combined == Some(Combine(e.pose.value.transform.inverse, e.pose.value.projection))
            else
              t.projection == s.projection && t.transform == s.transform && t.combined == s.combined
  {
  }

  /** `lastButtonPressed` names the button of the last "down" event;
      "up" events and everything else leave it alone. */
  lemma {:induction false} RunLastButton(s: VRState, es: seq<Event>)
    ensures Run(s, es).lastButtonPressed
         == (match LastDown(es) case Some(b) => Some(ButtonLabel(b)) case None => s.lastButtonPressed)
    decreases |es|
  {
    if es != [] {
      RunLastButton(s, es[..|es| - 1]);
      StepLastButton(Run(s, es[..|es| - 1]), es[|es| - 1]);
    }
  }

  /** A button's flag is true after its last "down", false after its last
      "up", and untouched by every other event. */
  lemma {:induction false} RunPressed(s: VRState, es: seq<Event>, b: Button)
    ensures Run(s, es).Pressed(b)
         == (match LastPress(es, b) case Some(v) => Some(v) case None => s.Pressed(b))
    decreases |es|
  {
    if es != [] {
      RunPressed(s, es[..|es| - 1], b);
    }
  }

  /** A hand's connection flag follows its last connect or disconnect. */
  lemma {:induction false} RunConnected(s: VRState, es: seq<Event>, h: Hand)
    ensures Run(s, es).Connected(h)
         == (match LastConnection(es, h) case Some(v) => Some(v) case None => s.Connected(h))
    decreases |es|
  {
    if es != [] {
      RunConnected(s, es[..|es| - 1], h);
    }
  }

  /** `inVR` follows the last `enter-vr` or `exit-vr`. */
  lemma {:induction false} RunInVR(s: VRState, es: seq<Event>)
    ensures Run(s, es).inVR == (match LastVRChange(es) case Some(v) => v case None => s.inVR)
    decreases |es|
  {
    if es != [] {
      RunInVR(s, es[..|es| - 1]);
    }
  }

  /** The hats are started once per "down" event and at no other time. */
  lemma {:induction false} RunHats(s: VRState, es: seq<Event>)
    ensures HatsStarted(Run(s, es).effects) == HatsStarted(s.effects) + CountDowns(es)
    decreases |es|
  {
    if es != [] {
      var prev := Run(s, es[..|es| - 1]);
      RunHats(s, es[..|es| - 1]);
      StepEffects(prev, es[|es| - 1]);
      var effs := Run(s, es).effects;
      if effs != prev.effects {
        assert effs[..|effs| - 1] == prev.effects;
      }
    }
  }

  /** The stored matrices agree: the combined matrix is set exactly when
      the projection and the transform are, and is their product. */
  ghost predicate MatricesAgree(s: VRState)
  {
    && (s.combined.Some? <==> s.projection.Some? && s.transform.Some?)
    && (s.combined.Some? ==>
          s.combined.value == Product(s.transform.value.inverse, s.projection.value))
  }

  /** Every sequence of events keeps the matrices in agreement. */
  lemma {:induction false} RunKeepsMatricesAgreed(s: VRState, es: seq<Event>)
    requires MatricesAgree(s)
    ensures MatricesAgree(Run(s, es))
    decreases |es|
  {
    if es != [] {
      var prev := Run(s, es[..|es| - 1]);
      RunKeepsMatricesAgreed(s, es[..|es| - 1]);
      var e := es[|es| - 1];
      StepMatrices(prev, e);
      if e.PoseTick? && prev.inVR && e.hasRefSpace && e.pose.Some? {
        CombineIsProduct(e.pose.value.transform.inverse, e.pose.value.projection);
      }
    }
  }

  /** Once a pose has been seen, item k of the combined matrix is the
      row-by-column sum of the stored inverse view and projection. */
  lemma CombinedItem(s: VRState, k: int)
    requires MatricesAgree(s) && s.combined.Some?
    requires 1 <= k <= 16
    ensures s.GetMatrix(k as real, "combined")
         == Number(RowCol(s.transform.value.inverse, s.projection.value, (k - 1) / 4, (k - 1) % 4, 4))
  {
    assert Truncate(k as real) == k;
  }

  /** Reading a button back through its menu label gives its flag. */
  lemma ButtonRoundTrip(s: VRState, b: Button)
    ensures s.IsButtonPressed(ButtonLabel(b)) == s.Pressed(b)
    ensures Step(s, Down(b)).IsButtonPressed(ButtonLabel(b)) == Some(true)
    ensures Step(s, Up(b)).IsButtonPressed(ButtonLabel(b)) == Some(false)
  {
  }

  /** A controller tick copies its vectors where `positionOf` and
      `rotationOf` read them. */
  lemma TickRoundTrip(s: VRState, h: Hand, rot: Vec3, pos: Vec3, a: Axis)
    ensures var t := Step(s, ControllerTick(h, rot, pos));
            && t.PositionOf(PositionLabel(a), DeviceLabel(ControllerDevice(h))) == Some(Coord(pos, a))
            && t.RotationOf(RotationLabel(a), DeviceLabel(ControllerDevice(h))) == Some(Coord(rot, a))
  {
  }

  /** At exactly the threshold the stick does not count as pushed. */
  lemma ThresholdIsStrict(s: VRState, h: Hand)
    requires h in s.thumbstick
    requires s.thumbstick[h].y == StickThreshold && s.thumbstick[h].x == -StickThreshold
    ensures s.IsThumbstickDirection(ControllerLabel(h), "up") == Some(false)
    ensures s.IsThumbstickDirection(ControllerLabel(h), "left") == Some(false)
  {
  }

  /** Item 0 of a matrix: the shipped guard lets it through and the block
      reports 0; the guard it means reports the empty string. */
  lemma GetMatrixGuardIsDead(s: VRState)
    ensures s.GetMatrix(0.0, "combined") == Number(0.0)
    ensures s.GetMatrixGuarded(0.0, "combined") == Blank
  {
  }
}
