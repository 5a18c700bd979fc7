/** The BlockifyVR extension's module-level variables as an object, with
    one method per listener or tick that assigns them. Each method states
    its whole new state by way of `State()`, the value `VRModel` reasons
    about; `Handle` dispatches an event to its listener and is tied to
    `VRModel.Step`. */
module VRExtension {
  import opened JsValues
  import opened Matrix4
  import opened VRModel

  class BlockifyVR {
    /** The stage size read when the extension loads. */
    const initialStageWidth: real
    const initialStageHeight: real

    var inVR: bool
    /** The ten `*Pressed` variables; a missing button is `undefined`. */
    var pressed: map<Button, bool>
    /** `leftControllerConnected` and `rightControllerConnected`. */
    var connected: map<Hand, bool>
    var lastButtonPressed: Option<string>
    /** `leftThumbstickX/Y/Direction` and their right-hand twins. */
    var thumbstick: map<Hand, Thumbstick>
    /** `cameraPos*`, `leftControllerPosition*`, `rightControllerPosition*`. */
    var position: map<Device, Vec3>
    /** `cameraOrientation*` and the controllers' `*Orientation*`. */
    var rotation: map<Device, Vec3>
    var xrProjectionMatrix: Option<Mat4>
    var xrTransform: Option<RigidTransform>
    var xrCombinedMatrix: Option<Mat4>
    /** The calls made into the host runtime, in order. */
    var effects: seq<Effect>

    function State(): VRState
      reads this
    {
      VRState(initialStageWidth, initialStageHeight, inVR, pressed, connected,
              lastButtonPressed, thumbstick, position, rotation,
              xrProjectionMatrix, xrTransform, xrCombinedMatrix, effects)
    }

    /** Loading the extension: the variables as declared. */
    constructor (stageWidth: real, stageHeight: real)
      ensures State() == Initial(stageWidth, stageHeight)
    {
      initialStageWidth, initialStageHeight := stageWidth, stageHeight;
      inVR := false;
      pressed := map[LeftGrip := false, Y := false];
      connected := map[Left := false];
      lastButtonPressed := None;
      thumbstick, position, rotation := map[], map[], map[];
      xrProjectionMatrix, xrTransform, xrCombinedMatrix := None, None, None;
      effects := [];
    }

    /** A `triggerdown`, `thumbstickdown`, `gripdown` or face-button "down"
        listener: the button's flag becomes true, `lastButtonPressed` its
        label, and the `whenAnyButtonPressed` hats are started once. */
    method OnButtonDown(b: Button)
      modifies this
      ensures State() == old(State()).(
        pressed := old(pressed)[b := true],
        lastButtonPressed := Some(ButtonLabel(b)),
        effects := old(effects) + [StartHats(AnyButtonHat)])
    {
      pressed := pressed[b := true];
      lastButtonPressed := Some(ButtonLabel(b));
      effects := effects + [StartHats(AnyButtonHat)];
    }

    /** The matching "up" listener clears that one flag and nothing else. */
    method OnButtonUp(b: Button)
      modifies this
      ensures State() == old(State()).(pressed := old(pressed)[b := false])
    {
      pressed := pressed[b := false];
    }

    method OnControllerConnected(h: Hand)
      modifies this
      ensures State() == old(State()).(connected := old(connected)[h := true])
    {
      connected := connected[h := true];
    }

    method OnControllerDisconnected(h: Hand)
      modifies this
      ensures State() == old(State()).(connected := old(connected)[h := false])
    {
      connected := connected[h := false];
    }

    /** `logThumbstick`: the axes, and the direction the host computed. */
    method LogThumbstick(h: Hand, stick: Thumbstick)
      modifies this
      ensures State() == old(State()).(thumbstick := old(thumbstick)[h := stick])
    {
      thumbstick := thumbstick[h := stick];
    }

    /** A controller manager's `tick`: copy the controller's rotation and
        position. */
    method TickController(h: Hand, rot: Vec3, pos: Vec3)
      modifies this
      ensures State() == old(State()).(
        rotation := old(rotation)[ControllerDevice(h) := rot],
        position := old(position)[ControllerDevice(h) := pos])
    {
      rotation := rotation[ControllerDevice(h) := rot];
      position := position[ControllerDevice(h) := pos];
    }

    /** The camera logger's `tick`: copy the headset's rotation and
        position. */
    method TickCamera(rot: Vec3, pos: Vec3)
      modifies this
      ensures State() == old(State()).(
        rotation := old(rotation)[Headset := rot],
        position := old(position)[Headset := pos])
    {
      rotation := rotation[Headset := rot];
      position := position[Headset := pos];
    }

    /** The `pose-matrices` tick: in VR, with a reference space and a
        viewer pose, store the first view's projection and transform and
        their combined matrix; otherwise keep the old matrices. */
    method TickPoseMatrices(hasRefSpace: bool, pose: Option<ViewerPose>)
      modifies this
      ensures old(inVR) && hasRefSpace && pose.Some? ==>
        State() == old(State()).(
          projection := Some(pose.value.projection),
          transform := Some(pose.value.transform),
          combined := Some(Product(pose.value.transform.inverse, pose.value.projection)))
      ensures !(old(inVR) && hasRefSpace && pose.Some?) ==> State() == old(State())
    {
      if inVR {
        if hasRefSpace {
          if pose.Some? {
            xrProjectionMatrix := Some(pose.value.projection);
            xrTransform := Some(pose.value.transform);
            var inverseTransformMatrix := pose.value.transform.inverse;
            xrCombinedMatrix := Some(Combine(inverseTransformMatrix, pose.value.projection));
            CombineIsProduct(inverseTransformMatrix, pose.value.projection);
          }
        }
      }
    }

    /** The scene's `enter-vr` listener: set `inVR` and restore the stage
        to its initial size. */
    method OnEnterVR()
      modifies this
      ensures State() == old(State()).(
        inVR := true,
        effects := old(effects) + [SetStageSize(initialStageWidth, initialStageHeight)])
    {
      inVR := true;
      effects := effects + [SetStageSize(initialStageWidth, initialStageHeight)];
    }

    /** The scene's `exit-vr` listener. */
    method OnExitVR()
      modifies this
      ensures State() == old(State()).(
        inVR := false,
        effects := old(effects) + [SetStageSize(initialStageWidth, initialStageHeight)])
    {
      inVR := false;
      effects := effects + [SetStageSize(initialStageWidth, initialStageHeight)];
    }

    /** Deliver one event to the listener registered for it. */
    method Handle(e: Event)
      modifies this
      ensures State() == Step(old(State()), e)
    {
      match e
      case Down(b) => OnButtonDown(b);
      case Up(b) => OnButtonUp(b);
      case Connect(h) => OnControllerConnected(h);
      case Disconnect(h) => OnControllerDisconnected(h);
      case StickMoved(h, stick) => LogThumbstick(h, stick);
      case ControllerTick(h, rot, pos) => TickController(h, rot, pos);
      case CameraTick(rot, pos) => TickCamera(rot, pos);
      case PoseTick(hasRefSpace, pose) =>
        TickPoseMatrices(hasRefSpace, pose);
        if old(inVR) && hasRefSpace && pose.Some? {
          CombineIsProduct(pose.value.transform.inverse, pose.value.projection);
        }
      case EnterVR => OnEnterVR();
      case ExitVR => OnExitVR();
    }
  }
}
