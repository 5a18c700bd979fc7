/** The Pointerlock extension: two flags (`isPointerLockEnabled`, set by
    the `set pointer lock` block, and `isLocked`, which follows the
    browser's lock) decide what happens to document mouse events, to the
    host mouse device's own `postData` calls and to the mouse position
    after each runtime step.

    The browser's lock request and release, and every call into the host
    mouse device's original `postData`, are recorded as effects. */
module PointerLockModel {
  import opened JsValues

  /** The canvas's bounding rectangle (given, positive) and the stage size. */
  datatype Geometry = Geometry(rectWidth: real, rectHeight: real, stageWidth: real, stageHeight: real)
  {
    predicate Valid() { rectWidth > 0.0 && rectHeight > 0.0 }
  }

  /** A document mouse event as the handlers read it; `onCanvas` is
      `canvas.contains(e.target)`. */
  datatype MouseEvent = MouseEvent(button: int, movementX: real, movementY: real, onCanvas: bool)

  /** A record the host posts to the mouse device, passed on untouched. */
  datatype HostData = HostData(fields: map<string, string>)

  datatype MouseData =
    | ButtonData(button: int, isDown: bool)
    | Forwarded(data: HostData)

  datatype LockEffect =
    | RequestPointerLock
    | ExitPointerLock
    | OriginalPostData(data: MouseData)

  /** The mouse device's `_clientX`, `_clientY`, `_scratchX`, `_scratchY`. */
  datatype MousePos = MousePos(clientX: real, clientY: real, scratchX: real, scratchY: real)

  /** Client coordinate to stage coordinate: `stage * (client / rect - 0.5)`. */
  function StageCoord(stageSize: real, client: real, rectSize: real): (r: real)
    requires rectSize > 0.0
    ensures client == rectSize / 2.0 ==> r == 0.0
    ensures stageSize > 0.0 ==> (r > 0.0 <==> client > rectSize / 2.0)
    ensures stageSize > 0.0 ==> (r < 0.0 <==> client < rectSize / 2.0)
  {
    var t := client / rectSize - 0.5;
    assert client > rectSize / 2.0 <==> t > 0.0;
    assert client < rectSize / 2.0 <==> t < 0.0;
    stageSize * t
  }

  /** The inverse mapping, stage coordinate back to client coordinate. */
  function ClientCoord(stageSize: real, scratch: real, rectSize: real): real
    requires stageSize != 0.0
  {
    rectSize * (scratch / stageSize + 0.5)
  }

  /** The two mappings undo each other (for a nonzero stage size). */
  lemma CoordRoundTrip(stageSize: real, rectSize: real, client: real, scratch: real)
    requires rectSize > 0.0 && stageSize != 0.0
    ensures ClientCoord(stageSize, StageCoord(stageSize, client, rectSize), rectSize) == client
    ensures StageCoord(stageSize, ClientCoord(stageSize, scratch, rectSize), rectSize) == scratch
  {
    var t := client / rectSize - 0.5;
    assert stageSize * t / stageSize == t;
    assert rectSize * (t + 0.5) == client;
    var u := scratch / stageSize + 0.5;
    assert rectSize * u / rectSize == u;
    assert stageSize * (u - 0.5) == scratch;
  }

  /** The stage coordinates agree with the client coordinates. */
  predicate Mapped(p: MousePos, g: Geometry)
    requires g.Valid()
  {
    && p.scratchX == StageCoord(g.stageWidth, p.clientX, g.rectWidth)
    && p.scratchY == StageCoord(g.stageHeight, p.clientY, g.rectHeight)
  }

  /** The position update of `postMouseData`: x moves with the event,
      y against it, and the stage coordinates are recomputed. */
  function Moved(p: MousePos, e: MouseEvent, g: Geometry): (r: MousePos)
    requires g.Valid()
    ensures r.clientX - p.clientX == e.movementX && p.clientY - r.clientY == e.movementY
    ensures Mapped(r, g)
  {
    var x := p.clientX + e.movementX;
    var y := p.clientY - e.movementY;
    MousePos(x, y, StageCoord(g.stageWidth, x, g.rectWidth), StageCoord(g.stageHeight, y, g.rectHeight))
  }

  /** The recentred position after a runtime step: the middle of the
      canvas, which is stage point (0, 0). */
  function Centre(g: Geometry): (r: MousePos)
    requires g.Valid()
    ensures r.scratchX == 0.0 && r.scratchY == 0.0
    ensures Mapped(r, g)
  {
    MousePos(g.rectWidth / 2.0, g.rectHeight / 2.0, 0.0, 0.0)
  }

  /** The extension's state and the mouse fields it writes. */
  datatype LockState = LockState(
    isLocked: bool,
    isPointerLockEnabled: bool,
    mouse: MousePos,
    effects: seq<LockEffect>)

  /** Everything that reaches the extension: the host's own posts to the
      mouse device, the three document mouse listeners, the browser's lock
      change, a runtime step, a project load and the `set pointer lock`
      block. */
  datatype LockEvent =
    | HostPost(data: HostData)
    | MouseDown(down: MouseEvent)
    | MouseUp(up: MouseEvent)
    | MouseMove(move: MouseEvent)
    | LockChange(lockElementIsCanvas: bool)
    | RuntimeStep
    | ProjectLoaded
    | SetLock(enabled: bool)

  /** What one event does to the extension's state. */
  function LockStep(s: LockState, g: Geometry, ev: LockEvent): LockState
    requires g.Valid()
  {
    match ev
    case HostPost(data) =>
      if s.isPointerLockEnabled then s
      else s.(effects := s.effects + [OriginalPostData(Forwarded(data))])
    case MouseDown(e) =>
      if e.onCanvas && s.isLocked then
        s.(mouse := Moved(s.mouse, e, g),
           effects := s.effects + [OriginalPostData(ButtonData(e.button, true))])
      else if e.onCanvas && s.isPointerLockEnabled then
        s.(effects := s.effects + [RequestPointerLock])
      else s
    case MouseUp(e) =>
      if s.isLocked then
        s.(mouse := Moved(s.mouse, e, g),
           effects := s.effects + [OriginalPostData(ButtonData(e.button, false))])
      else if s.isPointerLockEnabled && e.onCanvas then
        s.(effects := s.effects + [RequestPointerLock])
      else s
    case MouseMove(e) =>
      if s.isLocked then s.(mouse := Moved(s.mouse, e, g)) else s
    case LockChange(onCanvas) => s.(isLocked := onCanvas)
    case RuntimeStep =>
      if s.isPointerLockEnabled then s.(mouse := Centre(g)) else s
    case ProjectLoaded =>
      s.(isPointerLockEnabled := false,
         effects := s.effects + (if s.isLocked then [ExitPointerLock] else []))
    case SetLock(enabled) =>
      s.(isPointerLockEnabled := enabled,
         effects := s.effects + (if !enabled && s.isLocked then [ExitPointerLock] else []))
  }

  /** The state after a sequence of events, in order. */
  function LockRun(s: LockState, g: Geometry, es: seq<LockEvent>): LockState
    requires g.Valid()
    decreases |es|
  {
    if es == [] then s else LockStep(LockRun(s, g, es[..|es| - 1]), g, es[|es| - 1])
  }

  /** How many of the host's own posts reached the original `postData`. */
  function Forwards(effects: seq<LockEffect>): nat
    decreases |effects|
  {
    if effects == [] then 0
    else Forwards(effects[..|effects| - 1])
         + (if effects[|effects| - 1].OriginalPostData? && effects[|effects| - 1].data.Forwarded? then 1 else 0)
  }

  /** Only a project load or `set pointer lock` to false disables the lock. */
  predicate KeepsEnabled(ev: LockEvent)
  {
    !ev.ProjectLoaded? && !(ev.SetLock? && !ev.enabled)
  }

  /** Every event the extension itself handles keeps the mouse device's
      stage coordinates in step with its client coordinates. A forwarded
      host post leaves the mouse fields to the host's original `postData`,
      which is modelled as not touching them. */
  lemma StepKeepsMapped(s: LockState, g: Geometry, ev: LockEvent)
    requires g.Valid() && Mapped(s.mouse, g)
    ensures Mapped(LockStep(s, g, ev).mouse, g)
  {
  }

  /** Any sequence of events keeps them in step, as far as the extension's
      own writes go. */
  lemma {:induction false} RunKeepsMapped(s: LockState, g: Geometry, es: seq<LockEvent>)
    requires g.Valid() && Mapped(s.mouse, g)
    ensures Mapped(LockRun(s, g, es).mouse, g)
    decreases |es|
  {
    if es != [] {
      RunKeepsMapped(s, g, es[..|es| - 1]);
      StepKeepsMapped(LockRun(s, g, es[..|es| - 1]), g, es[|es| - 1]);
    }
  }

  /** What one event adds to the count of forwarded host posts. */
  lemma StepForwards(s: LockState, g: Geometry, ev: LockEvent)
    requires g.Valid()
    ensures Forwards(LockStep(s, g, ev).effects)
         == Forwards(s.effects) + (if ev.HostPost? && !s.isPointerLockEnabled then 1 else 0)
  {
    var t := LockStep(s, g, ev);
    if t.effects != s.effects {
      assert t.effects[..|t.effects| - 1] == s.effects;
    }
  }

  /** While pointer lock stays enabled, none of the host's own mouse data
      reaches the original `postData`, whatever else happens. */
  lemma {:induction false} RunSwallowsHostData(s: LockState, g: Geometry, es: seq<LockEvent>)
    requires g.Valid() && s.isPointerLockEnabled
    requires forall i | 0 <= i < |es| :: KeepsEnabled(es[i])
    ensures LockRun(s, g, es).isPointerLockEnabled
    ensures Forwards(LockRun(s, g, es).effects) == Forwards(s.effects)
    decreases |es|
  {
    if es != [] {
      RunSwallowsHostData(s, g, es[..|es| - 1]);
      StepForwards(LockRun(s, g, es[..|es| - 1]), g, es[|es| - 1]);
    }
  }

  /** While pointer lock is disabled, every host post reaches the original
      `postData`. */
  lemma HostPostForwardedWhenDisabled(s: LockState, g: Geometry, data: HostData)
    requires g.Valid() && !s.isPointerLockEnabled
    ensures LockStep(s, g, HostPost(data)).effects == s.effects + [OriginalPostData(Forwarded(data))]
  {
  }

  /** Whether every event is a mouse move. */
  predicate AllMoves(es: seq<LockEvent>)
  {
    forall i | 0 <= i < |es| :: es[i].MouseMove?
  }

  /** The sum of the horizontal and vertical movements of the mouse moves. */
  function SumMovementX(es: seq<LockEvent>): real
    decreases |es|
  {
    if es == [] then 0.0
    else SumMovementX(es[..|es| - 1]) + (if es[|es| - 1].MouseMove? then es[|es| - 1].move.movementX else 0.0)
  }

  function SumMovementY(es: seq<LockEvent>): real
    decreases |es|
  {
    if es == [] then 0.0
    else SumMovementY(es[..|es| - 1]) + (if es[|es| - 1].MouseMove? then es[|es| - 1].move.movementY else 0.0)
  }

  /** What the mouse x and y blocks report while the pointer is locked.
      After a runtime step while enabled and locked, mouse moves shift the
      client position away from the canvas centre by their summed movement
      (y against the movement), so the stage position is the movement since
      that step, scaled from canvas pixels to stage units, with y up. */
  lemma {:induction false} MovesAfterStep(s: LockState, g: Geometry, es: seq<LockEvent>)
    requires g.Valid() && s.isPointerLockEnabled && s.isLocked && AllMoves(es)
    ensures var t := LockRun(s, g, [RuntimeStep] + es);
            && t.isLocked
            && t.mouse.clientX == g.rectWidth / 2.0 + SumMovementX(es)
            && t.mouse.clientY == g.rectHeight / 2.0 - SumMovementY(es)
            && Mapped(t.mouse, g)
            && t.mouse.scratchX == g.stageWidth * (SumMovementX(es) / g.rectWidth)
            && t.mouse.scratchY == -g.stageHeight * (SumMovementY(es) / g.rectHeight)
    decreases |es|
  {
    var u := [RuntimeStep] + es;
    if es == [] {
      assert u[..|u| - 1] == [];
    } else {
      assert u[..|u| - 1] == [RuntimeStep] + es[..|es| - 1];
      MovesAfterStep(s, g, es[..|es| - 1]);
      assert u[|u| - 1] == es[|es| - 1];
    }
    var t := LockRun(s, g, u);
    OffsetReadout(t.mouse, g, SumMovementX(es), SumMovementY(es));
  }

  /** A mapped position offset (dx, -dy) from the canvas centre reads as
      the stage point (dx, -dy) scaled to stage units. */
  lemma OffsetReadout(p: MousePos, g: Geometry, dx: real, dy: real)
    requires g.Valid() && Mapped(p, g)
    requires p.clientX == g.rectWidth / 2.0 + dx && p.clientY == g.rectHeight / 2.0 - dy
    ensures p.scratchX == g.stageWidth * (dx / g.rectWidth)
    ensures p.scratchY == -g.stageHeight * (dy / g.rectHeight)
  {
    CentredOffset(g.rectWidth, dx);
    CentredOffset(g.rectHeight, -dy);
    assert -dy / g.rectHeight == -(dy / g.rectHeight);
  }

  /** An offset from the middle of a canvas side, as a fraction of it. */
  lemma CentredOffset(size: real, d: real)
    requires size > 0.0
    ensures (size / 2.0 + d) / size - 0.5 == d / size
  {
    QuotientOfSum(size / 2.0, d, size);
    assert (size / 2.0) / size == 0.5;
  }

  lemma QuotientOfSum(a: real, b: real, size: real)
    requires size > 0.0
    ensures (a + b) / size == a / size + b / size
  {
    var x, y := a / size, b / size;
    assert x * size == a;
    assert y * size == b;
    assert (x + y) * size == a + b;
  }

  class PointerLock {
    const geometry: Geometry
    var isLocked: bool
    var isPointerLockEnabled: bool
    var mouse: MousePos
    var effects: seq<LockEffect>

    function State(): LockState
      reads this
    {
      LockState(isLocked, isPointerLockEnabled, mouse, effects)
    }

    /** Loading the extension: neither locked nor enabled; the mouse
        device's position is whatever the host had. */
    constructor (g: Geometry, initialMouse: MousePos)
      requires g.Valid()
      ensures geometry == g
      ensures State() == LockState(false, false, initialMouse, [])
    {
      geometry := g;
      isLocked, isPointerLockEnabled := false, false;
      mouse := initialMouse;
      effects := [];
    }

    /** `postMouseData`: move the position by the event, then pass the
        button state to the original `postData` only when `isDown` is a
        boolean (a move passes nothing). */
    method PostMouseData(e: MouseEvent, isDown: Option<bool>)
      requires geometry.Valid()
      modifies this
      ensures State() == old(State()).(
        mouse := Moved(old(mouse), e, geometry),
        effects := old(effects)
                   + (if isDown.Some? then [OriginalPostData(ButtonData(e.button, isDown.value))] else []))
    {
      var x := mouse.clientX + e.movementX;
      var y := mouse.clientY - e.movementY;
      mouse := mouse.(clientX := x);
      mouse := mouse.(scratchX := StageCoord(geometry.stageWidth, x, geometry.rectWidth));
      mouse := mouse.(clientY := y);
      mouse := mouse.(scratchY := StageCoord(geometry.stageHeight, y, geometry.rectHeight));
      if isDown.Some? {
        effects := effects + [OriginalPostData(ButtonData(e.button, isDown.value))];
      }
    }

    /** The replacement of the mouse device's `postData`: while pointer
        lock is enabled the host's data is swallowed, otherwise it goes to
        the original unchanged. */
    method PostData(data: HostData)
      modifies this
      ensures State() == old(State()).(
        effects := old(effects) + (if old(isPointerLockEnabled) then [] else [OriginalPostData(Forwarded(data))]))
    {
      if !isPointerLockEnabled {
        effects := effects + [OriginalPostData(Forwarded(data))];
      }
    }

    /** `mousedown`: on the canvas, report a press while locked, or ask for
        the lock while enabled; off the canvas, nothing. */
    method OnMouseDown(e: MouseEvent)
      requires geometry.Valid()
      modifies this
      ensures State() ==
        if e.onCanvas && old(isLocked) then
          old(State()).(mouse := Moved(old(mouse), e, geometry),
                        effects := old(effects) + [OriginalPostData(ButtonData(e.button, true))])
        else if e.onCanvas && old(isPointerLockEnabled) then
          old(State()).(effects := old(effects) + [RequestPointerLock])
        else old(State())
    {
      if e.onCanvas {
        if isLocked {
          PostMouseData(e, Some(true));
        } else if isPointerLockEnabled {
          effects := effects + [RequestPointerLock];
        }
      }
    }

    /** `mouseup`: while locked, report a release wherever the target is;
        otherwise ask for the lock when enabled and on the canvas. */
    method OnMouseUp(e: MouseEvent)
      requires geometry.Valid()
      modifies this
      ensures State() ==
        if old(isLocked) then
          old(State()).(mouse := Moved(old(mouse), e, geometry),
                        effects := old(effects) + [OriginalPostData(ButtonData(e.button, false))])
        else if old(isPointerLockEnabled) && e.onCanvas then
          old(State()).(effects := old(effects) + [RequestPointerLock])
        else old(State())
    {
      if isLocked {
        PostMouseData(e, Some(false));
      } else if isPointerLockEnabled && e.onCanvas {
        effects := effects + [RequestPointerLock];
      }
    }

    /** `mousemove`: while locked, move the position and post nothing. */
    method OnMouseMove(e: MouseEvent)
      requires geometry.Valid()
      modifies this
      ensures State() ==
        if old(isLocked) then old(State()).(mouse := Moved(old(mouse), e, geometry))
        else old(State())
    {
      if isLocked {
        PostMouseData(e, None);
      }
    }

    /** `pointerlockchange`: locked exactly when the lock element is the
        canvas. This is the only place `isLocked` changes. */
    method OnPointerLockChange(lockElementIsCanvas: bool)
      modifies this
      ensures State() == old(State()).(isLocked := lockElementIsCanvas)
    {
      isLocked := lockElementIsCanvas;
    }

    /** The wrapper around the runtime's `_step`, after the original step
        has run: while enabled, put the mouse back in the middle. */
    method AfterStep()
      requires geometry.Valid()
      modifies this
      ensures State() ==
        if old(isPointerLockEnabled) then old(State()).(mouse := Centre(geometry))
        else old(State())
    {
      if isPointerLockEnabled {
        mouse := mouse.(clientX := geometry.rectWidth / 2.0);
        mouse := mouse.(clientY := geometry.rectHeight / 2.0);
        mouse := mouse.(scratchX := 0.0);
        mouse := mouse.(scratchY := 0.0);
      }
    }

    /** `PROJECT_LOADED`: disable pointer lock and release a held lock. */
    method OnProjectLoaded()
      modifies this
      ensures State() == old(State()).(
        isPointerLockEnabled := false,
        effects := old(effects) + (if old(isLocked) then [ExitPointerLock] else []))
    {
      isPointerLockEnabled := false;
      if isLocked {
        effects := effects + [ExitPointerLock];
      }
    }

    /** The `set pointer lock` block; `enabled` is its argument after
        `Scratch.Cast.toBoolean`. Disabling releases a held lock;
        `isLocked` itself waits for `pointerlockchange`. */
    method SetLocked(enabled: bool)
      modifies this
      ensures State() == old(State()).(
        isPointerLockEnabled := enabled,
        effects := old(effects) + (if !enabled && old(isLocked) then [ExitPointerLock] else []))
    {
      isPointerLockEnabled := enabled == true;
      if !isPointerLockEnabled && isLocked {
        effects := effects + [ExitPointerLock];
      }
    }

    /** The `pointer locked?` block. */
    method IsLocked() returns (locked: bool)
      ensures locked == isLocked
    {
      locked := isLocked;
    }

    /** Deliver one event to the code that handles it. */
    method Handle(ev: LockEvent)
      requires geometry.Valid()
      modifies this
      ensures State() == LockStep(old(State()), geometry, ev)
    {
      match ev
      case HostPost(data) => PostData(data);
      case MouseDown(e) => OnMouseDown(e);
      case MouseUp(e) => OnMouseUp(e);
      case MouseMove(e) => OnMouseMove(e);
      case LockChange(onCanvas) => OnPointerLockChange(onCanvas);
      case RuntimeStep => AfterStep();
      case ProjectLoaded => OnProjectLoaded();
      case SetLock(enabled) => SetLocked(enabled);
    }
  }
}
