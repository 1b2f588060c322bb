/** Touch-look: a one-finger drag turns the camera while the controls are
    enabled. The record built by `createTouchLookControls` is the class
    `TouchLookControls`; the pure functions on `Look` say what each handler
    does to it and to the camera's rotation. */
module TouchLook {
  import opened Geometry

  /** `Math.PI / 2` as JavaScript prints the double. */
  const HALF_PI: real := 1.5707963267948966
  /** Radians of turn per unit of touch travel. */
  const SENSITIVITY: real := 0.002

  /** Everything the touch handlers read or write: the controls' flags, the
      last touch point and the rotation of the camera they steer. */
  datatype Look = Look(enabled: bool, isLooking: bool, previousTouch: Vec2, rotation: Vec3)

  predicate PitchInRange(rotation: Vec3) { -HALF_PI <= rotation.x <= HALF_PI }

  /** `Math.max(-PI/2, Math.min(PI/2, p))`. */
  function ClampPitch(p: real): (r: real)
    ensures -HALF_PI <= r <= HALF_PI
    ensures -HALF_PI <= p <= HALF_PI ==> r == p
  {
    var upper := Min(HALF_PI, p);
    if -HALF_PI <= upper then upper else -HALF_PI
  }

  /** The camera rotation after a drag from `from` to `to`: yaw and pitch
      turn against the drag, pitch is clamped, roll is untouched. */
  function Turn(rotation: Vec3, from: Vec2, to: Vec2): (r: Vec3)
    ensures PitchInRange(r)
    ensures r.z == rotation.z
  {
    var yaw := rotation.y - (to.x - from.x) * SENSITIVITY;
    var pitch := rotation.x - (to.y - from.y) * SENSITIVITY;
    Vec3(ClampPitch(pitch), yaw, rotation.z)
  }

  /** `handleTouchStart`: begins a look at the touch point. */
  function StartLook(s: Look, accepted: bool, touches: seq<Vec2>): (r: Look)
    ensures r.rotation == s.rotation && r.enabled == s.enabled
    ensures r.isLooking == (s.isLooking || (s.enabled && accepted && |touches| == 1))
  {
    if s.enabled && accepted && |touches| == 1 then
      s.(isLooking := true, previousTouch := touches[0])
    else
      s
  }

  /** `handleTouchMove`: turns the camera by the drag since the last point. */
  function MoveLook(s: Look, touches: seq<Vec2>): (r: Look)
    ensures r.enabled == s.enabled && r.isLooking == s.isLooking
    ensures PitchInRange(s.rotation) ==> PitchInRange(r.rotation)
  {
    if s.enabled && s.isLooking && |touches| == 1 then
      s.(rotation := Turn(s.rotation, s.previousTouch, touches[0]), previousTouch := touches[0])
    else
      s
  }

  /** `handleTouchEnd`: ends any look. */
  function EndLook(s: Look): (r: Look)
    ensures !r.isLooking && r.enabled == s.enabled
    ensures r.rotation == s.rotation && r.previousTouch == s.previousTouch
  {
    s.(isLooking := false)
  }

  /** `enable`. */
  function EnableLook(s: Look): (r: Look)
    ensures r.enabled && r.isLooking == s.isLooking && r.rotation == s.rotation
  {
    s.(enabled := true)
  }

  /** `disable`: also cancels a look in progress. */
  function DisableLook(s: Look): (r: Look)
    ensures !r.enabled && !r.isLooking && r.rotation == s.rotation
  {
    s.(enabled := false, isLooking := false)
  }

  /** The events the browser dispatches to the handlers, and the two calls
      the mode switch makes. `accepted` is the outcome of the canvas-target /
      UI-element test that `handleTouchStart` applies to the first touch. */
  datatype TouchEvent =
    | Start(accepted: bool, touches: seq<Vec2>)
    | Move(touches: seq<Vec2>)
    | End
    | EnableCall
    | DisableCall

  function Apply(s: Look, e: TouchEvent): Look {
    match e
    case Start(accepted, touches) => StartLook(s, accepted, touches)
    case Move(touches) => MoveLook(s, touches)
    case End => EndLook(s)
    case EnableCall => EnableLook(s)
    case DisableCall => DisableLook(s)
  }

  /** The state after dispatching `events` in order. */
  function Replay(s: Look, events: seq<TouchEvent>): Look
    decreases |events|
  {
    if events == [] then s else Replay(Apply(s, events[0]), events[1..])
  }

  /** A touch start takes effect exactly when the controls are enabled, the
      touch is accepted and it is the only touch; it then begins a look from
      that touch point and leaves the camera alone. */
  lemma TouchStartGate(s: Look, accepted: bool, touches: seq<Vec2>)
    ensures StartLook(s, accepted, touches) != s
        ==> s.enabled && accepted && |touches| == 1
    ensures s.enabled && accepted && |touches| == 1
        ==> (StartLook(s, accepted, touches).isLooking
             && StartLook(s, accepted, touches).previousTouch == touches[0])
    ensures StartLook(s, accepted, touches).rotation == s.rotation
    ensures StartLook(s, accepted, touches).enabled == s.enabled
  {
  }

  /** A touch move is a no-op unless the controls are enabled, a look is in
      progress and exactly one touch is down; when it applies, the pitch
      ends in [-PI/2, PI/2] and the latest touch point is remembered. */
  lemma TouchMoveGate(s: Look, touches: seq<Vec2>)
    ensures !(s.enabled && s.isLooking && |touches| == 1) ==> MoveLook(s, touches) == s
    ensures s.enabled && s.isLooking && |touches| == 1
        ==> (PitchInRange(MoveLook(s, touches).rotation)
             && MoveLook(s, touches).previousTouch == touches[0]
             && MoveLook(s, touches).isLooking)
  {
  }

  /** Yaw is not clamped, so two drags in a row turn exactly as far as one
      drag over the same total distance. */
  lemma TurnYawComposes(rotation: Vec3, p: Vec2, q: Vec2, t: Vec2)
    ensures Turn(Turn(rotation, p, q), q, t).y == Turn(rotation, p, t).y
  {
  }

  /** The clamp picks the closest admissible pitch. */
  lemma ClampPitchIsNearest(p: real, q: real)
    requires -HALF_PI <= q <= HALF_PI
    ensures Abs(ClampPitch(p) - p) <= Abs(q - p)
  {
  }

  /** Ending a touch always clears the look flag. */
  lemma TouchEndClears(s: Look)
    ensures !EndLook(s).isLooking
    ensures EndLook(s).rotation == s.rotation && EndLook(s).enabled == s.enabled
  {
  }

  /** Disabling cancels a gesture in flight: a move that was already queued
      no longer turns the camera. */
  lemma DisableCancelsGesture(s: Look, touches: seq<Vec2>)
    ensures !DisableLook(s).enabled && !DisableLook(s).isLooking
    ensures MoveLook(DisableLook(s), touches) == DisableLook(s)
  {
  }

  /** Whatever sequence of touches arrives, a pitch that starts in range
      stays in range. */
  lemma {:induction false} ReplayKeepsPitchInRange(s: Look, events: seq<TouchEvent>)
    requires PitchInRange(s.rotation)
    ensures PitchInRange(Replay(s, events).rotation)
    decreases |events|
  {
    if events != [] {
      ReplayKeepsPitchInRange(Apply(s, events[0]), events[1..]);
    }
  }

  /** Disabled controls stay inert until they are enabled again: no touch
      sequence turns the camera or starts a look. */
  lemma {:induction false} DisabledControlsStayInert(s: Look, events: seq<TouchEvent>)
    requires !s.enabled && !s.isLooking
    requires forall i :: 0 <= i < |events| ==> !events[i].EnableCall?
    ensures Replay(s, events).rotation == s.rotation
    ensures !Replay(s, events).enabled && !Replay(s, events).isLooking
    decreases |events|
  {
    if events != [] {
      DisabledControlsStayInert(Apply(s, events[0]), events[1..]);
    }
  }

  /** The touch-look record of `createTouchLookControls`. Its camera is the
      one given at creation until the player redirects it. */
  class TouchLookControls {
    var camera: Camera
    var isLooking: bool
    var previousTouch: Vec2
    var enabled: bool

    constructor (camera: Camera)
      ensures this.camera == camera
      ensures !enabled && !isLooking && previousTouch == Origin2
    {
      this.camera := camera;
      isLooking := false;
      previousTouch := Origin2;
      enabled := false;
    }

    ghost function State(): Look
      reads this, camera
    {
      Look(enabled, isLooking, previousTouch, camera.rotation)
    }

    method HandleTouchStart(accepted: bool, touches: seq<Vec2>)
      modifies this`isLooking, this`previousTouch
      ensures State() == StartLook(old(State()), accepted, touches)
    {
      if !enabled {
        return;
      }
      if !accepted {
        return;
      }
      if |touches| == 1 {
        isLooking := true;
        previousTouch := touches[0];
      }
    }

    method HandleTouchMove(touches: seq<Vec2>)
      modifies this`previousTouch, camera`rotation
      ensures State() == MoveLook(old(State()), touches)
    {
      if !enabled || !isLooking || |touches| != 1 {
        return;
      }
      var touch := touches[0];
      var deltaX := touch.x - previousTouch.x;
      var deltaY := touch.y - previousTouch.y;
      camera.rotation := camera.rotation.(y := camera.rotation.y - deltaX * SENSITIVITY);
      camera.rotation := camera.rotation.(x := camera.rotation.x - deltaY * SENSITIVITY);
      camera.rotation := camera.rotation.(x := ClampPitch(camera.rotation.x));
      previousTouch := touch;
    }

    method HandleTouchEnd()
      modifies this`isLooking
      ensures !isLooking
      ensures State() == EndLook(old(State()))
    {
      isLooking := false;
    }

    method Enable()
      modifies this`enabled
      ensures enabled
      ensures State() == EnableLook(old(State()))
    {
      enabled := true;
    }

    method Disable()
      modifies this`enabled, this`isLooking
      ensures !enabled && !isLooking
      ensures State() == DisableLook(old(State()))
    {
      enabled := false;
      isLooking := false;
    }
  }
}
