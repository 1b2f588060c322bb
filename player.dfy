/** `createPlayer`: the closure state (collider, velocity, floor flag,
    first-person flag, key states) becomes the fields of `PlayerController`,
    and the inner functions become its methods. Each method that moves the
    player is specified by the matching function of `Motion`. */
module Player {
  import opened Geometry
  import opened Motion
  import opened Joystick
  import opened TouchLook

  class PlayerController {
    var collider: Capsule
    var velocity: Vec3
    var onFloor: bool
    var firstPersonActive: bool
    var keyStates: map<string, bool>
    const camera: Camera
    const joystick: VirtualJoystick
    const touchLook: TouchLookControls

    /** `handheld` is the joystick's mobile detection, a platform probe. */
    constructor (camera: Camera, handheld: bool)
      ensures this.camera == camera
      ensures collider == Capsule(SPAWN_START, SPAWN_END, SPAWN_RADIUS)
      ensures velocity == Origin3 && !onFloor && !firstPersonActive && keyStates == map[]
      ensures fresh(joystick) && fresh(touchLook)
      ensures !joystick.visible && !joystick.isActive && joystick.direction == Origin2 && joystick.Valid()
      ensures joystick.isMobile == handheld
      ensures touchLook.camera == camera && !touchLook.enabled && !touchLook.isLooking
    {
      collider := Capsule(SPAWN_START, SPAWN_END, SPAWN_RADIUS);
      velocity := Origin3;
      onFloor := false;
      firstPersonActive := false;
      keyStates := map[];
      this.camera := camera;
      joystick := new VirtualJoystick(handheld);
      touchLook := new TouchLookControls(camera);
      new;
      joystick.Hide();
    }

    ghost function State(): PlayerState
      reads this, camera
    {
      PlayerState(collider, velocity, onFloor, camera.position, camera.rotation)
    }

    /** What the input handlers have left for `controls` to read. */
    function CurrentInput(): Input
      reads this`keyStates, this`firstPersonActive, joystick`direction
    {
      Input(keyStates, joystick.direction, firstPersonActive, joystick.isMobile)
    }

    method KeyDown(code: string)
      modifies this`keyStates
      ensures keyStates == old(keyStates)[code := true]
      ensures Held(keyStates, code)
    {
      keyStates := keyStates[code := true];
    }

    method KeyUp(code: string)
      modifies this`keyStates
      ensures keyStates == old(keyStates)[code := false]
      ensures !Held(keyStates, code)
    {
      keyStates := keyStates[code := false];
    }

    /** `world` is the octree's capsule query. */
    method PlayerCollisions(world: Capsule -> Option<Contact>)
      modifies this`velocity, this`collider, this`onFloor
      ensures State() == Collide(old(State()), world(old(collider)))
    {
      var result := world(collider);
      onFloor := false;
      if result.Some? {
        var c := result.value;
        onFloor := c.normal.y > 0.0;
        if !onFloor {
          velocity := velocity.Plus(c.normal.Times(-c.normal.Dot(velocity)));
        }
        collider := collider.Translate(c.normal.Times(c.depth));
      }
    }

    /** `damping` is `Math.exp(-4 * deltaTime) - 1`. */
    method UpdatePlayer(deltaTime: real, damping: real, world: Capsule -> Option<Contact>)
      modifies this`velocity, this`collider, this`onFloor, camera`position
      ensures State() == Advance(old(State()), deltaTime, damping, world)
      ensures camera.position == collider.end
    {
      var d := damping;
      if !onFloor {
        velocity := velocity.(y := velocity.y - GRAVITY * deltaTime);
        d := d * AIR_DAMPING_SCALE;
      }
      velocity := velocity.Plus(velocity.Times(d));
      var deltaPosition := velocity.Times(deltaTime);
      collider := collider.Translate(deltaPosition);
      PlayerCollisions(world);
      camera.position := collider.end;
    }

    /** The keyboard block of `controls`: W, S, A, D push the velocity
        along the basis; the result says whether any of them was held. */
    method KeyboardThrust(basis: Basis, speedDelta: real) returns (moved: bool)
      modifies this`velocity
      ensures velocity == KeyPush(old(velocity), keyStates, basis, speedDelta)
      ensures moved == (Held(keyStates, "KeyW") || Held(keyStates, "KeyS")
                        || Held(keyStates, "KeyA") || Held(keyStates, "KeyD"))
    {
      moved := false;
      if Held(keyStates, "KeyW") {
        velocity := velocity.Plus(basis.forward.Times(speedDelta));
        moved := true;
      }
      if Held(keyStates, "KeyS") {
        velocity := velocity.Plus(basis.forward.Times(-speedDelta));
        moved := true;
      }
      if Held(keyStates, "KeyA") {
        velocity := velocity.Plus(basis.side.Times(-speedDelta));
        moved := true;
      }
      if Held(keyStates, "KeyD") {
        velocity := velocity.Plus(basis.side.Times(speedDelta));
        moved := true;
      }
    }

    /** The joystick block of `controls`: in first-person mode and outside
        the deadzone the stick pushes the velocity; the result says whether
        it did. */
    method JoystickThrust(basis: Basis, speedDelta: real) returns (moved: bool)
      modifies this`velocity
      ensures velocity == StickPush(old(velocity), CurrentInput(), basis, speedDelta)
      ensures moved == StickEngaged(CurrentInput())
    {
      var input := CurrentInput();
      var joystickDirection := input.stick;
      var v := velocity;
      moved := false;
      if StickEngaged(input) {
        v := v.Plus(basis.forward.Times(-joystickDirection.y * speedDelta));
        v := v.Plus(basis.side.Times(joystickDirection.x * speedDelta));
        moved := true;
      }
      assert v == StickPush(velocity, input, basis, speedDelta);
      velocity := v;
    }

    /** `controls(deltaTime)`. `heading` gives the camera's forward and side
        vectors for its rotation. The result says whether pointer lock was
        requested. */
    method Controls(deltaTime: real, heading: Vec3 -> Basis) returns (lockRequested: bool)
      modifies this`velocity
      ensures State() == Steer(old(State()), CurrentInput(), heading(camera.rotation), deltaTime)
      ensures lockRequested == WantsPointerLock(CurrentInput())
    {
      var basis := heading(camera.rotation);
      var speedDelta := deltaTime * (if onFloor then GROUND_AUTHORITY else AIR_AUTHORITY);
      var keysMoved := KeyboardThrust(basis, speedDelta);
      var stickMoved := JoystickThrust(basis, speedDelta);
      var movementDetected := keysMoved || stickMoved;
      lockRequested := movementDetected && !joystick.isMobile;
      if onFloor {
        if Held(keyStates, "Space") {
          velocity := velocity.(y := JUMP_SPEED);
        }
      }
    }

    method TeleportPlayerIfOob()
      modifies this`collider, camera`position, camera`rotation
      ensures State() == Teleport(old(State()))
    {
      if camera.position.y <= FALL_LIMIT {
        collider := Capsule(SPAWN_START, SPAWN_END, RESET_RADIUS);
        camera.position := collider.end;
        camera.rotation := Origin3;
      }
    }

    /** One frame of `delta` seconds: five substeps of `controls`,
        `updatePlayer` and the out-of-bounds check. `dampingFor` stands for
        `t => Math.exp(-4 * t) - 1`. */
    method Tick(delta: real, dampingFor: real -> real, heading: Vec3 -> Basis,
                world: Capsule -> Option<Contact>) returns (lockRequested: bool)
      modifies this`velocity, this`collider, this`onFloor, camera`position, camera`rotation
      ensures State() == Frame(old(State()), delta, CurrentInput(), heading, dampingFor, world)
      ensures lockRequested == WantsPointerLock(CurrentInput())
      ensures camera.position == collider.end && camera.position.y > FALL_LIMIT
    {
      lockRequested := false;
      for i := 0 to STEPS_PER_FRAME
        invariant State() == Substeps(old(State()), i, CurrentInput(), heading,
                                      SubstepDt(delta), dampingFor(SubstepDt(delta)), world)
        invariant lockRequested == (i > 0 && WantsPointerLock(CurrentInput()))
      {
        var deltaTime := Min(MAX_FRAME, delta) / STEPS_PER_FRAME as real;
        var requested := Controls(deltaTime, heading);
        UpdatePlayer(deltaTime, dampingFor(deltaTime), world);
        TeleportPlayerIfOob();
        lockRequested := lockRequested || requested;
      }
    }

    /** Entering first-person mode shows the joystick and enables touch-look
        only on a device the joystick judges mobile; leaving it always hides
        the joystick and disables touch-look, cancelling any look in
        progress. */
    method SetFirstPersonMode(isFirstPerson: bool)
      modifies this`firstPersonActive, joystick`visible, touchLook`enabled, touchLook`isLooking
      ensures firstPersonActive == isFirstPerson
      ensures isFirstPerson && joystick.isMobile ==>
        joystick.visible && touchLook.State() == EnableLook(old(touchLook.State()))
      ensures isFirstPerson && !joystick.isMobile ==>
        joystick.visible == old(joystick.visible) && touchLook.State() == old(touchLook.State())
      ensures !isFirstPerson ==>
        !joystick.visible && touchLook.State() == DisableLook(old(touchLook.State()))
      ensures !isFirstPerson ==> !touchLook.enabled && !touchLook.isLooking
    {
      firstPersonActive := isFirstPerson;
      if isFirstPerson {
        if joystick.isMobile {
          joystick.Show();
          touchLook.Enable();
        }
      } else {
        joystick.Hide();
        touchLook.Disable();
      }
    }

    /** Redirects touch-look to another camera. The player itself keeps
        moving the camera it was created with. */
    method UpdateCamera(newCamera: Camera)
      modifies touchLook`camera
      ensures touchLook.camera == newCamera
    {
      touchLook.camera := newCamera;
    }

    method ShowMobileControls()
      modifies joystick`visible
      ensures joystick.visible
    {
      joystick.Show();
    }

    method HideMobileControls()
      modifies joystick`visible
      ensures !joystick.visible
    {
      joystick.Hide();
    }
  }
}
