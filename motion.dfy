/** One physics substep of the player, as pure functions of the player's
    state: steering (`controls`), integration and collision response
    (`updatePlayer`, `playerCollisions`) and the out-of-bounds reset
    (`teleportPlayerIfOob`), and the five-substep frame (`tick`). */
module Motion {
  import opened Geometry

  const GRAVITY: real := 30.0
  const STEPS_PER_FRAME: nat := 5
  /** Longest frame time integrated in one tick, in seconds. */
  const MAX_FRAME: real := 0.05
  const GROUND_AUTHORITY: real := 25.0
  const AIR_AUTHORITY: real := 8.0
  /** Airborne damping is a tenth of the ground damping. */
  const AIR_DAMPING_SCALE: real := 0.1
  const JUMP_SPEED: real := 15.0
  const DEADZONE: real := 0.1
  /** A camera at or below this height has fallen out of the world. */
  const FALL_LIMIT: real := -25.0
  const SPAWN_START: Vec3 := Vec3(0.0, 1.35, 15.0)
  const SPAWN_END: Vec3 := Vec3(0.0, 2.8, 15.0)
  /** Radius of the capsule built by `createPlayer`. */
  const SPAWN_RADIUS: real := 0.25
  /** Radius the out-of-bounds reset gives the capsule. */
  const RESET_RADIUS: real := 0.35
  const SPAWN_AXIS: Vec3 := Vec3(0.0, 1.45, 0.0)

  datatype Option<T> = None | Some(value: T)

  /** The player's swept volume: the segment from `start` to `end`, widened
      by `radius`. */
  datatype Capsule = Capsule(start: Vec3, end: Vec3, radius: real) {
    function Translate(v: Vec3): Capsule { Capsule(start.Plus(v), end.Plus(v), radius) }
    function Axis(): Vec3 { end.Minus(start) }
  }

  /** The octree's answer to a capsule query: the contact normal and the
      penetration depth. */
  datatype Contact = Contact(normal: Vec3, depth: real)

  /** The state `tick` works on: the closure variables of `createPlayer`
      and the camera's position and rotation. */
  datatype PlayerState = PlayerState(
    collider: Capsule,
    velocity: Vec3,
    onFloor: bool,
    cameraPosition: Vec3,
    cameraRotation: Vec3)

  /** What the input handlers have recorded when a tick starts: the key
      states by `event.code`, the joystick direction, whether first-person
      mode is on, and whether the joystick judged the device mobile. */
  datatype Input = Input(keys: map<string, bool>, stick: Vec2, firstPerson: bool, handheld: bool)

  /** The horizontal forward and side directions of the camera
      (`getForwardVector`, `getSideVector`). */
  datatype Basis = Basis(forward: Vec3, side: Vec3)

  predicate Held(keys: map<string, bool>, code: string) {
    code in keys && keys[code]
  }

  /** The joystick steers only in first-person mode and outside the
      deadzone on at least one axis. */
  predicate StickEngaged(input: Input) {
    input.firstPerson && (Abs(input.stick.x) > DEADZONE || Abs(input.stick.y) > DEADZONE)
  }

  predicate MovementDetected(input: Input) {
    Held(input.keys, "KeyW") || Held(input.keys, "KeyS") || Held(input.keys, "KeyA")
    || Held(input.keys, "KeyD") || StickEngaged(input)
  }

  /** `controls` asks for pointer lock when anything moved the player on a
      device the joystick does not consider mobile. */
  predicate WantsPointerLock(input: Input) {
    MovementDetected(input) && !input.handheld
  }

  /** The speed one key adds in a substep of `dt`: more authority on the
      floor than in the air. */
  function SpeedDelta(dt: real, onFloor: bool): (sd: real)
    ensures onFloor ==> sd == 25.0 * dt
    ensures !onFloor ==> sd == 8.0 * dt
    ensures dt >= 0.0 ==> 0.0 <= sd <= 25.0 * dt
  {
    dt * (if onFloor then GROUND_AUTHORITY else AIR_AUTHORITY)
  }

  /** `v` pushed by `k` along `dir` when `on` holds, `v` otherwise. */
  function Push(v: Vec3, on: bool, dir: Vec3, k: real): Vec3 {
    if on then v.Plus(dir.Times(k)) else v
  }

  /** The keyboard part of `controls`: W and S push along the forward
      vector, A and D along the side vector, in that order. */
  function KeyPush(v: Vec3, keys: map<string, bool>, basis: Basis, speedDelta: real): (r: Vec3)
    ensures !Held(keys, "KeyW") && !Held(keys, "KeyS") && !Held(keys, "KeyA") && !Held(keys, "KeyD") ==> r == v
  {
    Push(Push(Push(Push(v, Held(keys, "KeyW"), basis.forward, speedDelta),
                   Held(keys, "KeyS"), basis.forward, -speedDelta),
              Held(keys, "KeyA"), basis.side, -speedDelta),
         Held(keys, "KeyD"), basis.side, speedDelta)
  }

  /** The joystick part of `controls`: stick y (screen down) pushes
      backwards, stick x strafes. */
  function StickPush(v: Vec3, input: Input, basis: Basis, speedDelta: real): (r: Vec3)
    ensures !StickEngaged(input) ==> r == v
    ensures StickEngaged(input) ==>
      r == v.Plus(basis.forward.Times(-speedDelta * input.stick.y)).Plus(basis.side.Times(speedDelta * input.stick.x))
  {
    if StickEngaged(input) then
      v.Plus(basis.forward.Times(-input.stick.y * speedDelta)).Plus(basis.side.Times(input.stick.x * speedDelta))
    else
      v
  }

  /** The velocity `controls` leaves: keys, then joystick, then a held
      Space on the floor sets the vertical speed. */
  function SteerVelocity(v: Vec3, onFloor: bool, input: Input, basis: Basis, speedDelta: real): (r: Vec3)
    ensures onFloor && Held(input.keys, "Space") ==> r.y == JUMP_SPEED
    ensures var pushed := StickPush(KeyPush(v, input.keys, basis, speedDelta), input, basis, speedDelta);
      r.x == pushed.x && r.z == pushed.z
      && (!(onFloor && Held(input.keys, "Space")) ==> r == pushed)
  {
    var pushed := StickPush(KeyPush(v, input.keys, basis, speedDelta), input, basis, speedDelta);
    if onFloor && Held(input.keys, "Space") then pushed.(y := JUMP_SPEED) else pushed
  }

  function Bit(b: bool): real { if b then 1.0 else 0.0 }

  /** The keyboard block adds the net key thrust: forward minus back along
      the forward vector, right minus left along the side vector, whatever
      order the keys are tested in. */
  lemma KeyPushIsNetThrust(v: Vec3, keys: map<string, bool>, basis: Basis, sd: real)
    ensures KeyPush(v, keys, basis, sd)
         == v.Plus(basis.forward.Times(sd * (Bit(Held(keys, "KeyW")) - Bit(Held(keys, "KeyS")))))
             .Plus(basis.side.Times(sd * (Bit(Held(keys, "KeyD")) - Bit(Held(keys, "KeyA")))))
  {
    var w, b, l, r := Held(keys, "KeyW"), Held(keys, "KeyS"), Held(keys, "KeyA"), Held(keys, "KeyD");
    assert KeyPush(v, keys, basis, sd)
        == Push(Push(Push(Push(v, w, basis.forward, sd), b, basis.forward, -sd), l, basis.side, -sd), r, basis.side, sd);
    FourPushes(v, basis.forward, basis.side, sd, w, b, l, r);
  }

  lemma FourPushes(v: Vec3, f: Vec3, t: Vec3, sd: real, w: bool, b: bool, l: bool, r: bool)
    ensures Push(Push(Push(Push(v, w, f, sd), b, f, -sd), l, t, -sd), r, t, sd)
         == v.Plus(f.Times(sd * (Bit(w) - Bit(b)))).Plus(t.Times(sd * (Bit(r) - Bit(l))))
  {
    var kf, kt := sd * (Bit(w) - Bit(b)), sd * (Bit(r) - Bit(l));
    var u := Push(Push(v, w, f, sd), b, f, -sd);
    assert u == v.Plus(f.Times(kf)) by {
      if w && b {
        assert kf == 0.0;
      }
    }
    assert Push(Push(u, l, t, -sd), r, t, sd) == u.Plus(t.Times(kt)) by {
      if l && r {
        assert kt == 0.0;
      }
    }
  }

  /** `controls`: only the velocity changes, and a held Space on the floor
      leaves the vertical speed at 15. */
  function Steer(s: PlayerState, input: Input, basis: Basis, dt: real): (r: PlayerState)
    ensures r.collider == s.collider && r.onFloor == s.onFloor
    ensures r.cameraPosition == s.cameraPosition && r.cameraRotation == s.cameraRotation
    ensures s.onFloor && Held(input.keys, "Space") ==> r.velocity.y == JUMP_SPEED
  {
    s.(velocity := SteerVelocity(s.velocity, s.onFloor, input, basis, SpeedDelta(dt, s.onFloor)))
  }

  /** Without movement input and without a jump from the floor, steering
      changes nothing. */
  lemma SteerIdle(s: PlayerState, input: Input, basis: Basis, dt: real)
    requires !MovementDetected(input)
    requires !(s.onFloor && Held(input.keys, "Space"))
    ensures Steer(s, input, basis, dt) == s
  {
  }

  /** The joystick is ignored outside first-person mode and inside the
      deadzone: the result is the same as with the stick centred. */
  lemma SteerIgnoresIdleStick(s: PlayerState, input: Input, basis: Basis, dt: real)
    requires !StickEngaged(input)
    ensures Steer(s, input, basis, dt) == Steer(s, input.(stick := Origin2), basis, dt)
    ensures Steer(s, input, basis, dt) == Steer(s, input.(firstPerson := false), basis, dt)
  {
  }

  /** Space does nothing in the air: there is no jump unless on the floor. */
  lemma NoJumpInAir(s: PlayerState, input: Input, basis: Basis, dt: real)
    requires !s.onFloor
    ensures Steer(s, input, basis, dt) == Steer(s, input.(keys := input.keys["Space" := false]), basis, dt)
  {
    var quiet := input.(keys := input.keys["Space" := false]);
    var sd := SpeedDelta(dt, s.onFloor);
    assert StickEngaged(quiet) == StickEngaged(input);
    assert KeyPush(s.velocity, quiet.keys, basis, sd) == KeyPush(s.velocity, input.keys, basis, sd) by {
      assert Held(quiet.keys, "KeyW") == Held(input.keys, "KeyW");
      assert Held(quiet.keys, "KeyS") == Held(input.keys, "KeyS");
      assert Held(quiet.keys, "KeyA") == Held(input.keys, "KeyA");
      assert Held(quiet.keys, "KeyD") == Held(input.keys, "KeyD");
    }
  }

  /** Holding only the forward key adds `dt*25` of forward speed on the
      floor and `dt*8` in the air. */
  lemma ForwardKeyAuthority(s: PlayerState, input: Input, basis: Basis, dt: real)
    requires Held(input.keys, "KeyW")
    requires !Held(input.keys, "KeyS") && !Held(input.keys, "KeyA") && !Held(input.keys, "KeyD")
    requires !StickEngaged(input) && !Held(input.keys, "Space")
    ensures s.onFloor ==> Steer(s, input, basis, dt).velocity == s.velocity.Plus(basis.forward.Times(dt * 25.0))
    ensures !s.onFloor ==> Steer(s, input, basis, dt).velocity == s.velocity.Plus(basis.forward.Times(dt * 8.0))
  {
  }

  /** Opposite keys cancel: forward with back, left with right. */
  lemma OppositeKeysCancel(s: PlayerState, input: Input, basis: Basis, dt: real)
    requires Held(input.keys, "KeyW") && Held(input.keys, "KeyS")
    requires Held(input.keys, "KeyA") && Held(input.keys, "KeyD")
    requires !StickEngaged(input) && !Held(input.keys, "Space")
    ensures Steer(s, input, basis, dt).velocity == s.velocity
  {
  }

  /** `playerCollisions` for the octree's answer `hit`: a contact whose
      normal points up is floor, anything else is wall or ceiling and loses
      the velocity component along its normal; every contact pushes the
      capsule out along the normal by the depth. */
  function Collide(s: PlayerState, hit: Option<Contact>): (r: PlayerState)
    ensures r.onFloor <==> hit.Some? && hit.value.normal.y > 0.0
    ensures hit.None? ==> r == s.(onFloor := false)
    ensures hit.Some? ==> r.collider == s.collider.Translate(hit.value.normal.Times(hit.value.depth))
    ensures r.onFloor ==> r.velocity == s.velocity
    ensures r.collider.Axis() == s.collider.Axis() && r.collider.radius == s.collider.radius
    ensures r.cameraPosition == s.cameraPosition && r.cameraRotation == s.cameraRotation
  {
    match hit
    case None => s.(onFloor := false)
    case Some(c) =>
      TranslateKeepsAxis(s.collider, c.normal.Times(c.depth));
      var floor := c.normal.y > 0.0;
      var v := if floor then s.velocity else s.velocity.Plus(c.normal.Times(-c.normal.Dot(s.velocity)));
      s.(onFloor := floor, velocity := v, collider := s.collider.Translate(c.normal.Times(c.depth)))
  }

  /** Removing the normal component of `v` along a unit normal `n`. */
  lemma ProjectOut(v: Vec3, n: Vec3)
    requires IsUnit(n)
    ensures v.Plus(n.Times(-n.Dot(v))).Dot(n) == 0.0
  {
    var k := n.Dot(v);
    calc {
      v.Plus(n.Times(-k)).Dot(n);
      (v.x - k * n.x) * n.x + (v.y - k * n.y) * n.y + (v.z - k * n.z) * n.z;
      (v.x * n.x + v.y * n.y + v.z * n.z) - k * (n.x * n.x + n.y * n.y + n.z * n.z);
      { assert n.Norm2() == n.x * n.x + n.y * n.y + n.z * n.z == 1.0; }
      k - k * 1.0;
    }
  }

  /** After a wall or ceiling contact with a unit normal the velocity has
      no component into (or out of) the surface. */
  lemma WallContactStopsNormalMotion(s: PlayerState, c: Contact)
    requires IsUnit(c.normal) && c.normal.y <= 0.0
    ensures Collide(s, Some(c)).velocity.Dot(c.normal) == 0.0
    ensures !Collide(s, Some(c)).onFloor
  {
    ProjectOut(s.velocity, c.normal);
  }

  /** ... and keeps every component along the surface: the player slides. */
  lemma WallContactKeepsSliding(s: PlayerState, c: Contact, t: Vec3)
    requires c.normal.y <= 0.0 && t.Dot(c.normal) == 0.0
    ensures Collide(s, Some(c)).velocity.Dot(t) == s.velocity.Dot(t)
  {
    var k := c.normal.Dot(s.velocity);
    var n := c.normal;
    calc {
      Collide(s, Some(c)).velocity.Dot(t);
      s.velocity.Plus(n.Times(-k)).Dot(t);
      s.velocity.Dot(t) - k * n.Dot(t);
    }
  }

  /** ... and never speeds the player up. */
  lemma WallContactNeverAccelerates(s: PlayerState, c: Contact)
    requires IsUnit(c.normal) && c.normal.y <= 0.0
    ensures Collide(s, Some(c)).velocity.Norm2() <= s.velocity.Norm2()
  {
    var v := s.velocity;
    var n := c.normal;
    var k := n.Dot(v);
    var w := v.Plus(n.Times(-k));
    calc {
      w.Norm2();
      (v.x - k * n.x) * (v.x - k * n.x) + (v.y - k * n.y) * (v.y - k * n.y) + (v.z - k * n.z) * (v.z - k * n.z);
      v.Norm2() - 2.0 * k * v.Dot(n) + k * k * n.Norm2();
      v.Norm2() - k * k;
    }
  }

  /** The same wall twice in a row leaves the velocity alone the second
      time. */
  lemma WallContactIdempotent(s: PlayerState, c: Contact)
    requires IsUnit(c.normal) && c.normal.y <= 0.0
    ensures Collide(Collide(s, Some(c)), Some(c)).velocity == Collide(s, Some(c)).velocity
  {
    var r := Collide(s, Some(c));
    WallContactStopsNormalMotion(s, c);
    assert c.normal.Dot(r.velocity) == 0.0;
  }

  lemma TranslateKeepsAxis(k: Capsule, v: Vec3)
    ensures k.Translate(v).Axis() == k.Axis()
    ensures k.Translate(v).radius == k.radius
  {
  }

  /** Gravity when airborne, then damping (a tenth of it when airborne),
      then moving the capsule by `velocity * dt`. `damping` is
      `Math.exp(-4 * dt) - 1`. */
  function Integrate(s: PlayerState, dt: real, damping: real): (r: PlayerState)
    ensures r.collider == s.collider.Translate(r.velocity.Times(dt))
    ensures r.onFloor == s.onFloor
    ensures r.cameraPosition == s.cameraPosition && r.cameraRotation == s.cameraRotation
  {
    var v1 := if s.onFloor then s.velocity else s.velocity.(y := s.velocity.y - GRAVITY * dt);
    var d := if s.onFloor then damping else damping * AIR_DAMPING_SCALE;
    var v2 := v1.Plus(v1.Times(d));
    s.(velocity := v2, collider := s.collider.Translate(v2.Times(dt)))
  }

  /** On the floor there is no gravity: the velocity is only damped. In the
      air gravity subtracts `30*dt` from the vertical speed first and the
      damping is a tenth as strong. */
  lemma IntegrateVelocity(s: PlayerState, dt: real, damping: real)
    ensures s.onFloor ==> Integrate(s, dt, damping).velocity == s.velocity.Times(1.0 + damping)
    ensures !s.onFloor ==>
      Integrate(s, dt, damping).velocity
      == Vec3(s.velocity.x, s.velocity.y - 30.0 * dt, s.velocity.z).Times(1.0 + 0.1 * damping)
  {
    if s.onFloor {
      DampingIsScaling(s.velocity, damping);
    } else {
      var fallen := s.velocity.(y := s.velocity.y - GRAVITY * dt);
      DampingIsScaling(fallen, damping * AIR_DAMPING_SCALE);
      assert damping * AIR_DAMPING_SCALE == 0.1 * damping;
    }
  }

  /** Adding `d` times a vector to itself scales it by `1 + d`. */
  lemma DampingIsScaling(v: Vec3, d: real)
    ensures v.Plus(v.Times(d)) == v.Times(1.0 + d)
  {
  }

  /** With a damping factor in (-1, 0], one step of damping on the floor
      shrinks every component towards zero without flipping its sign. */
  lemma DampingNeverFlipsSign(s: PlayerState, dt: real, damping: real)
    requires s.onFloor && -1.0 < damping <= 0.0
    ensures var v := Integrate(s, dt, damping).velocity;
      && v.x * s.velocity.x >= 0.0 && Abs(v.x) <= Abs(s.velocity.x)
      && v.y * s.velocity.y >= 0.0 && Abs(v.y) <= Abs(s.velocity.y)
      && v.z * s.velocity.z >= 0.0 && Abs(v.z) <= Abs(s.velocity.z)
  {
    IntegrateVelocity(s, dt, damping);
    var f := 1.0 + damping;
    assert 0.0 < f <= 1.0;
    ShrinkComponent(s.velocity.x, f);
    ShrinkComponent(s.velocity.y, f);
    ShrinkComponent(s.velocity.z, f);
  }

  lemma ShrinkComponent(a: real, f: real)
    requires 0.0 < f <= 1.0
    ensures (f * a) * a >= 0.0 && Abs(f * a) <= Abs(a)
  {
    if a >= 0.0 {
      assert f * a <= a;
    } else {
      assert f * a >= a;
    }
  }

  /** `updatePlayer`: integrate, resolve against the octree's answer for
      the moved capsule, then put the camera at the capsule's top. */
  function Advance(s: PlayerState, dt: real, damping: real, world: Capsule -> Option<Contact>): (r: PlayerState)
    ensures r.cameraPosition == r.collider.end
    ensures r.cameraRotation == s.cameraRotation
    ensures r.collider.radius == s.collider.radius
    ensures r.collider.Axis() == s.collider.Axis()
  {
    var m := Integrate(s, dt, damping);
    TranslateKeepsAxis(s.collider, m.velocity.Times(dt));
    var c := Collide(m, world(m.collider));
    c.(cameraPosition := c.collider.end)
  }

  /** Standing on the floor with no input, a substep never makes the player
      faster, whatever single contact the octree reports (unit normals). */
  lemma FloorSubstepNeverAccelerates(s: PlayerState, dt: real, damping: real, world: Capsule -> Option<Contact>)
    requires s.onFloor && -1.0 < damping <= 0.0
    requires var m := Integrate(s, dt, damping); world(m.collider).Some? ==> IsUnit(world(m.collider).value.normal)
    ensures Advance(s, dt, damping, world).velocity.Norm2() <= s.velocity.Norm2()
  {
    var m := Integrate(s, dt, damping);
    DampingNeverFlipsSign(s, dt, damping);
    NormFromComponents(m.velocity, s.velocity);
    var hit := world(m.collider);
    if hit.Some? && hit.value.normal.y <= 0.0 {
      WallContactNeverAccelerates(m, hit.value);
    }
  }

  lemma NormFromComponents(v: Vec3, w: Vec3)
    requires Abs(v.x) <= Abs(w.x) && Abs(v.y) <= Abs(w.y) && Abs(v.z) <= Abs(w.z)
    ensures v.Norm2() <= w.Norm2()
  {
    SquareMonotone(v.x, w.x);
    SquareMonotone(v.y, w.y);
    SquareMonotone(v.z, w.z);
  }

  lemma SquareMonotone(a: real, b: real)
    requires Abs(a) <= Abs(b)
    ensures a * a <= b * b
  {
    assert a * a == Abs(a) * Abs(a) && b * b == Abs(b) * Abs(b);
    assert Abs(a) * Abs(a) <= Abs(a) * Abs(b) <= Abs(b) * Abs(b);
  }

  /** `teleportPlayerIfOob`: a camera at or below the fall limit puts the
      capsule back at the spawn point with radius 0.35, moves the camera to
      the capsule's top and levels it; the velocity is kept. */
  function Teleport(s: PlayerState): (r: PlayerState)
    ensures r.cameraPosition.y > FALL_LIMIT
    ensures r.velocity == s.velocity && r.onFloor == s.onFloor
    ensures s.cameraPosition.y > FALL_LIMIT ==> r == s
    ensures s.cameraPosition.y <= FALL_LIMIT ==>
      && r.collider == Capsule(SPAWN_START, SPAWN_END, RESET_RADIUS)
      && r.cameraPosition == SPAWN_END
      && r.cameraRotation == Origin3
  {
    if s.cameraPosition.y <= FALL_LIMIT then
      s.(collider := Capsule(SPAWN_START, SPAWN_END, RESET_RADIUS),
         cameraPosition := SPAWN_END,
         cameraRotation := Origin3)
    else
      s
  }

  /** One iteration of the `tick` loop: `controls`, `updatePlayer`,
      `teleportPlayerIfOob`. The basis is derived from the camera's
      rotation at the start of the substep. */
  function Substep(s: PlayerState, input: Input, heading: Vec3 -> Basis, dt: real, damping: real,
                   world: Capsule -> Option<Contact>): (r: PlayerState)
    ensures r.cameraPosition.y > FALL_LIMIT
    ensures r.cameraPosition == r.collider.end
    ensures r.collider.radius == s.collider.radius || r.collider.radius == RESET_RADIUS
    ensures s.collider.Axis() == SPAWN_AXIS ==> r.collider.Axis() == SPAWN_AXIS
  {
    var steered := Steer(s, input, heading(s.cameraRotation), dt);
    var moved := Advance(steered, dt, damping, world);
    Teleport(moved)
  }

  /** The first `n` substeps of a tick. */
  function Substeps(s: PlayerState, n: nat, input: Input, heading: Vec3 -> Basis, dt: real, damping: real,
                    world: Capsule -> Option<Contact>): (r: PlayerState)
    ensures n > 0 ==> r.cameraPosition == r.collider.end && r.cameraPosition.y > FALL_LIMIT
    ensures r.collider.radius == s.collider.radius || r.collider.radius == RESET_RADIUS
    ensures s.collider.Axis() == SPAWN_AXIS ==> r.collider.Axis() == SPAWN_AXIS
    decreases n
  {
    if n == 0 then s
    else Substep(Substeps(s, n - 1, input, heading, dt, damping, world), input, heading, dt, damping, world)
  }

  /** The substep length of a frame of `delta` seconds: the frame is capped
      at 0.05 s and split into five. */
  function SubstepDt(delta: real): (dt: real)
    ensures dt * 5.0 == Min(MAX_FRAME, delta)
    ensures dt <= 0.01
  {
    Min(MAX_FRAME, delta) / STEPS_PER_FRAME as real
  }

  /** `tick(delta)`: five substeps of `SubstepDt(delta)`; `dampingFor`
      stands for `t => Math.exp(-4 * t) - 1`. */
  function Frame(s: PlayerState, delta: real, input: Input, heading: Vec3 -> Basis, dampingFor: real -> real,
                 world: Capsule -> Option<Contact>): (r: PlayerState)
    ensures r.cameraPosition == r.collider.end && r.cameraPosition.y > FALL_LIMIT
    ensures r.collider.radius == s.collider.radius || r.collider.radius == RESET_RADIUS
  {
    var dt := SubstepDt(delta);
    Substeps(s, STEPS_PER_FRAME, input, heading, dt, dampingFor(dt), world)
  }

  /** A player that has fallen out of the world while its velocity says
      otherwise still comes back: if `updatePlayer` leaves the camera at or
      below the fall limit, the substep ends at the spawn capsule with
      radius 0.35, whatever the velocity. */
  lemma FallenPlayerRespawns(s: PlayerState, input: Input, heading: Vec3 -> Basis, dt: real, damping: real,
                             world: Capsule -> Option<Contact>)
    requires Advance(Steer(s, input, heading(s.cameraRotation), dt), dt, damping, world).cameraPosition.y <= FALL_LIMIT
    ensures Substep(s, input, heading, dt, damping, world).collider == Capsule(SPAWN_START, SPAWN_END, RESET_RADIUS)
    ensures Substep(s, input, heading, dt, damping, world).cameraRotation == Origin3
    ensures Substep(s, input, heading, dt, damping, world).velocity
         == Advance(Steer(s, input, heading(s.cameraRotation), dt), dt, damping, world).velocity
  {
  }

  /** The spawn capsule of `createPlayer` has the same axis as the reset
      capsule; only the radius differs (0.25 against 0.35). */
  lemma SpawnAndResetShapes()
    ensures Capsule(SPAWN_START, SPAWN_END, SPAWN_RADIUS).Axis() == SPAWN_AXIS
    ensures Capsule(SPAWN_START, SPAWN_END, RESET_RADIUS).Axis() == SPAWN_AXIS
    ensures SPAWN_RADIUS != RESET_RADIUS
  {
  }
}
