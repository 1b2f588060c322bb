# Player controller model

A Dafny model of the first-person player controller of a three.js scene
(`src/World/systems/player.js`). The controller has three parts:

- **Touch-look** (`createTouchLookControls`). A one-finger drag on the canvas turns the
  camera: yaw is free and pitch is clamped to [-π/2, π/2]. Dragging only works
  while the controls are enabled.
- **Virtual joystick** (`VirtualJoystick`). A touch on its disc arms it, and a
  drag reports a direction inside the unit disc (the class invariant `Valid`).
  Lifting any finger disarms it and recentres the direction.
- **Player** (`createPlayer`). A capsule collider with a velocity and an
  on-floor flag, advanced by `tick` in five substeps. Each substep:
  - `controls` turns keys and joystick into thrust and a jump;
  - `updatePlayer` applies gravity, damping and the move, and `playerCollisions`
    answers the octree's single contact;
  - `teleportPlayerIfOob` resets a player who fell below the world.

  `setFirstPersonMode` switches the joystick and touch-look on and off.

Layout:

- `geometry.dfy` (`Geometry`): exact real vectors and the camera object.
- `touch_look.dfy` (`TouchLook`): the touch-look handlers.
  - Pure transitions on a `Look` record and lemmas about them, including ones
    about whole event sequences (`Replay`).
  - The class `TouchLookControls`, whose methods are proved against those
    transitions.
- `joystick.dfy` (`Joystick`): the class `VirtualJoystick`, plus the knob
  geometry as a predicate.
- `motion.dfy` (`Motion`): one substep as pure functions of a `PlayerState`
  (`Steer`, `Collide`, `Integrate`, `Advance`, `Teleport`, `Substeps`,
  `Frame`), with the lemmas about them.
- `player.dfy` (`Player`): the class `PlayerController`.
  - Its fields are the closure variables of `createPlayer`.
  - Each method ensures that the new `State()` is the matching `Motion`
    function of the old one.
  - `Tick` runs the five-iteration loop with that as its loop invariant.

Inputs the controller gets from its environment become parameters:

- `world: Capsule -> Option<Contact>` is the octree's `capsuleIntersect`.
- `damping` / `dampingFor` is `Math.exp(-4·dt) - 1`.
- `heading: Vec3 -> Basis` gives the forward and side vectors of a camera
  rotation (`getForwardVector`, `getSideVector`). It is a function of the
  rotation because an out-of-bounds reset levels the camera in the middle of a
  tick.
- `VirtualJoystick.HandleTouchMove` takes the touch point and the knob
  position. It requires `KnobPlacement(touch - center, knob)`, which states
  what the source computes with `sqrt`/`atan2`/`cos`/`sin`.
- `accepted` is the canvas-target or UI-element test of the touch-look start
  handler.
- `handheld` is the joystick's platform probe (`detectMobile`).

Two behaviours of the code are easy to misread; the model follows the code:

- The out-of-bounds check runs after every substep, not once per frame.
- `updateCamera` only redirects touch-look to the new camera. The player keeps
  writing the position of the camera it was created with.

## Model

| member | source | states |
|---|---|---|
| TouchLook.ClampPitch | src/World/systems/player.js:142 | the clamped pitch lies in [-π/2, π/2] and a pitch already in range is left unchanged |
| TouchLook.ClampPitchIsNearest | src/World/systems/player.js:142 | the clamp chooses the admissible pitch closest to the requested one |
| TouchLook.Turn | src/World/systems/player.js:136-142 | after a drag the pitch is in range and the roll is untouched |
| TouchLook.TurnYawComposes | src/World/systems/player.js:139 | yaw is unclamped: two drags p→q→t turn as far as one drag p→t |
| TouchLook.StartLook | src/World/systems/player.js:106-128 | computes the record after a touch start; the rotation and `enabled` are kept, and a look is in progress afterwards exactly when one was before or the gate (enabled, accepted, one touch) let this touch through |
| TouchLook.MoveLook | src/World/systems/player.js:130-146 | computes the record after a touch move; the flags are kept and a pitch in range stays in range |
| TouchLook.EndLook | src/World/systems/player.js:148-150 | computes the record after a touch end: not looking, everything else kept |
| TouchLook.EnableLook | src/World/systems/player.js:169-172 | computes the record after `enable`: enabled, look flag and rotation kept |
| TouchLook.DisableLook | src/World/systems/player.js:174-178 | computes the record after `disable`: neither enabled nor looking, rotation kept |
| TouchLook.TouchStartGate | src/World/systems/player.js:106-128 | a touch start changes the state only if the controls are enabled, the touch is accepted and it is the only touch; it then starts a look at that point and leaves the camera and the enabled flag alone |
| TouchLook.TouchMoveGate | src/World/systems/player.js:130-146 | a touch move is a no-op unless the controls are enabled, a look is in progress and exactly one touch is down; when it applies, the pitch is in range, the latest point is remembered and the look continues |
| TouchLook.TouchEndClears | src/World/systems/player.js:148-150 | touch end always clears `isLooking` and changes neither the rotation nor `enabled` |
| TouchLook.DisableCancelsGesture | src/World/systems/player.js:174-178 | after `disable` both flags are false and a following move does nothing |
| TouchLook.ReplayKeepsPitchInRange | src/World/systems/player.js:130-146 | over any sequence of touch events and enable/disable calls, a pitch that starts in range stays in range |
| TouchLook.DisabledControlsStayInert | src/World/systems/player.js:106-150 | disabled controls ignore every touch sequence that contains no enable call: no rotation and no look |
| TouchLook.TouchLookControls.constructor | src/World/systems/player.js:7-15 | the controls start disabled, not looking, with the previous touch at (0, 0) |
| TouchLook.TouchLookControls.HandleTouchStart | src/World/systems/player.js:106-128 | the new flags and touch point are `StartLook` of the old ones |
| TouchLook.TouchLookControls.HandleTouchMove | src/World/systems/player.js:130-146 | the new rotation and touch point are `MoveLook` of the old ones |
| TouchLook.TouchLookControls.HandleTouchEnd | src/World/systems/player.js:148-150 | `isLooking` is false afterwards; nothing else changes |
| TouchLook.TouchLookControls.Enable | src/World/systems/player.js:169-172 | `enabled` becomes true; nothing else changes |
| TouchLook.TouchLookControls.Disable | src/World/systems/player.js:174-178 | `enabled` and `isLooking` become false; nothing else changes |
| Joystick.KnobPlacement | src/World/systems/player.js:286-294 | where the knob sits for a touch offset: the offset itself within 30 units, otherwise the rim point in the offset's direction; any such knob is within 30 units of the centre |
| Joystick.Direction | src/World/systems/player.js:298-300 | the direction reported for a knob position is the knob offset divided by 30 (times 30 it gives the knob back) |
| Joystick.DirectionWithinUnitDisc | src/World/systems/player.js:282-301 | for every knob placement the reported direction has length at most 1 |
| Joystick.DirectionTracksOffsetInsideRadius | src/World/systems/player.js:290-301 | within 30 units of the centre the direction is the drag offset divided by 30 |
| Joystick.DirectionSaturatesOutsideRadius | src/World/systems/player.js:290-301 | beyond 30 units the direction has length exactly 1 and points the way of the drag |
| Joystick.VirtualJoystick.constructor | src/World/systems/player.js:192-203 | a new joystick is inactive, hidden and reports direction (0, 0), so its direction is in the unit disc |
| Joystick.VirtualJoystick.HandleTouchStart | src/World/systems/player.js:274-280 | the stick is armed and its centre is the middle of the container's rectangle |
| Joystick.VirtualJoystick.HandleTouchMove | src/World/systems/player.js:282-301 | for a knob placed relative to the recorded centre, an unarmed stick ignores the move and an armed one reports the knob offset divided by 30; either way the direction stays in the unit disc |
| Joystick.VirtualJoystick.HandleTouchEnd | src/World/systems/player.js:303-308 | the stick is disarmed and the direction is (0, 0), inside the unit disc |
| Joystick.VirtualJoystick.Show | src/World/systems/player.js:310-312 | the joystick is visible |
| Joystick.VirtualJoystick.Hide | src/World/systems/player.js:314-316 | the joystick is hidden |
| Motion.SpeedDelta | src/World/systems/player.js:423 | the speed a key adds is `25·dt` on the floor and `8·dt` in the air, so never more than `25·dt` for a non-negative `dt` |
| Motion.KeyPush | src/World/systems/player.js:427-445 | the velocity after the four key tests; with none of W, S, A, D held it is unchanged (its closed form is `KeyPushIsNetThrust`) |
| Motion.StickPush | src/World/systems/player.js:448-455 | the velocity after the joystick test: unchanged unless the stick is engaged, otherwise pushed by `-y·speedDelta` forward and `x·speedDelta` sideways |
| Motion.SteerVelocity | src/World/systems/player.js:421-468 | the velocity `controls` leaves: keys, then joystick; on the floor with Space held the vertical speed becomes 15 and the horizontal components keep the pushed values; otherwise the pushed velocity |
| Motion.Steer | src/World/systems/player.js:421-468 | `controls` changes only the velocity; on the floor with Space held the vertical speed ends at 15 |
| Motion.SteerIdle | src/World/systems/player.js:421-468 | with no key, an idle stick and no jump from the floor, `controls` changes nothing |
| Motion.SteerIgnoresIdleStick | src/World/systems/player.js:448-455 | outside first-person mode or inside the 0.1 deadzone the stick has no effect: the result equals that of a centred stick, and that of third-person mode |
| Motion.NoJumpInAir | src/World/systems/player.js:463-467 | in the air Space has no effect |
| Motion.ForwardKeyAuthority | src/World/systems/player.js:423-430 | W alone adds forward speed `dt·25` on the floor and `dt·8` in the air |
| Motion.OppositeKeysCancel | src/World/systems/player.js:427-445 | W with S and A with D together leave the velocity unchanged |
| Motion.KeyPushIsNetThrust | src/World/systems/player.js:427-445 | the key block adds (W − S)·speedDelta along forward and (D − A)·speedDelta along side |
| Motion.Collide | src/World/systems/player.js:372-385 | no contact: only `onFloor` is cleared. A contact counts as floor exactly when its normal has y > 0, and a floor contact keeps the velocity. Every contact translates the capsule by normal·depth, which keeps its axis and radius. The camera is untouched |
| Motion.ProjectOut | src/World/systems/player.js:379-381 | removing the normal component leaves a velocity orthogonal to a unit normal |
| Motion.WallContactStopsNormalMotion | src/World/systems/player.js:376-381 | after a wall or ceiling contact with a unit normal the velocity has no component along the normal, and the player is not on the floor |
| Motion.WallContactKeepsSliding | src/World/systems/player.js:379-381 | every velocity component along the wall survives |
| Motion.WallContactNeverAccelerates | src/World/systems/player.js:379-381 | a wall contact never increases the speed |
| Motion.WallContactIdempotent | src/World/systems/player.js:379-381 | hitting the same wall again does not change the velocity further |
| Motion.TranslateKeepsAxis | src/World/systems/player.js:383 | translating the capsule keeps its axis and radius |
| Motion.Integrate | src/World/systems/player.js:387-399 | the capsule moves by the new velocity times dt; the floor flag and the camera are untouched |
| Motion.IntegrateVelocity | src/World/systems/player.js:388-396 | on the floor the velocity is scaled by 1 + damping. In the air, 30·dt is first taken from the vertical speed and the velocity is then scaled by 1 + 0.1·damping |
| Motion.DampingNeverFlipsSign | src/World/systems/player.js:388-396 | with damping in (-1, 0], floor damping shrinks every component without flipping its sign |
| Motion.Advance | src/World/systems/player.js:387-404 | after `updatePlayer` the camera is at the capsule's end, its rotation is unchanged and the capsule keeps its axis and radius |
| Motion.FloorSubstepNeverAccelerates | src/World/systems/player.js:387-404 | on the floor, with damping in (-1, 0] and any unit-normal contact, `updatePlayer` never increases the speed |
| Motion.Teleport | src/World/systems/player.js:472-480 | at or below y = -25 the capsule becomes (0,1.35,15)–(0,2.8,15) with radius 0.35, the camera goes to its end and is levelled, and the velocity is kept. Above -25 nothing changes. Either way the camera ends above -25 |
| Motion.FallenPlayerRespawns | src/World/systems/player.js:482-489 | a substep whose `updatePlayer` leaves the camera at or below -25 ends on the reset capsule with a level camera and the velocity `updatePlayer` produced |
| Motion.SpawnAndResetShapes | src/World/systems/player.js:328 | the spawn and reset capsules share their axis but differ in radius (0.25 against 0.35) |
| Motion.Substep | src/World/systems/player.js:484-488 | after `controls`, `updatePlayer` and the out-of-bounds check, the camera sits at the capsule's end above -25. The radius is the old one or 0.35, and the spawn axis is kept |
| Motion.Substeps | src/World/systems/player.js:483-488 | after any positive number of substeps the camera sits at the capsule's end above -25. The radius stays the old one or 0.35, and the spawn axis is kept |
| Motion.SubstepDt | src/World/systems/player.js:484 | five substeps cover `min(0.05, delta)`, so one substep is at most 0.01 s |
| Motion.Frame | src/World/systems/player.js:482-489 | after a tick the camera sits at the capsule's end above -25, and the radius is the old one or 0.35 |
| Player.PlayerController.constructor | src/World/systems/player.js:323-348 | the player starts on the spawn capsule with radius 0.25, at rest, not on the floor, in third-person mode, with no keys, a hidden, valid joystick and disabled touch-look on the same camera |
| Player.PlayerController.KeyDown | src/World/systems/player.js:351-353 | the key's code becomes held |
| Player.PlayerController.KeyUp | src/World/systems/player.js:355-357 | the key's code becomes released |
| Player.PlayerController.PlayerCollisions | src/World/systems/player.js:372-385 | the new state is `Collide` of the old one and the octree's answer for the old capsule |
| Player.PlayerController.UpdatePlayer | src/World/systems/player.js:387-404 | the new state is `Advance` of the old one; the camera is at the capsule's end |
| Player.PlayerController.KeyboardThrust | src/World/systems/player.js:427-445 | the velocity is `KeyPush` of the old one; the result says whether W, S, A or D was held |
| Player.PlayerController.JoystickThrust | src/World/systems/player.js:448-455 | the velocity is `StickPush` of the old one; the result says whether the stick was engaged |
| Player.PlayerController.Controls | src/World/systems/player.js:421-468 | the new state is `Steer` of the old one; pointer lock is requested exactly when something moved the player on a non-mobile device |
| Player.PlayerController.TeleportPlayerIfOob | src/World/systems/player.js:472-480 | the new state is `Teleport` of the old one |
| Player.PlayerController.Tick | src/World/systems/player.js:482-489 | the new state is `Frame` of the old one, i.e. five substeps of `min(0.05, delta)/5`. The camera ends at the capsule's end above -25, and pointer lock is requested exactly when the input moves the player on a non-mobile device |
| Player.PlayerController.SetFirstPersonMode | src/World/systems/player.js:492-515 | the flag is recorded. Entering first-person mode shows the joystick and enables touch-look only on a mobile device, and leaves both alone otherwise. Leaving it hides the joystick and disables touch-look, which clears `isLooking` |
| Player.PlayerController.UpdateCamera | src/World/systems/player.js:518-522 | touch-look now steers the new camera |
| Player.PlayerController.ShowMobileControls | src/World/systems/player.js:525 | the joystick is visible |
| Player.PlayerController.HideMobileControls | src/World/systems/player.js:526 | the joystick is hidden |

## Left out

- The octree (`Octree`, `fromGraphNode`, `capsuleIntersect`) is a foreign library. Its answer is the parameter `world`.
- `Math.exp` for damping is transcendental floating point. The damping factor is a parameter; the lemmas that need it require it to lie in (-1, 0].
- The knob trigonometry (`sqrt`, `atan2`, `cos`, `sin`) is not computed. The knob offset is an input, and `KnobPlacement` states what the trigonometry yields.
- `getForwardVector` and `getSideVector` depend on three.js camera math (`getWorldDirection`, `normalize`, `cross`). They are the parameter `heading`.
- The DOM is not modelled:
  - `shouldIgnoreTouch`, `isTouchOverElement` and the canvas-target test are reduced to the boolean `accepted`;
  - `setupJoystick` styling, the knob's CSS transform and `setupMobileOptimizations` are left out;
  - no `addEventListener` registration is modelled;
  - `show`/`hide` are reduced to a `visible` flag.
- `detectMobile` is a platform probe and becomes a constructor parameter. The touch-look's user-agent `isMobile` only decides whether handlers are registered, which is not modelled, so the touch-look record has no such field.
- Pointer lock is not modelled. `controls` returns whether it would call `requestPointerLock`, and `Tick` whether any substep did.
- The mouse-look handler (src/World/systems/player.js:365-370) and the empty `mousedown` handler are left out, because they depend on `pointerLockElement`, which is environment state.
- `console.log`, `getState` and `debugTouchControls` are diagnostics only.
- `getDirection` is an accessor: `controls` reads `direction` directly.
- All arithmetic is exact over the reals. There is no double rounding, and the constant π/2 is the decimal that JavaScript prints for `Math.PI / 2`.
- Motion.Collide: the model does not state that the capsule no longer penetrates the world after the push-out. That needs the octree's geometry, which is not modelled.
- Player.PlayerController.JoystickThrust: the two `add` calls accumulate into a local copy of the velocity, which is written back once. The observable result is the same as the source's in-place adds.
