# Character controller model

A Dafny model of the per-tick logic of `CharacterController`, the capsule
avatar of a three.js + Rapier walking-and-jumping demo. Each call to
`update(inputs, deltaTime)`:

1. recomputes the grounded flag from a downward ray cast from the body's
   centre, of length `height / 2 + 0.1`;
2. reduces the four movement keys to a direction on the mesh's own axes
   (forward subtracts local +Z, backward adds it, left subtracts local +X,
   right adds it), normalizing it when it is non-zero;
3. when that direction is non-zero, slerps the mesh toward it by
   `deltaTime × rotationSpeed` (not clamped to 1);
4. writes a body velocity whose horizontal part is the direction times
   `maxSpeed` (times the air-control fraction 0.3 when airborne) and whose
   vertical part is the one read from the body;
5. fires a jump (one upward impulse of `jumpForce`, `isJumping := true`,
   `isGrounded := false`) when the jump key is down, the character is
   grounded and not already jumping; a timer clears `isJumping` 300 ms later;
6. copies the body's position to the mesh.

Modules:

- `Vectors` (vectors.dfy): real 3-vectors and quaternions. The three.js and
  `Math` operations the controller calls (`applyQuaternion`, `Math.sqrt`
  inside `normalize`, `setFromUnitVectors`, `slerp`) are fields of a
  `Geometry` record passed to every tick; properties that need them to
  behave state that as a hypothesis (`ExactSqrt`, `Orthonormal`, `Level`).
- `Config` (config.dfy): the constructor's option defaults (JavaScript `||`,
  so a given 0 also falls back) and the rigid-body and capsule-collider
  descriptors it builds.
- `Direction` (direction.dfy): keys to integer coefficients on local +Z
  (backward minus forward) and local +X (right minus left), and the raw
  direction accumulated key by key as the code does it.
- `Character` (controller.dfy): the abstract body (translation, velocity,
  impulse log), the controller state, the ground check, the steering step,
  `Jump`, the timer's reset, construction and `Update`.
- `Episodes` (episodes.dfy): runs of ticks, physics-engine steps and
  jump-timer expiries, and what they imply for the number of jumps.

Behaviour one might expect of such a controller but which this code does
not have is not modelled: there is no acceleration or deceleration ramp
(speed is set outright each tick), no rising-edge jump detection (the jumping flag and its timer
stand in for it, so a held key jumps again once the timer fires — see
`Episodes.HeldJumpRepeats`), the ray does not exclude the character's own
collider, the frame for movement is the mesh's orientation rather than the
camera's, and the capsule dimensions are not validated.

## Model

| member | source | states |
|---|---|---|
| `Config.OrDefault` | src/components/CharacterController.js:10-15 | an option replaces its default only when given and non-zero; missing and zero options both fall back |
| `Config.PlaceOr` | src/components/CharacterController.js:12 | a given position is kept and a missing one falls back |
| `Config.Configure` | src/components/CharacterController.js:10-15 | every given non-zero option is kept as is (no validation) and every missing or 0 option takes its default (radius 0.5, height 2.0, maxSpeed 5.0, jumpForce 10.0, rotationSpeed 5.0); a given position is kept and a missing one is (0, 3, 0); no numeric parameter can end up zero |
| `Config.FalsyOptionsGiveDefaults` | src/components/CharacterController.js:10-15 | options that are all missing or 0 yield radius 0.5, height 2.0, position (0, 3, 0), maxSpeed 5.0, jumpForce 10.0, rotationSpeed 5.0 |
| `Config.BodyDescFor` | src/components/CharacterController.js:63-67 | the rigid body starts at the configured position with rotations locked |
| `Config.ColliderFor` | src/components/CharacterController.js:72-75 | the capsule's cylinder plus its two caps spans exactly the configured height, its radius is the configured radius, and its half-height is positive exactly when height exceeds the diameter |
| `Config.ColliderExamples` | src/components/CharacterController.js:72-73 | the defaults give half-height 0.5, height 1.75 with radius 0.5 gives 0.375, and a height below the diameter is accepted with a negative half-height |
| `Direction.Axis` | src/components/CharacterController.js:93-96 | a pair of opposing keys gives a coefficient in {-1, 0, 1} that is 0 exactly when both or neither are pressed |
| `Direction.AccumulateIsLinear` | src/components/CharacterController.js:86-96 | subtracting and adding the axes key by key equals (backward − forward) times local +Z plus (right − left) times local +X |
| `Direction.Accumulate` | src/components/CharacterController.js:89-96 | with both pairs balanced the accumulated direction is exactly zero, for any orientation, and a frame in the ground plane gives a direction in the ground plane |
| `Direction.RawLengthSq` | src/components/CharacterController.js:89-99 | on an orthonormal frame the squared length of the raw direction equals the number of unbalanced key pairs |
| `Direction.NonZeroIffUnbalanced` | src/components/CharacterController.js:99 | on an orthonormal frame the controller sees a non-zero direction exactly when some pair of keys is unbalanced |
| `Vectors.Normalize` | src/components/CharacterController.js:100 | a zero vector stays zero, a level vector stays level, and with an exact square root a non-zero vector becomes a positive multiple of itself of unit length |
| `Character.CheckGrounded` | src/components/CharacterController.js:152-170 | grounded exactly when the ray hits a surface at most 0.1 below the bottom of the capsule (half the height below the centre); a miss is never ground |
| `Character.GroundedIsDownwardClosed` | src/components/CharacterController.js:161-168 | any hit closer than a grounding hit also grounds the character |
| `Character.CommandedSpeed` | src/components/CharacterController.js:114-118 | maxSpeed when grounded, maxSpeed × 0.3 when airborne, never above maxSpeed nor below 0 for a non-negative maxSpeed |
| `Character.MoveDirection` | src/components/CharacterController.js:86-100 | balanced keys give the zero direction |
| `Character.Steer` | src/components/CharacterController.js:86-127 | the vertical velocity written is the one read from the body; balanced keys leave the orientation untouched and command zero horizontal velocity |
| `Character.Jump` | src/components/CharacterController.js:139-145 | a jump sets jumping, clears grounded, appends exactly one impulse (0, jumpForce, 0), and changes neither velocity, position, orientation nor parameters |
| `Character.ResetJump` | src/components/CharacterController.js:147-149 | the timer clears the jumping flag and changes nothing else |
| `Character.New` | src/components/CharacterController.js:10-28 | a new character is neither grounded nor jumping, unrotated, at rest, with no impulses, and body, mesh and body descriptor all at the configured position |
| `Character.Update` | src/components/CharacterController.js:81-137 | a tick keeps the parameters and body position, sets the mesh position to the body's, preserves the vertical velocity, writes the steering step's velocity and orientation even when jumping, fires a jump iff jump key ∧ fresh ground check ∧ ¬jumping (adding exactly one impulse then and none otherwise), only ever sets the jumping flag, and leaves grounded = fresh ground check ∧ no jump |
| `Character.NoInputStopsAndKeepsFacing` | src/components/CharacterController.js:99-127 | with no net input the orientation is unchanged and the velocity written is (0, vertical read, 0) |
| `Character.GroundedIsRecomputed` | src/components/CharacterController.js:82-83 | the previous grounded flag has no influence on any result of a tick |
| `Character.LevelUnitDirection` | src/components/CharacterController.js:98-100 | on a level orthonormal frame with an exact square root, unbalanced keys give a unit direction in the ground plane |
| `Character.SteerSpeed` | src/components/CharacterController.js:113-127 | on such a frame the horizontal velocity written has exactly the commanded speed |
| `Character.HorizontalSpeed` | src/components/CharacterController.js:113-127 | a tick with unbalanced keys moves at maxSpeed when the probe finds ground and at maxSpeed × 0.3 otherwise, whether or not a jump fires |
| `Character.ForwardMovesAgainstFacingAxis` | src/components/CharacterController.js:89-93 | forward alone commands −speed times the mesh's local +Z axis horizontally |
| `Character.RightMovesAlongRightAxis` | src/components/CharacterController.js:90-96 | right alone commands +speed times the mesh's local +X axis horizontally |
| `Episodes.ApplyExtendsLog` | src/components/CharacterController.js:129-144 | no tick, engine step or timer event removes or rewrites an impulse; anything added is the jump impulse |
| `Episodes.RunExtendsLog` | src/components/CharacterController.js:129-144 | over any run the impulse log only grows, by jump impulses only, and the parameters never change |
| `Episodes.ImpulsesBoundedByResets` | src/components/CharacterController.js:129-149 | a run applies at most one impulse more than it has timer expiries, and none more than that when a jump is already in progress |
| `Episodes.NoImpulseWhileJumping` | src/components/CharacterController.js:130-149 | while a jump is in progress and no timer has fired, no impulse is applied whatever the keys and ground probe, and the flag stays set |
| `Episodes.AtMostOneJumpWithoutReset` | src/components/CharacterController.js:130-149 | without timer expiries a run applies at most one impulse |
| `Episodes.HeldJumpRepeats` | src/components/CharacterController.js:129-149 | holding the jump key on the ground jumps, and jumps again on the first grounded tick after the timer fires |

## Left out

- Rendering: `createMesh` (geometry, materials, the direction indicator) and the scene; only the mesh's position and orientation are kept.
- The three.js and `Math` numerics (`applyQuaternion`, `Math.sqrt`, `setFromUnitVectors`, `slerp`) are parameters, not definitions; nothing about how far `slerp` turns the mesh is proved.
- Floating point: every quantity is a real number, so rounding and NaN (which JavaScript's `||` also treats as falsy) are not modelled.
- The physics engine: how `castRay` finds its hit (including whether it reports the character's own capsule, which the code does not exclude), how `step` integrates, and how an impulse changes the velocity. The body keeps an impulse log instead, and an engine step installs an arbitrary new position and velocity.
- The 300 ms `setTimeout` that clears `isJumping` is a `JumpTimer` event in a run rather than wall-clock time; runs allow engine steps, ticks and timer expiries in any order and number (a timer expiry need not follow a jump), a superset that includes the step-then-update loop of src/main.js.
- The disposal of body, collider and mesh: the source has none.
- Character.HorizontalSpeed: states the speed only for a level, orthonormal movement frame and an exact square root; a tilted or scaled frame is left to the library.
