/** The per-tick logic of the character controller: the ground probe, the
    movement direction, the speed choice, the velocity write and the jump
    gate, over an abstract physics body. */
module Character {
  import opened Vectors
  import opened Config
  import opened Direction

  /** What the controller sees of its rigid body: where it is, its linear
      velocity, and the impulses applied to it so far (what an impulse does
      to the velocity is left to the physics engine). */
  datatype Body = Body(translation: Vec3, linvel: Vec3, impulses: seq<Vec3>)

  /** The controller's own state. Its scratch vectors are rewritten before
      they are read on every tick, so they are per-tick values here. */
  datatype Controller = Controller(
    params: Params,
    isGrounded: bool,
    isJumping: bool,
    facing: Quat,
    meshPosition: Vec3)

  datatype State = State(ctrl: Controller, body: Body)

  /** The answer to the downward ray query: no hit, or a time of impact. */
  datatype RayHit = Miss | Hit(toi: real)

  /** Fraction of the maximum speed available while airborne. */
  const AirControl: real := 0.3

  /** How far below the bottom of the capsule a surface still counts as ground. */
  const GroundMargin: real := 0.1

  /** The probe's length, measured down from the body's centre. */
  function RayLength(height: real): real {
    height / 2.0 + GroundMargin
  }

  /** The impulse a jump applies: straight up, of the configured magnitude. */
  function JumpImpulse(p: Params): Vec3 {
    Vec3(0.0, p.jumpForce, 0.0)
  }

  /** The ground check: the character is grounded exactly when the ray hit
      a surface at most the margin below the bottom of the capsule (which is
      half the height below the body's centre, where the ray starts). */
  function CheckGrounded(height: real, hit: RayHit): (grounded: bool)
    ensures grounded <==> hit.Hit? && hit.toi - height / 2.0 <= GroundMargin
    ensures grounded ==> hit.Hit?
    ensures hit.Hit? && hit.toi <= height / 2.0 ==> grounded
    ensures hit.Hit? && hit.toi > height / 2.0 + GroundMargin ==> !grounded
  {
    hit.Hit? && hit.toi <= RayLength(height)
  }

  /** A hit closer than one that grounds the character grounds it too. */
  lemma GroundedIsDownwardClosed(height: real, t: real, t': real)
    requires CheckGrounded(height, Hit(t)) && t' <= t
    ensures CheckGrounded(height, Hit(t'))
  {
  }

  /** The horizontal speed commanded this tick. Airborne control never
      exceeds ground control for a non-negative maximum speed. */
  function CommandedSpeed(maxSpeed: real, grounded: bool): (speed: real)
    ensures grounded ==> speed == maxSpeed
    ensures !grounded ==> speed == maxSpeed * AirControl
    ensures 0.0 <= maxSpeed ==> 0.0 <= speed <= maxSpeed
  {
    if grounded then maxSpeed else maxSpeed * AirControl
  }

  /** The raw direction for this tick, in the frame of the mesh's current
      orientation. */
  function RawDirection(g: Geometry, facing: Quat, k: Keys): Vec3 {
    Accumulate(k, FacingAxis(g, facing), RightAxis(g, facing))
  }

  /** The movement direction: normalized when non-zero, zero otherwise. */
  function MoveDirection(g: Geometry, facing: Quat, k: Keys): (dir: Vec3)
    ensures Balanced(k) ==> dir == Zero
  {
    var raw := RawDirection(g, facing, k);
    assert Balanced(k) ==> LengthSq(raw) == 0.0;
    if LengthSq(raw) > 0.0 then Normalize(g, raw) else raw
  }

  /** The result of the steering part of a tick. */
  datatype Steering = Steering(facing: Quat, linvel: Vec3)

  /** The steering part of a tick: when there is a movement direction,
      slerp the mesh toward it by deltaTime × rotationSpeed (a parameter the
      code does not clamp to 1), and command a velocity whose
      horizontal part is that direction times the speed and whose vertical
      part is the one read from the body. */
  function Steer(g: Geometry, facing: Quat, p: Params, k: Keys, dt: real, grounded: bool, current: Vec3)
    : (st: Steering)
    ensures st.linvel.y == current.y
    ensures Balanced(k) ==> st.facing == facing && st.linvel.x == 0.0 && st.linvel.z == 0.0
  {
    var raw := RawDirection(g, facing, k);
    var dir := MoveDirection(g, facing, k);
    var turned :=
      if LengthSq(raw) > 0.0 then g.slerp(facing, g.aim(dir), dt * p.rotationSpeed)
      else facing;
    var h := Scale(CommandedSpeed(p.maxSpeed, grounded), dir);
    Steering(turned, Vec3(h.x, current.y, h.z))
  }

  /** A jump: marks the character as jumping and airborne and applies one
      upward impulse; nothing else changes. */
  function Jump(s: State): (r: State)
    ensures r.ctrl.isJumping && !r.ctrl.isGrounded
    ensures r.body.impulses == s.body.impulses + [JumpImpulse(s.ctrl.params)]
    ensures r.body.linvel == s.body.linvel && r.body.translation == s.body.translation
    ensures r.ctrl.params == s.ctrl.params && r.ctrl.facing == s.ctrl.facing
    ensures r.ctrl.meshPosition == s.ctrl.meshPosition
  {
    State(s.ctrl.(isJumping := true, isGrounded := false),
          s.body.(impulses := s.body.impulses + [JumpImpulse(s.ctrl.params)]))
  }

  /** The deferred reset a jump schedules, as an explicit event: it clears
      the jumping flag and nothing else. */
  function ResetJump(s: State): (r: State)
    ensures !r.ctrl.isJumping
    ensures r.body == s.body
    ensures r.ctrl == s.ctrl.(isJumping := false)
  {
    s.(ctrl := s.ctrl.(isJumping := false))
  }

  /** Whether this tick fires a jump. */
  predicate Fires(c: Controller, i: Inputs, grounded: bool) {
    i.jump && grounded && !c.isJumping
  }

  /** A freshly constructed character: airborne until the first ground
      check, not jumping, unrotated, with body and mesh at the start position. */
  function New(o: Options): (s: State)
    ensures !s.ctrl.isGrounded && !s.ctrl.isJumping
    ensures s.ctrl.facing == Identity
    ensures s.body.translation == s.ctrl.meshPosition == BodyDescFor(s.ctrl.params).translation
    ensures s.body.linvel == Zero && s.body.impulses == []
    ensures s.ctrl.params == Configure(o)
  {
    var p := Configure(o);
    State(Controller(p, false, false, Identity, p.position), Body(p.position, Zero, []))
  }

  /** One tick. In order: recompute the grounded flag from the ray result;
      steer (turn the mesh, write the velocity); fire a jump when the jump
      key is down, the character is grounded and not already jumping; copy
      the body's position to the mesh. A jump changes neither the velocity
      just written nor the orientation; only the jump key and the two flags
      decide whether it fires. */
  function Update(g: Geometry, s: State, i: Inputs, dt: real, hit: RayHit): (r: State)
    ensures r.ctrl.params == s.ctrl.params
    ensures r.body.translation == s.body.translation
    ensures r.ctrl.meshPosition == s.body.translation
    ensures r.body.linvel.y == s.body.linvel.y
    ensures var st := Steer(g, s.ctrl.facing, s.ctrl.params, i.move, dt, CheckGrounded(s.ctrl.params.height, hit),
                        s.body.linvel);
            r.body.linvel == st.linvel && r.ctrl.facing == st.facing
    ensures Fires(s.ctrl, i, CheckGrounded(s.ctrl.params.height, hit)) ==>
              r.body.impulses == s.body.impulses + [JumpImpulse(s.ctrl.params)]
    ensures !Fires(s.ctrl, i, CheckGrounded(s.ctrl.params.height, hit)) ==>
              r.body.impulses == s.body.impulses
    ensures r.ctrl.isJumping <==> s.ctrl.isJumping || Fires(s.ctrl, i, CheckGrounded(s.ctrl.params.height, hit))
    ensures r.ctrl.isGrounded <==>
              CheckGrounded(s.ctrl.params.height, hit) && !Fires(s.ctrl, i, CheckGrounded(s.ctrl.params.height, hit))
  {
    var c := s.ctrl;
    var grounded := CheckGrounded(c.params.height, hit);
    var st := Steer(g, c.facing, c.params, i.move, dt, grounded, s.body.linvel);
    var written := State(c.(isGrounded := grounded, facing := st.facing), s.body.(linvel := st.linvel));
    var after := if Fires(c, i, grounded) then Jump(written) else written;
    after.(ctrl := after.ctrl.(meshPosition := after.body.translation))
  }

  /** With every opposing pair balanced the tick neither turns the mesh nor
      commands any horizontal velocity, whatever the orientation. */
  lemma NoInputStopsAndKeepsFacing(g: Geometry, s: State, i: Inputs, dt: real, hit: RayHit)
    requires Balanced(i.move)
    ensures Update(g, s, i, dt, hit).ctrl.facing == s.ctrl.facing
    ensures Update(g, s, i, dt, hit).body.linvel == Vec3(0.0, s.body.linvel.y, 0.0)
  {
  }

  /** The grounded flag carries nothing across ticks: the result of a tick
      does not depend on the flag's previous value. */
  lemma GroundedIsRecomputed(g: Geometry, s: State, i: Inputs, dt: real, hit: RayHit, stale: bool)
    ensures Update(g, s.(ctrl := s.ctrl.(isGrounded := stale)), i, dt, hit) == Update(g, s, i, dt, hit)
  {
  }

  lemma LevelUnitScaled(speed: real, d: Vec3, v: Vec3)
    requires LengthSq(d) == 1.0 && d.y == 0.0
    requires v.x == speed * d.x && v.z == speed * d.z
    ensures v.x * v.x + v.z * v.z == speed * speed
  {
    assert d.x * d.x + d.z * d.z == 1.0;
    assert (speed * d.x) * (speed * d.x) + (speed * d.z) * (speed * d.z)
        == speed * speed * (d.x * d.x + d.z * d.z);
  }

  /** With an exact square root and a level, orthonormal frame, any
      unbalanced key combination gives a unit movement direction in the
      ground plane. */
  lemma LevelUnitDirection(g: Geometry, q: Quat, k: Keys)
    requires ExactSqrt(g)
    requires Orthonormal(FacingAxis(g, q), RightAxis(g, q))
    requires Level(FacingAxis(g, q), RightAxis(g, q))
    requires !Balanced(k)
    ensures LengthSq(MoveDirection(g, q, k)) == 1.0 && MoveDirection(g, q, k).y == 0.0
  {
    var f, rt := FacingAxis(g, q), RightAxis(g, q);
    NonZeroIffUnbalanced(k, f, rt);
  }

  lemma SteerVelocity(g: Geometry, q: Quat, p: Params, k: Keys, dt: real, grounded: bool, current: Vec3)
    ensures var v := Steer(g, q, p, k, dt, grounded, current).linvel;
            var speed := CommandedSpeed(p.maxSpeed, grounded);
            v.x == speed * MoveDirection(g, q, k).x && v.z == speed * MoveDirection(g, q, k).z
  {
  }

  /** So the steering step commands exactly the commanded speed in the
      ground plane. */
  lemma SteerSpeed(g: Geometry, q: Quat, p: Params, k: Keys, dt: real, grounded: bool, current: Vec3)
    requires ExactSqrt(g)
    requires Orthonormal(FacingAxis(g, q), RightAxis(g, q))
    requires Level(FacingAxis(g, q), RightAxis(g, q))
    requires !Balanced(k)
    ensures var v := Steer(g, q, p, k, dt, grounded, current).linvel;
            var speed := CommandedSpeed(p.maxSpeed, grounded);
            v.x * v.x + v.z * v.z == speed * speed
  {
    var dir := MoveDirection(g, q, k);
    LevelUnitDirection(g, q, k);
    var speed := CommandedSpeed(p.maxSpeed, grounded);
    var v := Steer(g, q, p, k, dt, grounded, current).linvel;
    SteerVelocity(g, q, p, k, dt, grounded, current);
    LevelUnitScaled(speed, dir, v);
  }

  /** So a tick moves the character horizontally at the full maximum speed
      when the probe finds ground and at the air-control fraction of it
      otherwise, jump or no jump. */
  lemma HorizontalSpeed(g: Geometry, s: State, i: Inputs, dt: real, hit: RayHit)
    requires ExactSqrt(g)
    requires Orthonormal(FacingAxis(g, s.ctrl.facing), RightAxis(g, s.ctrl.facing))
    requires Level(FacingAxis(g, s.ctrl.facing), RightAxis(g, s.ctrl.facing))
    requires !Balanced(i.move)
    ensures var v := Update(g, s, i, dt, hit).body.linvel;
            var grounded := CheckGrounded(s.ctrl.params.height, hit);
            v.x * v.x + v.z * v.z ==
              if grounded then s.ctrl.params.maxSpeed * s.ctrl.params.maxSpeed
              else (s.ctrl.params.maxSpeed * AirControl) * (s.ctrl.params.maxSpeed * AirControl)
  {
    SteerSpeed(g, s.ctrl.facing, s.ctrl.params, i.move, dt, CheckGrounded(s.ctrl.params.height, hit), s.body.linvel);
  }

  /** Forward alone moves the character against the mesh's local +Z axis,
      at the commanded speed. */
  lemma ForwardMovesAgainstFacingAxis(g: Geometry, q: Quat, p: Params, dt: real, grounded: bool, current: Vec3)
    requires ExactSqrt(g) && LengthSq(FacingAxis(g, q)) == 1.0
    ensures var f := FacingAxis(g, q);
            var speed := CommandedSpeed(p.maxSpeed, grounded);
            Steer(g, q, p, Keys(true, false, false, false), dt, grounded, current).linvel ==
              Vec3(-speed * f.x, current.y, -speed * f.z)
  {
    var f := FacingAxis(g, q);
    var k := Keys(true, false, false, false);
    var raw := RawDirection(g, q, k);
    assert raw == Sub(Zero, f);
    assert LengthSq(raw) == LengthSq(f);
    NormalizeUnit(g, raw);
    assert MoveDirection(g, q, k) == raw;
  }

  /** Right alone moves the character along the mesh's local +X axis, at
      the commanded speed. */
  lemma RightMovesAlongRightAxis(g: Geometry, q: Quat, p: Params, dt: real, grounded: bool, current: Vec3)
    requires ExactSqrt(g) && LengthSq(RightAxis(g, q)) == 1.0
    ensures var r := RightAxis(g, q);
            var speed := CommandedSpeed(p.maxSpeed, grounded);
            Steer(g, q, p, Keys(false, false, false, true), dt, grounded, current).linvel ==
              Vec3(speed * r.x, current.y, speed * r.z)
  {
    var r := RightAxis(g, q);
    var k := Keys(false, false, false, true);
    var raw := RawDirection(g, q, k);
    assert raw == Add(Zero, r) == r;
    NormalizeUnit(g, raw);
    assert MoveDirection(g, q, k) == raw;
  }
}
