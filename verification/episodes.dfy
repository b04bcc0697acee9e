/** Runs of the controller: sequences of ticks, physics-engine steps and
    jump-timer expiries. Between ticks the physics engine moves the body
    (what it does is not modelled; an engine step simply installs a new
    translation and velocity), and 300 ms after each jump a timer clears the
    jumping flag (modelled as an explicit event rather than as time). */
module Episodes {
  import opened Vectors
  import opened Direction
  import opened Character

  datatype Event =
    | Tick(inputs: Inputs, dt: real, hit: RayHit)
    | EngineStep(translation: Vec3, linvel: Vec3)
    | JumpTimer

  function Apply(g: Geometry, s: State, e: Event): State {
    match e
    case Tick(i, dt, hit) => Update(g, s, i, dt, hit)
    case EngineStep(t, v) => s.(body := s.body.(translation := t, linvel := v))
    case JumpTimer => ResetJump(s)
  }

  function Run(g: Geometry, s: State, es: seq<Event>): State
    decreases |es|
  {
    if |es| == 0 then s else Run(g, Apply(g, s, es[0]), es[1..])
  }

  /** How many jump-timer expiries a run contains. */
  function Resets(es: seq<Event>): nat {
    if |es| == 0 then 0 else (if es[0].JumpTimer? then 1 else 0) + Resets(es[1..])
  }

  /** 1 while another jump may fire, 0 while one is in progress. */
  function Armed(s: State): nat {
    if s.ctrl.isJumping then 0 else 1
  }

  /** The upward jump impulse, for these parameters, at every log position
      from `from` on. */
  ghost predicate OnlyJumpImpulses(s: State, log: seq<Vec3>, from: nat) {
    forall n :: from <= n < |log| ==> log[n] == JumpImpulse(s.ctrl.params)
  }

  /** One event never rewrites the impulse log, only extends it with jump
      impulses, and keeps the parameters. */
  lemma ApplyExtendsLog(g: Geometry, s: State, e: Event)
    ensures Apply(g, s, e).ctrl.params == s.ctrl.params
    ensures s.body.impulses <= Apply(g, s, e).body.impulses
    ensures OnlyJumpImpulses(s, Apply(g, s, e).body.impulses, |s.body.impulses|)
  {
  }

  /** Over a whole run the impulse log only grows, and everything added to
      it is a jump impulse. */
  lemma {:induction false} RunExtendsLog(g: Geometry, s: State, es: seq<Event>)
    ensures Run(g, s, es).ctrl.params == s.ctrl.params
    ensures s.body.impulses <= Run(g, s, es).body.impulses
    ensures OnlyJumpImpulses(s, Run(g, s, es).body.impulses, |s.body.impulses|)
    decreases |es|
  {
    if |es| > 0 {
      var s' := Apply(g, s, es[0]);
      ApplyExtendsLog(g, s, es[0]);
      RunExtendsLog(g, s', es[1..]);
    }
  }

  /** Each jump needs the jumping flag clear, and only the timer clears it:
      a run applies at most one impulse more than it has timer expiries,
      and none more than that while a jump is already in progress. */
  lemma {:induction false} ImpulsesBoundedByResets(g: Geometry, s: State, es: seq<Event>)
    ensures |Run(g, s, es).body.impulses| + Armed(Run(g, s, es)) <=
            |s.body.impulses| + Armed(s) + Resets(es)
    decreases |es|
  {
    if |es| > 0 {
      var s' := Apply(g, s, es[0]);
      assert |s'.body.impulses| + Armed(s') <= |s.body.impulses| + Armed(s) + (if es[0].JumpTimer? then 1 else 0);
      ImpulsesBoundedByResets(g, s', es[1..]);
    }
  }

  /** While a jump is in progress and the timer has not fired, no further
      impulse is applied, whatever the keys and the ground probe say. */
  lemma NoImpulseWhileJumping(g: Geometry, s: State, es: seq<Event>)
    requires s.ctrl.isJumping && Resets(es) == 0
    ensures Run(g, s, es).body.impulses == s.body.impulses
    ensures Run(g, s, es).ctrl.isJumping
  {
    ImpulsesBoundedByResets(g, s, es);
    RunExtendsLog(g, s, es);
  }

  /** Without timer expiries a run applies at most one impulse in all. */
  lemma AtMostOneJumpWithoutReset(g: Geometry, s: State, es: seq<Event>)
    requires Resets(es) == 0
    ensures |Run(g, s, es).body.impulses| <= |s.body.impulses| + 1
  {
    ImpulsesBoundedByResets(g, s, es);
  }

  /** No rising-edge detection: holding the jump key down on the ground
      jumps again as soon as the timer has cleared the flag. */
  lemma HeldJumpRepeats(g: Geometry, s: State, k: Keys, dt: real, toi: real)
    requires !s.ctrl.isJumping
    requires CheckGrounded(s.ctrl.params.height, Hit(toi))
    ensures var held := Tick(Inputs(k, true), dt, Hit(toi));
            Run(g, s, [held, JumpTimer, held]).body.impulses ==
              s.body.impulses + [JumpImpulse(s.ctrl.params), JumpImpulse(s.ctrl.params)]
  {
    var held := Tick(Inputs(k, true), dt, Hit(toi));
    var s1 := Apply(g, s, held);
    var s2 := Apply(g, s1, JumpTimer);
    var s3 := Apply(g, s2, held);
    assert Run(g, s, [held, JumpTimer, held]) == Run(g, s1, [JumpTimer, held]);
    assert Run(g, s1, [JumpTimer, held]) == Run(g, s2, [held]);
    assert Run(g, s2, [held]) == s3;
  }
}
