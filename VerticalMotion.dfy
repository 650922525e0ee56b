/**
 * One frame of the controller's vertical motion, as a function of the
 * carried state and the frame's inputs: gravity integration, the falling
 * check, the landing reset, the jump, the grounded report and the vertical
 * displacement, in the order the controller runs them.
 */
module VerticalMotion {

  /** Below this vertical velocity the character counts as falling. */
  const FallingThreshold: real := -25.0

  /** Constants fixed before the first frame. */
  datatype Tuning = Tuning(
    gravity: real,               // downward acceleration (negative)
    initialJumpVelocity: real,   // take-off speed of a jump (positive)
    yVelocityWhenGrounded: real, // small negative velocity kept while resting
    jumpsMax: int                // jump charges refilled on landing
  )

  predicate ValidTuning(t: Tuning) {
    t.gravity < 0.0 && t.initialJumpVelocity > 0.0 && t.jumpsMax >= 0
  }

  /** What the controller carries from one frame to the next. */
  datatype State = State(yVelocity: real, jumpsAvailable: int)

  /** The jump-charge invariant. */
  predicate ChargesInRange(t: Tuning, s: State) {
    0 <= s.jumpsAvailable <= t.jumpsMax
  }

  /** The frame's inputs: elapsed time, the mover's grounded query, the jump edge. */
  datatype Frame = Frame(dt: real, isGrounded: bool, jumpPressed: bool)

  /** The animator calls the vertical logic makes, in the order it makes them. */
  datatype AnimatorCall = SetFalling(falling: bool) | TriggerJump | SetGrounded(grounded: bool)

  /** What a frame hands to its collaborators. */
  datatype Output = Output(calls: seq<AnimatorCall>, displacementY: real)

  /** The animator parameters the calls write to. */
  datatype AnimatorParams = AnimatorParams(isFalling: bool, isGrounded: bool, jumpTrigger: bool)

  /** The animator's parameters after it has received `calls` in order. */
  function Apply(a: AnimatorParams, calls: seq<AnimatorCall>): AnimatorParams
    decreases |calls|
  {
    if calls == [] then a
    else
      var a' := match calls[0]
        case SetFalling(b) => a.(isFalling := b)
        case TriggerJump => a.(jumpTrigger := true)
        case SetGrounded(b) => a.(isGrounded := b);
      Apply(a', calls[1..])
  }

  /** The vertical distance covered in `dt` at velocity `v`. */
  function Displacement(v: real, dt: real): real {
    v * dt
  }

  /** The vertical velocity once this frame's gravity has been added. */
  function AfterGravity(t: Tuning, s: State, dt: real): real {
    s.yVelocity + t.gravity * dt
  }

  /** The frame lands: the mover reports ground while the character moves down. */
  predicate Lands(t: Tuning, s: State, f: Frame) {
    f.isGrounded && AfterGravity(t, s, f.dt) < 0.0
  }

  /** The charges the jump check sees: refilled if the frame lands. */
  function ChargesAtJumpCheck(t: Tuning, s: State, f: Frame): int {
    if Lands(t, s, f) then t.jumpsMax else s.jumpsAvailable
  }

  /** The frame fires a jump: the button went down and a charge is left. */
  predicate Jumps(t: Tuning, s: State, f: Frame) {
    f.jumpPressed && ChargesAtJumpCheck(t, s, f) > 0
  }

  predicate Fired(o: Output) {
    TriggerJump in o.calls
  }

  /**
   * The animator calls of one frame, in order: the falling flag set, the
   * falling flag cleared on landing, the jump trigger, the grounded report.
   */
  function FrameCalls(falling: bool, landed: bool, jumped: bool, grounded: bool): (calls: seq<AnimatorCall>)
    ensures TriggerJump in calls <==> jumped
    ensures |calls| > 0 && calls[|calls| - 1] == SetGrounded(grounded)
  {
    (if falling then [SetFalling(true)] else [])
    + (if landed then [SetFalling(false)] else [])
    + (if jumped then [TriggerJump] else [])
    + [SetGrounded(grounded)]
  }

  /**
   * One frame of vertical motion.  The contract states the controller's
   * rules: the charge invariant is kept; a jump fires exactly when the
   * button is pressed with a charge left, overrides the velocity whatever
   * it was and spends exactly one charge; landing snaps the velocity to the
   * resting value and refills the charges; otherwise only gravity acts;
   * the grounded flag is reported last and equals the mover's query; the
   * displacement is the final velocity times the frame time.
   */
  function Step(t: Tuning, s: State, f: Frame): (r: (State, Output))
    ensures ChargesInRange(t, s) ==> ChargesInRange(t, r.0)
    ensures Fired(r.1) <==> f.jumpPressed && ChargesAtJumpCheck(t, s, f) > 0
    ensures Fired(r.1) ==>
              r.0 == State(t.initialJumpVelocity, ChargesAtJumpCheck(t, s, f) - 1)
    ensures !Fired(r.1) && Lands(t, s, f) ==>
              r.0 == State(t.yVelocityWhenGrounded, t.jumpsMax)
    ensures !Fired(r.1) && !Lands(t, s, f) ==>
              r.0 == State(AfterGravity(t, s, f.dt), s.jumpsAvailable)
    ensures |r.1.calls| > 0 && r.1.calls[|r.1.calls| - 1] == SetGrounded(f.isGrounded)
    ensures r.1.displacementY == Displacement(r.0.yVelocity, f.dt)
  {
    // gravity, then the falling check on the new velocity
    var v1 := AfterGravity(t, s, f.dt);
    // landing: grounded while moving down
    var landed := f.isGrounded && v1 < 0.0;
    var v2 := if landed then t.yVelocityWhenGrounded else v1;
    var charges := if landed then t.jumpsMax else s.jumpsAvailable;
    // jump, if pressed and a charge is left
    var jump := f.jumpPressed && charges > 0;
    var v3 := if jump then t.initialJumpVelocity else v2;
    var chargesLeft := if jump then charges - 1 else charges;
    // the animator calls made on the way, then the displacement handed to the mover
    var calls := FrameCalls(v1 < FallingThreshold, landed, jump, f.isGrounded);
    (State(v3, chargesLeft), Output(calls, Displacement(v3, f.dt)))
  }

  /** Applying calls one after another is applying their concatenation. */
  lemma {:induction false} ApplyAppend(a: AnimatorParams, xs: seq<AnimatorCall>, ys: seq<AnimatorCall>)
    ensures Apply(a, xs + ys) == Apply(Apply(a, xs), ys)
    decreases |xs|
  {
    if xs == [] {
      assert xs + ys == ys;
    } else {
      assert (xs + ys)[1..] == xs[1..] + ys;
      var a' := match xs[0]
        case SetFalling(b) => a.(isFalling := b)
        case TriggerJump => a.(jumpTrigger := true)
        case SetGrounded(b) => a.(isGrounded := b);
      ApplyAppend(a', xs[1..], ys);
    }
  }

  /**
   * What a frame's calls leave in the animator: the falling flag is
   * cleared on landing (the clear comes after the set, so it wins), set
   * when the velocity is past the threshold, and otherwise keeps its
   * value; the grounded flag is the reported one; the jump trigger is
   * raised exactly when a jump fired.
   */
  lemma ApplyFrameCalls(a: AnimatorParams, falling: bool, landed: bool, jumped: bool, grounded: bool)
    ensures Apply(a, FrameCalls(falling, landed, jumped, grounded)) ==
            AnimatorParams(
              if landed then false else if falling then true else a.isFalling,
              grounded,
              a.jumpTrigger || jumped)
  {
    var fallingCalls := if falling then [SetFalling(true)] else [];
    var landCalls := if landed then [SetFalling(false)] else [];
    var jumpCalls := if jumped then [TriggerJump] else [];
    ApplyAppend(a, fallingCalls, landCalls);
    ApplyAppend(a, fallingCalls + landCalls, jumpCalls);
    ApplyAppend(a, fallingCalls + landCalls + jumpCalls, [SetGrounded(grounded)]);
  }

  /**
   * The animator after one frame: the falling flag is cleared by a
   * landing, set when the velocity after gravity is below the falling
   * threshold, and otherwise left as it was; the grounded flag equals the
   * mover's query; the jump trigger is raised exactly when a jump fires.
   */
  lemma StepAnimatorEffect(t: Tuning, s: State, f: Frame, a: AnimatorParams)
    ensures Apply(a, Step(t, s, f).1.calls) ==
            AnimatorParams(
              if Lands(t, s, f) then false
              else if AfterGravity(t, s, f.dt) < FallingThreshold then true
              else a.isFalling,
              f.isGrounded,
              a.jumpTrigger || Jumps(t, s, f))
  {
    var falling := AfterGravity(t, s, f.dt) < FallingThreshold;
    assert Step(t, s, f).1.calls == FrameCalls(falling, Lands(t, s, f), Jumps(t, s, f), f.isGrounded);
    ApplyFrameCalls(a, falling, Lands(t, s, f), Jumps(t, s, f), f.isGrounded);
  }
}
