/**
 * The controller object itself: the fields that PlayerMovement declares
 * for vertical motion, the one-off derivation in Start, and the vertical
 * part of Update, which changes the fields in place once per frame.  The
 * engine's inputs (frame time, the mover's grounded query, the jump edge)
 * are parameters; the animator calls and the vertical displacement handed
 * to the mover are returned.
 */
module Player {
  import opened VerticalMotion
  import opened JumpKinematics

  class PlayerMovement {
    const yVelocityWhenGrounded: real := -4.0  // keeps the mover's grounded query true
    const jumpHeight: real := 3.0              // height of a jump, in units
    const jumpTime: real := 0.5                // duration of a jump, in seconds
    const jumpsMax: int := 2                   // charges refilled on landing

    var gravity: real
    var yVelocity: real
    var initialJumpVelocity: real
    var jumpsAvailable: int

    /** The constants the frame step uses. */
    function CurrentTuning(): Tuning
      reads this
    {
      Tuning(gravity, initialJumpVelocity, yVelocityWhenGrounded, jumpsMax)
    }

    /** The state carried from frame to frame. */
    function Current(): State
      reads this
    {
      State(yVelocity, jumpsAvailable)
    }

    /** Once Start has run: gravity pulls down, jumps go up, charges are in range. */
    ghost predicate Valid()
      reads this
    {
      ValidTuning(CurrentTuning()) && ChargesInRange(CurrentTuning(), Current())
    }

    /** The field initialisers: default gravity, at rest, no jump charges. */
    constructor ()
      ensures gravity == -9.81 && yVelocity == 0.0
      ensures initialJumpVelocity == 0.0 && jumpsAvailable == 0
    {
      gravity := -9.81;
      yVelocity := 0.0;
      initialJumpVelocity := 0.0;
      jumpsAvailable := 0;
    }

    /**
     * Start: gravity from the jump's height and duration, and the take-off
     * speed as the square root of -2 * jumpHeight * gravity, which the
     * caller supplies as `root`.  With the configured constants these are
     * -96 and 24.
     */
    method Start(root: real)
      requires IsSquareRoot(root, jumpHeight * -2.0 * DeriveGravity(jumpHeight, jumpTime))
      requires 0 <= jumpsAvailable <= jumpsMax
      modifies this
      ensures gravity == DeriveGravity(jumpHeight, jumpTime) == -96.0
      ensures initialJumpVelocity == root == 24.0
      ensures yVelocity == old(yVelocity) && jumpsAvailable == old(jumpsAvailable)
      ensures Valid()
    {
      gravity := DeriveGravity(jumpHeight, jumpTime);
      initialJumpVelocity := root;
      ConfiguredJump(root);
    }

    /**
     * The vertical part of one Update: the fields move to the state `Step`
     * gives, the returned animator calls and displacement are its output,
     * the constants are untouched and the charge invariant is kept.
     */
    method Update(dt: real, isGrounded: bool, jumpPressed: bool) returns (out: Output)
      requires Valid()
      modifies this
      ensures Valid()
      ensures gravity == old(gravity) && initialJumpVelocity == old(initialJumpVelocity)
      ensures (Current(), out) == Step(old(CurrentTuning()), old(Current()), Frame(dt, isGrounded, jumpPressed))
    {
      ghost var t, s := CurrentTuning(), Current();
      var calls: seq<AnimatorCall> := [];

      yVelocity := yVelocity + gravity * dt;
      assert yVelocity == AfterGravity(t, s, dt);

      ghost var falling := yVelocity < FallingThreshold;
      if yVelocity < FallingThreshold {
        calls := calls + [SetFalling(true)];
      }

      ghost var landed := isGrounded && yVelocity < 0.0;
      if isGrounded && yVelocity < 0.0 {
        yVelocity := yVelocityWhenGrounded;
        jumpsAvailable := jumpsMax;
        calls := calls + [SetFalling(false)];
      }

      ghost var jumped := jumpPressed && jumpsAvailable > 0;
      if jumpPressed && jumpsAvailable > 0 {
        calls := calls + [TriggerJump];
        yVelocity := initialJumpVelocity;
        jumpsAvailable := jumpsAvailable - 1;
      }

      calls := calls + [SetGrounded(isGrounded)];
      assert calls == FrameCalls(falling, landed, jumped, isGrounded);

      out := Output(calls, Displacement(yVelocity, dt));
    }
  }

  /**
   * With the configured constants (gravity -96, take-off 24, resting
   * velocity -4, two charges): standing on the ground with both charges
   * and pressing jump gives velocity 24 and leaves one charge, for any
   * non-negative frame time.
   */
  lemma ConfiguredGroundJump(dt: real)
    requires dt >= 0.0
    ensures Step(Tuning(-96.0, 24.0, -4.0, 2), State(-4.0, 2), Frame(dt, true, true)).0 == State(24.0, 1)
  {
  }
}
