/**
 * The jump constants that PlayerMovement.Start derives once, before the
 * first frame: a gravity chosen so that a jump rises `jumpHeight` units in
 * half of `jumpTime`, and the take-off speed that reaches exactly that
 * height.  The engine's square root is not modelled; the value it returns
 * is characterised by `IsSquareRoot` instead.
 */
module JumpKinematics {

  /** `root` is the non-negative square root of `x`. */
  predicate IsSquareRoot(root: real, x: real) {
    root >= 0.0 && root * root == x
  }

  /** Time from take-off to the top of the arc: half of the jump's duration. */
  function TimeToApex(jumpTime: real): (r: real)
    ensures jumpTime > 0.0 ==> 0.0 < r < jumpTime
    ensures r + r == jumpTime
  {
    jumpTime / 2.0
  }

  /**
   * Gravity as Start computes it: -2 * jumpHeight / timeToApex^2.  It is the
   * constant acceleration under which a body rises `jumpHeight` in
   * `timeToApex`, and it pulls downwards for every positive height.
   */
  function DeriveGravity(jumpHeight: real, jumpTime: real): (g: real)
    requires jumpTime != 0.0
    ensures g * (TimeToApex(jumpTime) * TimeToApex(jumpTime)) == -2.0 * jumpHeight
    ensures jumpHeight > 0.0 ==> g < 0.0
  {
    var t := TimeToApex(jumpTime);
    (-2.0 * jumpHeight) / (t * t)
  }

  /** Squaring is strictly increasing on the non-negative reals. */
  lemma SquareStrictlyIncreasing(x: real, y: real)
    requires 0.0 <= x < y
    ensures x * x < y * y
  {
    var xx, xy, yy := x * x, x * y, y * y;
    assert xx <= xy;
    assert xy < yy;
  }

  /** Two non-negative reals with the same square are equal. */
  lemma SquareRootUnique(a: real, b: real)
    requires a >= 0.0 && b >= 0.0 && a * a == b * b
    ensures a == b
  {
    if a < b {
      SquareStrictlyIncreasing(a, b);
    } else if b < a {
      SquareStrictlyIncreasing(b, a);
    }
  }

  /**
   * For any positive height and duration, the take-off speed that Start
   * computes is upward, gravity brings it to zero after exactly
   * `timeToApex` seconds, and the arc's highest point is `jumpHeight`
   * (v0 * t + g * t^2 / 2 == jumpHeight).
   */
  lemma ApexAtHalfTime(jumpHeight: real, jumpTime: real, v0: real)
    requires jumpHeight > 0.0 && jumpTime > 0.0
    requires IsSquareRoot(v0, jumpHeight * -2.0 * DeriveGravity(jumpHeight, jumpTime))
    ensures v0 > 0.0
    ensures v0 + DeriveGravity(jumpHeight, jumpTime) * TimeToApex(jumpTime) == 0.0
    ensures v0 * TimeToApex(jumpTime)
              + DeriveGravity(jumpHeight, jumpTime) * TimeToApex(jumpTime) * TimeToApex(jumpTime) / 2.0
            == jumpHeight
  {
    var g := DeriveGravity(jumpHeight, jumpTime);
    var t := TimeToApex(jumpTime);
    var h := jumpHeight;
    assert g * (t * t) == -2.0 * h;
    // (v0 * t)^2 == v0^2 * t^2 == -2 h g t^2 == 4 h^2 == (2 h)^2
    assert (v0 * t) * (v0 * t) == (v0 * v0) * (t * t);
    assert (v0 * v0) * (t * t) == (h * -2.0) * (g * (t * t));
    assert (v0 * t) * (v0 * t) == (2.0 * h) * (2.0 * h);
    SquareRootUnique(v0 * t, 2.0 * h);
    assert v0 * t == 2.0 * h;
    assert v0 > 0.0;
    assert g * t * t == -2.0 * h;
    assert (v0 + g * t) * t == 0.0;
  }

  /**
   * The constants the controller is configured with (height 3, duration
   * 0.5): gravity -96 and take-off speed 24, the latter being the only
   * square root Start can obtain.
   */
  lemma ConfiguredJump(v0: real)
    requires IsSquareRoot(v0, 3.0 * -2.0 * DeriveGravity(3.0, 0.5))
    ensures DeriveGravity(3.0, 0.5) == -96.0
    ensures v0 == 24.0
  {
    assert DeriveGravity(3.0, 0.5) * (0.25 * 0.25) == -6.0;
    assert v0 * v0 == 24.0 * 24.0;
    SquareRootUnique(v0, 24.0);
  }
}
