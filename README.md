# Vertical motion of the PlayerMovement locomotion controller

`PlayerMovement` is a Unity character controller. Once per frame its
`Update` moves the character sideways from two input axes. It also keeps a
vertical velocity: it adds gravity, snaps the velocity to a small resting
value when the character lands, and replaces it with a take-off speed when
the player jumps. Jumps are paid for with charges: landing refills them to
`jumpsMax` (2), and each jump spends one, so the player can jump twice
(a double jump) before landing again. `Start` derives gravity and the
take-off speed from the jump's height (3 units) and duration (0.5 s).

This project models that vertical part:

- `JumpKinematics` covers the derivation in `Start`. The engine's square
  root is represented by the value it returns, characterised by
  `root >= 0 && root * root == x`.
- `VerticalMotion` describes one frame as a pure function, `Step`. It takes
  the carried state (`yVelocity`, `jumpsAvailable`) and the frame's inputs
  (frame time, the mover's `isGrounded` query, the jump-button edge). It
  returns the new state, the animator calls made, in order, and the
  vertical displacement handed to the mover.
- `FrameSequences` runs `Step` over any sequence of frames and proves
  properties of whole runs: the charge bounds, the double-jump limit and
  free fall.
- `Player` holds the class `PlayerMovement`. Its fields are those of the
  source, and `Start` and `Update` change them in place. `Update` is proved
  to move the fields to exactly the state `Step` gives and to keep the
  charge invariant `0 <= jumpsAvailable <= jumpsMax`.

Floats are modelled as `real`. `jumpsAvailable` and `jumpsMax` are declared
`float` in the source but only ever hold whole numbers, so they are `int`.

Two details of the code that the model keeps as written:

- Landing requires the velocity after gravity to be strictly negative
  (`< 0.0`), not `<= 0`.
- The jump check runs after the landing reset. So a jump pressed with no
  charges left still fires if the same frame lands. `ChargesAtJumpCheck`
  gives the charges that the check sees.

## Model

| member | source | states |
|---|---|---|
| `JumpKinematics.TimeToApex` | Assets/Scripts/PlayerMovement.cs:37 | the time to the apex is half the jump's duration, and positive and shorter than the duration when the duration is positive |
| `JumpKinematics.DeriveGravity` | Assets/Scripts/PlayerMovement.cs:38 | gravity times the squared time to apex is `-2 * jumpHeight`, and gravity is negative for every positive height |
| `JumpKinematics.ApexAtHalfTime` | Assets/Scripts/PlayerMovement.cs:37-39 | for any positive height and duration, the take-off speed is positive, reaches zero after exactly half the duration, and the arc peaks at exactly `jumpHeight` |
| `JumpKinematics.ConfiguredJump` | Assets/Scripts/PlayerMovement.cs:37-39 | with height 3 and duration 0.5, gravity is -96 and the only take-off speed the square root can give is 24 |
| `VerticalMotion.FrameCalls` | Assets/Scripts/PlayerMovement.cs:72-94 | the frame's animator calls include the jump trigger exactly when a jump fired, and end with the grounded report |
| `VerticalMotion.Step` | Assets/Scripts/PlayerMovement.cs:69-98 | one frame keeps `0 <= jumpsAvailable <= jumpsMax`. A jump fires exactly when pressed with a charge left (counting a refill by landing in the same frame); it sets the velocity to the take-off speed whatever it was and spends exactly one charge. Landing without a jump gives exactly the resting velocity -4 and full charges. Otherwise velocity changes by `gravity * dt` and the charges stay. The grounded report comes last and equals the mover's query. The displacement is the final velocity times `dt` |
| `VerticalMotion.ApplyFrameCalls` | Assets/Scripts/PlayerMovement.cs:72-94 | after the frame's calls, the animator's falling flag is false if the frame landed (the clear runs after the set, so it wins), true if the velocity went below -25, and otherwise unchanged; its grounded flag is the reported value; its jump trigger is raised exactly when a jump fired |
| `VerticalMotion.StepAnimatorEffect` | Assets/Scripts/PlayerMovement.cs:72-94 | the same effect stated for `Step`: the falling flag is cleared only by landing and set only when the velocity after gravity is below -25; the grounded flag equals `isGrounded`; the jump trigger is raised exactly when the frame jumps |
| `FrameSequences.Run` | Assets/Scripts/PlayerMovement.cs:69-98 | running a sequence of frames yields one output per frame |
| `FrameSequences.RunKeepsChargesInRange` | Assets/Scripts/PlayerMovement.cs:78-91 | from a state within `0 <= jumpsAvailable <= jumpsMax`, every sequence of frames ends within it |
| `FrameSequences.JumpsSpendCharges` | Assets/Scripts/PlayerMovement.cs:86-91 | over frames with no landing, the jumps fired plus the charges left equal the charges at the start |
| `FrameSequences.JumpsBoundedByCharges` | Assets/Scripts/PlayerMovement.cs:86-91 | over frames with no landing, no more jumps fire than there were charges, hence no more than `jumpsMax` |
| `FrameSequences.NoJumpBeforeFirstLanding` | Assets/Scripts/PlayerMovement.cs:78-91 | starting with no charges (the initial value at line 22), no jump fires before the first landing, however often jump is pressed |
| `FrameSequences.AtMostJumpsMaxBetweenLandings` | Assets/Scripts/PlayerMovement.cs:78-91 | from a landing frame up to the next landing, at most `jumpsMax` jumps fire, counting a jump in the landing frame itself |
| `FrameSequences.DoubleJump` | Assets/Scripts/PlayerMovement.cs:78-91 | with two charges the bound is reached: a jump on landing and one in the air both fire and use up the charges, and a third press in the air fires nothing |
| `FrameSequences.FreeFall` | Assets/Scripts/PlayerMovement.cs:69 | over frames with neither landing nor jump press, the velocity changes by exactly gravity times the total elapsed time and the charges stay |
| `FrameSequences.FreeFallSpeedsUp` | Assets/Scripts/PlayerMovement.cs:69 | under negative gravity and positive frame times, free fall strictly decreases the vertical velocity |
| `Player.PlayerMovement.constructor` | Assets/Scripts/PlayerMovement.cs:14-23 | the field initialisers: gravity -9.81, velocity 0, take-off speed 0 and no jump charges |
| `Player.PlayerMovement.Start` | Assets/Scripts/PlayerMovement.cs:34-40 | gravity becomes the derived value -96 and the take-off speed the square root 24; velocity and charges are untouched; the object invariant holds from then on |
| `Player.PlayerMovement.Update` | Assets/Scripts/PlayerMovement.cs:69-98 | the fields, the animator calls and the displacement are exactly those of `Step` on the old fields; gravity and the take-off speed are unchanged; the charge invariant is kept |
| `Player.ConfiguredGroundJump` | Assets/Scripts/PlayerMovement.cs:78-91 | with the configured constants, standing with velocity -4 and two charges and pressing jump gives velocity 24 and one charge |

## Left out

- Horizontal movement (lines 44-66: input axes, `ClampMagnitude`, `TransformDirection`, speed scaling) is not modelled. It is vector arithmetic over floats with a square root inside the engine. The intent that the clamped input magnitude is at most 1 is not stated.
- The `velocity` blend parameter sent with `anim.SetFloat` (line 53) is not modelled, because it is the horizontal input magnitude.
- `RotateModelToFaceMovement` and `RotatePlayerToFaceAwayFromCamera` (lines 115-139) are not modelled. They are quaternion look-rotation and spherical interpolation done in the engine. `Debug.Log` (line 117) is logging.
- The commented-out code (lines 103-108, 122, 135) is not modelled, because it does not run.
- Engine collaborators become parameters and results. `Time.deltaTime`, `cc.isGrounded` and `Input.GetButtonDown("Jump")` are parameters of `Update`. The `anim.Set*` calls come back as an ordered list of `AnimatorCall`. `cc.Move` receives only the vertical displacement.
- `cc.isGrounded` is read twice, at lines 78 and 94, with no move in between. The model treats it as one value per frame.
- `Player.PlayerMovement.Start`: `Mathf.Sqrt` is not computed. Its result comes in as the parameter `root`, which is required to be the non-negative square root. `Mathf.Pow(x, 2)` is written as `x * x`.
- Floating-point rounding, infinities and NaN are not modelled, because all arithmetic is on exact reals. With the configured constants, gravity -96 and take-off speed 24 are also exact in single precision.
- A zero or negative frame time is not rejected, matching the source. `Step` accepts any `dt`. Only `FreeFallSpeedsUp` asks for positive frame times.
- `speed`, `rotationSpeed` and the two rotation-smoothing rates (lines 11-12, 28, 31) are not modelled, because they only affect horizontal movement and rotation.
