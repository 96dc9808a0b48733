# Player controller locomotion and camera model

This project models the locomotion and camera state logic of a Unity
first/third-person character controller, `Player_Controller`. Every
physics tick the controller does four things, in this order:

1. It casts a ray down from the body's centre of mass and records whether it is grounded.
2. It picks a target speed (idle, crouch, run or walk).
3. When grounded, it blends its planar velocity toward that target with one `Mathf.Lerp` step per axis, and pushes the rigid body by the difference. When airborne, it pushes the body by the last blended velocity scaled by an air-resistance factor.
4. It sets the animator's Jump trigger when jump is held on the ground, and mirrors the crouch button into the animator's Crouch flag.

Two things happen once per rendered frame instead: the controller pitches the camera pivot within clamp limits and turns the body by the mouse's horizontal delta, and it toggles between the first- and third-person cameras by moving the third-person camera's priority by ±30. `jumpAddForce` is public and is called from outside the component, presumably by an animation event at lift-off. It cancels the body's vertical velocity, applies an upward impulse and resets the Jump trigger.

The model has three modules:

- `UnityMath` (`unity_math.dfy`) covers the vectors and the Unity math the controller calls. `Vector2 ==` is Unity's approximate equality (squared length of the difference below 1e-10). It also has `Mathf.Clamp`, `Mathf.Clamp01` and `Mathf.Lerp`, with Unity `float` modelled as `real`.
- `Locomotion` (`locomotion.dfy`) has value-level reference definitions: the input snapshot, the animator parameters, AddForce calls and their effect on a body's velocity, the target speed, the blend, the velocity changes, the jump forces, pitch and yaw per frame, and the POV toggle. It also has the lemmas about these over one or many ticks.
- `PlayerControl` (`player_control.dfy`) is the class `PlayerController`. Its fields are the state the component keeps. Each method is one of the component's steps, with field-level `modifies` frames, and `FixedTick` composes the four physics-tick steps in the component's order. Each method's `ensures` ties the new state to the reference definitions.

Physics and animator calls are modelled like this:

- The ray's result and the body's velocity come in as parameters. `groundBelow` is the distance to the first ground-layer collider straight below, if there is one.
- Every AddForce call is appended to the `forces` log.
- The animator's parameters are a record field, `anim`.
- The rotation is a yaw accumulator.

Behaviour of the code that the lemmas make explicit:

- The grounded blend is one `Mathf.Lerp` step per tick by `clamp01(animBlendSpeed * fixedDeltaTime)`. The gap to the target shrinks by the factor `1 - clamp01(animBlendSpeed * fixedDeltaTime)` per tick (`BlendTicksGap`).
- Each airborne tick adds `currentVelocity * airResistance` to the body's velocity again, whatever the body's velocity already is (`AirborneDrift`). This sum is in the body's local axes; it is the body's world velocity only while the body's yaw stays zero and its scale is one.
- The POV toggle alternates only when `first - third` starts in (-30, 30] (`PovTogglesAlternate`). Outside that band the first toggles all move the third-person priority the same way, and during those toggles the camera that was behind does not get strictly ahead (`PovTogglesDrift`); once the difference enters the band the toggles alternate. Inside the band, a start at difference 0 or 30 alternates between those two differences, so every other toggle ends in a tie; any other start in the band never ties (`PovNeverTies`).
- `move` returns early without an animator, so a controller without one never moves. Every other step except `jumpAddForce` has the same guard.

## Model

| member | source | states |
|---|---|---|
| `UnityMath.IsZero` | Project/Assets/Scripts/Player_Controller.cs:107 | an exact zero vector compares equal to zero, and anything that compares equal has both components below kEpsilon in magnitude |
| `UnityMath.Clamp` | Project/Assets/Scripts/Player_Controller.cs:147 | with ordered bounds the result lies in [min, max]; a value already in range is returned unchanged |
| `UnityMath.ClampIsNearest` | Project/Assets/Scripts/Player_Controller.cs:147 | with ordered bounds the clamped pitch is the point of the range nearest the unclamped value |
| `UnityMath.Clamp01` | Project/Assets/Scripts/Player_Controller.cs:115-116 | the blend fraction used inside Lerp lies in [0, 1], and a fraction already in [0, 1] is used unchanged |
| `UnityMath.Lerp` | Project/Assets/Scripts/Player_Controller.cs:115-116 | the result lies between the two end points; a fraction at or below 0 gives the start and at or above 1 gives the target |
| `UnityMath.LerpGap` | Project/Assets/Scripts/Player_Controller.cs:115-116 | one blend step scales the remaining gap to the target by 1 - clamp01(t) |
| `Locomotion.TargetSpeed` | Project/Assets/Scripts/Player_Controller.cs:100-111 | the target speed is 0 exactly when the move input compares equal to zero; otherwise crouching gives 1.5 whatever run says, and without crouch it is 6 when running and 2 when walking; it never exceeds 6 |
| `Locomotion.SelectTargetSpeed` | Project/Assets/Scripts/Player_Controller.cs:100-111 | the source's overwrite sequence (run/walk, then crouch, then zero move) yields the precedence zero move > crouch > run > walk |
| `Locomotion.BlendVelocity` | Project/Assets/Scripts/Player_Controller.cs:113-116 | each axis of the new velocity lies between its old value and move_i * targetSpeed |
| `Locomotion.ZeroMoveNeverSpeedsUp` | Project/Assets/Scripts/Player_Controller.cs:107-116 | with zero move input a grounded blend never increases the magnitude of either axis, whatever run and crouch say |
| `Locomotion.BlendTicksGap` | Project/Assets/Scripts/Player_Controller.cs:115-116 | after n grounded ticks toward a fixed target the gap is the initial gap multiplied n times by 1 - clamp01(t): geometric decay per tick |
| `Locomotion.BlendTicksNeverOvershoot` | Project/Assets/Scripts/Player_Controller.cs:115-116 | repeated blending stays between the start and the target and never moves away from the target |
| `Locomotion.TickVelocity` | Project/Assets/Scripts/Player_Controller.cs:113-127 | an airborne tick leaves the blended velocity unchanged; with zero move input no tick increases either axis's magnitude |
| `Locomotion.TickVelocityChange` | Project/Assets/Scripts/Player_Controller.cs:118-127 | the velocity change given to the body has no vertical component in either branch |
| `Locomotion.GroundedVelocityChange` | Project/Assets/Scripts/Player_Controller.cs:118-121 | the grounded velocity change has no vertical component |
| `Locomotion.AirborneVelocityChange` | Project/Assets/Scripts/Player_Controller.cs:126 | the airborne velocity change has no vertical component |
| `Locomotion.ApplyForce` | Project/Assets/Scripts/Player_Controller.cs:121 | a `ForceMode.VelocityChange` push adds its vector to the velocity; a `ForceMode.Impulse` push changes the velocity so that mass times the change equals the impulse; a push with no vertical component keeps the vertical velocity |
| `Locomotion.ApplyForces` | Project/Assets/Scripts/Player_Controller.cs:121-126 | a sequence of pushes none of which has a vertical component leaves the vertical velocity unchanged |
| `Locomotion.ApplyForcesAppend` | Project/Assets/Scripts/Player_Controller.cs:165-169 | a force log can be applied piece by piece: applying two logs one after the other equals applying their concatenation |
| `Locomotion.GroundedChangeReachesBlend` | Project/Assets/Scripts/Player_Controller.cs:118-121 | applying the grounded velocity change makes the body's planar velocity equal the blended velocity and keeps its vertical velocity |
| `Locomotion.AirborneDrift` | Project/Assets/Scripts/Player_Controller.cs:124-127 | n airborne ticks with a frozen blended velocity add n * airResistance * currentVelocity to the body's planar velocity; vertical velocity is untouched |
| `Locomotion.JumpForces` | Project/Assets/Scripts/Player_Controller.cs:168-169 | a jump is two pushes: first a velocity change that zeroes the vertical velocity and keeps the planar one, then a purely vertical impulse of jumpFactor |
| `Locomotion.JumpLaunchVelocity` | Project/Assets/Scripts/Player_Controller.cs:165-171 | cancelling vertical velocity and then adding the impulse gives vertical velocity jumpFactor / mass, whatever it was before, with planar velocity kept |
| `Locomotion.RayHits` | Project/Assets/Scripts/Player_Controller.cs:179 | no ground below never counts as a hit; ground within disToGround + 0.1 always hits; a hit is never further than disToGround + 0.1 |
| `Locomotion.PitchStep` | Project/Assets/Scripts/Player_Controller.cs:146-147 | with upperLimit <= bottomLimit the pitch after a frame is within [upperLimit, bottomLimit] |
| `Locomotion.PitchStaysInLimits` | Project/Assets/Scripts/Player_Controller.cs:146-147 | after any non-empty run of frames the pitch is within its limits, whatever it started at |
| `Locomotion.YawIsSumOfDeltas` | Project/Assets/Scripts/Player_Controller.cs:151 | over a run of frames the yaw grows by exactly the sum of lookX * sensitivity * dt, without a clamp |
| `Locomotion.LookAxesIndependent` | Project/Assets/Scripts/Player_Controller.cs:139-151 | yaw depends only on horizontal look, and pitch depends only on vertical look |
| `Locomotion.PovToggle` | Project/Assets/Scripts/Player_Controller.cs:211-219 | one toggle moves the third-person priority by exactly 30, upward exactly when the first-person priority is strictly higher |
| `Locomotion.PovToggleFlips` | Project/Assets/Scripts/Player_Controller.cs:211-219 | inside the band (-30, 30] one toggle keeps the difference in the band, flips which camera wins first > third, and two toggles restore the original priority exactly |
| `Locomotion.PovTogglesAlternate` | Project/Assets/Scripts/Player_Controller.cs:206-222 | inside the band an even number of toggles restores the third-person priority and an odd number equals one toggle |
| `Locomotion.PovNeverTies` | Project/Assets/Scripts/Player_Controller.cs:211-219 | inside the band, away from differences 0 and 30, no number of toggles makes the priorities equal |
| `Locomotion.PovTogglesDrift` | Project/Assets/Scripts/Player_Controller.cs:211-219 | outside the band n toggles all move the third-person priority the same way (up 30n while the difference exceeds 30n, down 30n while it is at most -30n), so in the upward case the third-person priority stays strictly below the first-person one, and in the downward case it never falls strictly below it |
| `PlayerControl.DefaultPitchStaysInLimits` | Project/Assets/Scripts/Player_Controller.cs:19-20 | with the shipped limits -40 and 70 the pitch stays in [-40, 70] after any frame |
| `PlayerControl.PlayerController.constructor` | Project/Assets/Scripts/Player_Controller.cs:46-53 | a new controller is airborne, has zero blended velocity and zero pitch, and has applied no forces |
| `PlayerControl.PlayerController.SetAnimationGrounding` | Project/Assets/Scripts/Player_Controller.cs:200-204 | Falling becomes the negation of isGrounded and Grounded becomes isGrounded; nothing else changes |
| `PlayerControl.PlayerController.DetectGround` | Project/Assets/Scripts/Player_Controller.cs:174-198 | isGrounded becomes the ray-hit result (hit within disToGround + 0.1), Falling == !isGrounded, Grounded == isGrounded, and the fall speed is published only when not grounded; with no animator nothing changes |
| `PlayerControl.PlayerController.Move` | Project/Assets/Scripts/Player_Controller.cs:96-132 | grounded: the velocity is blended toward move * TargetSpeed and the body gets (current - body) as a velocity change; airborne: the velocity is unchanged and the body gets current * airResistance; the blended velocity is published; with no animator nothing changes |
| `PlayerControl.PlayerController.CameraMovement` | Project/Assets/Scripts/Player_Controller.cs:135-153 | the pivot is moved to the head, pitch becomes clamp(old - lookY * sens * dt, upper, bottom) and lies within ordered limits, and yaw grows by exactly lookX * sens * dt; with no animator nothing changes |
| `PlayerControl.PlayerController.HandleJump` | Project/Assets/Scripts/Player_Controller.cs:155-163 | the Jump trigger becomes set when an animator is present, jump is held and the body is grounded, and otherwise keeps its old value; an airborne call changes nothing |
| `PlayerControl.PlayerController.JumpAddForce` | Project/Assets/Scripts/Player_Controller.cs:165-172 | appends the vertical-velocity cancel and then the jumpFactor impulse to the force log, and resets the Jump trigger |
| `PlayerControl.PlayerController.ChangePov` | Project/Assets/Scripts/Player_Controller.cs:206-222 | without the camera-changed input (or an animator) nothing changes; otherwise only the third-person priority moves, +30 when first > third and -30 otherwise; the band (-30, 30] is preserved |
| `PlayerControl.PlayerController.HandleCrouch` | Project/Assets/Scripts/Player_Controller.cs:224-229 | the Crouch flag equals the crouch input on every call, whatever the move input |
| `PlayerControl.PlayerController.FixedTick` | Project/Assets/Scripts/Player_Controller.cs:81-88 | one physics tick gives the combined effect of ground detection, movement, jump gating and crouch in that order; the jump gate sees this tick's grounding, so an airborne tick never sets the Jump trigger |
| `PlayerControl.TogglePovTwice` | Project/Assets/Scripts/Player_Controller.cs:206-222 | two toggles of a controller whose priorities start inside the band leave both priorities exactly as they were |

## Left out

- Start-up (`Start`, lines 56-73) is not modelled: the animator-hash lookups and the component lookups. Whether an animator was found is a constructor argument, `hasAnimator`.
- Unity's scheduling of `Update`, `FixedUpdate` and `LateUpdate` is not modelled. `FixedTick`, `ChangePov` and `CameraMovement` are separate methods for the caller to sequence. `Time.fixedDeltaTime` and `Time.smoothDeltaTime` are parameters.
- The physics engine is not modelled. `Physics.Raycast` and the ground layer mask become the `groundBelow` parameter. Gravity, drag, collisions and the integration step are not part of `ApplyForces`.
- `transform.TransformVector` is not modelled, so the movement pushes (lines 121 and 126) are recorded in the body's local axes, unrotated and unscaled. The source subtracts the body's world-space velocity from the local-space blended velocity; the model keeps that subtraction as written. `GroundedChangeReachesBlend` and `AirborneDrift` therefore describe the body's velocity only while its yaw stays zero and its scale is one; mouse look turning the body between airborne ticks makes the world-axis pushes differ from tick to tick. The jump forces (lines 168-169) are world-axis and match local up only while the body is upright.
- Rotations are not modelled as quaternions. `Quaternion.Euler` and `MoveRotation` become a yaw accumulator in degrees, with no wrap-around. Camera pitch is the `xRotation` value itself.
- Floating-point rounding is not modelled: `float` is `real`.
- `Input_Manager.cs` is not part of this model. The `InputSnapshot` record stands for what it exposes. The crouch button is modelled as one more boolean input, because `Input_Manager` declares no `Crouch` property although the controller reads one (lines 102 and 227).
- Animator internals are not modelled. The animator state machine can also consume and clear the Jump trigger through a transition, and that is not modelled. Only `JumpAddForce` resets it.
- `JumpAddForce` without an animator: the source throws after applying both forces. The model applies the forces and leaves the trigger untouched; the exception itself is not modelled.
- Cinemachine is reduced to the two integer priorities. Camera blending and selection on ties are not modelled.
- `OnDrawGizmosSelected` (lines 232-237) and the `Debug.Log` call (line 195) are editor and diagnostic output only. Neither is modelled.
