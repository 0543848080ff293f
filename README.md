# Robot arm joint control, modelled in Dafny

The robot arm simulator draws a chain of three rigid links. Each link
carries a `RotationalJoint` component: PID gains, the controller's memory
(the previous proportional error `p_prior` and the integral `i_prior`), a
pivot, a rotation axis and a target angle in degrees. Two per-frame
systems hold all of the logic:

- `process_input` reads the keyboard. ArrowUp raises every joint's target
  by one degree, ArrowDown lowers it by one degree, and R resets it to 0.
  Targets are clamped to [0, 360], and ArrowUp takes priority over
  ArrowDown, which takes priority over R.
- `pid_controller` works one joint at a time. It takes the vector part
  `p` of the error quaternion between the joint's current orientation and
  its target orientation. It updates the integral `i = i_prior + p*dt` and
  forms `out = p*p_gain + i*i_gain`, adding `d*d_gain` with
  `d = (p - p_prior)/dt` when the derivative is defined. It then rotates
  the joint's transform about its pivot by `get_joint_rotation(out, dt)`
  and stores `p` and `i` as the new memory.

The project models these systems and the helpers they call:

- `vectors.dfy` (`Vectors`): `Vec3` over the reals.
- `quaternions.dfy` (`Quaternions`): quaternions, with an exact Hamilton
  product and conjugate. Sine/cosine of the half angle and the reciprocal
  square root come from a `MathLib` value. `TrigLaws` lists the
  trigonometric facts the proofs need.
- `joints.dfy` (`Joints`): the `RotationalJoint` class, a value snapshot
  `JointState` of its fields, the setup constants and the three spawned
  joints.
- `input.dfy` (`Input`): `process_input` as a method over an array of
  joint objects, and lemmas about runs of ticks.
- `controller.dfy` (`Controller`): `degrees_to_rads`,
  `get_joint_rotation`, `calculate_error_quaternion`, `Transform` with
  `rotate_around`, the PID step as functions, and `pid_controller` as a
  method over arrays of joints and transforms.

The target angle is a `real`. `ValidTarget` (a whole number in [0, 360])
is proved to hold at spawn and after every tick. Keeping the angle real
makes "whole number" a proved property rather than a consequence of the
type.

The derivative guard at src/main.rs:253 tests only `!d.is_nan()`, but
its purpose is to drop a derivative that is not finite. In `f32`,
`dt == 0` makes `d` NaN only where `p` and `p_prior` agree in some
component. Where all three components differ, `d` is infinite, the guard
lets it through, and `out` becomes infinite. On reals the only degenerate
case is `dt == 0`, so the model takes the derivative exactly when
`dt != 0`. Infinities are not modelled. In `f32` that case goes further:
`get_joint_rotation(out, 0.0)` multiplies the infinite components by 0,
giving NaN angles, so `rotate_around` (src/main.rs:256-257) turns the
transform's rotation and translation into NaN, and from the next tick on
NaN also flows into `p_prior` and `i_prior`. On reals the same tick leaves
the transform where it was (`DegenerateTick`).

## Model

| member | source | states |
|---|---|---|
| Joints.RotationalJoint.constructor | src/main.rs:8-17 | a joint object holds exactly the eight fields of the record it is built from |
| Joints.Spawned | src/main.rs:120-129 | a spawned joint starts with zero `p_prior` and `i_prior` and a valid target (0) |
| Joints.SpawnJoints | src/main.rs:111-170 | setup builds three distinct fresh joints with the 20 / 8 / 0.05 gains: the base turns about Y around the origin, the two upper links about X around (0, 0.75, 0); all targets are valid |
| Joints.WholeShift | src/main.rs:221 | adding or removing a whole number of degrees keeps a whole-numbered target whole |
| Input.Clamp | src/main.rs:221 | the clamped value lies in the interval, equals the input inside it and is the nearer bound outside it |
| Input.Raised | src/main.rs:221 | the increment result lies in [0, 360], is `min(t+1, 360)` for an in-range target, stays 360 at 360 and keeps a valid target valid |
| Input.Lowered | src/main.rs:225 | the decrement result lies in [0, 360], is `max(t-1, 0)` for an in-range target, stays 0 at 0 and keeps a valid target valid |
| Input.Apply | src/main.rs:219-230 | every command (increment, decrement, reset) keeps a valid target valid and lands in [0, 360] |
| Input.StepTarget | src/main.rs:219-231 | key priority: with Up held only the increment happens; Down acts only without Up; R only without Up and Down; with none of them the target is unchanged; validity is preserved |
| Input.ApplyToAll | src/main.rs:220-230 | one loop of `process_input` applies the command to every joint's target and changes no other field |
| Input.ProcessInput | src/main.rs:215-232 | every joint's new state is its old state with the target replaced by `StepTarget` of the old target; joints with equal targets stay equal (same delta for all); validity of all targets is preserved |
| Input.TicksKeepTargetValid | src/main.rs:219-231 | clamp invariant: from a valid target (such as the spawn target 0), any sequence of ticks keeps the target a whole number in [0, 360] |
| Input.ResetEndsAtZero | src/main.rs:227-230 | whatever ticks came before, a final tick with R (and no arrow) leaves the target at 0 |
| Input.HoldingUp | src/main.rs:219-222 | holding ArrowUp (with any other keys) for n ticks takes a target t to `min(t+n, 360)` |
| Input.HoldingDown | src/main.rs:223-226 | holding ArrowDown without ArrowUp for n ticks takes a target t to `max(t-n, 0)` |
| Quaternions.ConjugateProduct | src/main.rs:268 | `conjugate(q) * q` and `q * conjugate(q)` are both the real number `|q|^2`, and the conjugate has the same norm, so for a unit `q1` the conjugate is its inverse |
| Quaternions.ConjugateOfProduct | src/main.rs:268-269 | conjugating twice gives back the quaternion, and the conjugate of a product is the product of the conjugates in reverse order |
| Quaternions.RotateKeepsLength | src/main.rs:256-257 | rotating a vector by a unit quaternion keeps its length |
| Quaternions.NormMultiplicative | src/main.rs:269-275 | the norm of a Hamilton product is the product of the norms, so products of unit quaternions are unit quaternions |
| Quaternions.Normalize | src/main.rs:269 | `normalize` is a scalar multiple of its argument, and of unit length for a non-zero argument once `length_recip` satisfies `k^2 n == 1` |
| Quaternions.ElementaryUnit | src/main.rs:273-275 | under the trigonometric laws, `from_rotation_x/y/z` give unit quaternions for every angle |
| Quaternions.ZeroAngleRotations | src/main.rs:273-275 | the elementary rotations by angle 0 are the identity |
| Controller.DegreesToRads | src/main.rs:263-265 | 0 degrees is 0 radians, 360 degrees is 2 pi, and [0, 360] maps into [0, 2 pi] |
| Controller.JointRotationUnit | src/main.rs:272-276 | whatever the rate vector and multiplier, `get_joint_rotation` returns a unit quaternion |
| Controller.CardinalAxisRotation | src/main.rs:272-276 | for the axes X, Y and Z, the X-then-Y-then-Z composition is the single elementary rotation about that axis |
| Controller.NoRotation | src/main.rs:272-276 | a zero rate vector, or a zero multiplier, gives the identity rotation |
| Controller.CardinalRoundTrip | src/main.rs:272-276 | for a cardinal axis, the rotation by theta followed by the rotation by -theta is the identity |
| Controller.ErrorQuaternion | src/main.rs:267-270 | equal orientations give an error quaternion with zero vector part; two non-zero orientations give a unit error quaternion |
| Controller.SpawnedTarget | src/main.rs:246-247 | a joint as spawned (target 0) is driven towards the identity orientation, whatever its pivot and axis |
| Controller.ErrorSignal | src/main.rs:245-249 | the proportional error `p` is zero when the transform already has the target orientation |
| Controller.Integral | src/main.rs:250 | over a non-zero `dt` the change in the integral, divided by `dt`, is `p`; with `dt == 0` or zero error the integral stays where it was |
| Controller.RotatedAround | src/main.rs:257 | `rotate_around` pre-multiplies the orientation by the rotation, leaves a transform sitting on the pivot on the pivot, and is the identity for the identity rotation |
| Controller.RotatedAroundKeepsDistance | src/main.rs:257 | for a unit rotation, `rotate_around` keeps the transform's distance from the pivot |
| Controller.Transform.RotateAround | src/main.rs:257 | the transform's new pose is `RotatedAround` of its old pose |
| Controller.Derivative | src/main.rs:251 | for `dt != 0`, `p_prior + d*dt == p`: the derivative recovers the change in error |
| Controller.Output | src/main.rs:252-255 | `out` is `p*p_gain + i*i_gain`, plus `d*d_gain` exactly when `dt != 0`; with `dt == 0` the integral term uses the unchanged `i_prior` |
| Controller.Remember | src/main.rs:250-259 | after a step `p_prior` is the step's `p`, `i_prior` is `old i_prior + p*dt`, no other field changes, and `dt == 0` leaves `i_prior` as it was |
| Controller.ZeroOutput | src/main.rs:252-255 | with zero error, zero previous error and zero integral the output is zero |
| Controller.AtRest | src/main.rs:243-261 | a joint at its target orientation with empty memory is a fixed point: memory stays zero and the transform does not move |
| Controller.DegenerateTick | src/main.rs:250-257 | a tick with `dt == 0` leaves the transform and `i_prior` untouched and only sets `p_prior` to the new error |
| Controller.MemoryOverTicks | src/main.rs:250-259 | over any run of ticks, `i_prior` is the start value plus the sum of `p*dt`, `p_prior` is the last error and nothing but the memory changes |
| Controller.ControlStep | src/main.rs:245-259 | one loop iteration changes only the joint's `p_prior` and `i_prior`, sets `p_prior` to the measured error, sets `i_prior` to the old `i_prior` plus that error times `dt`, and keeps a link sitting on its pivot there |
| Controller.ControlStepIsRigid | src/main.rs:256-257 | with lawful trigonometry, one loop iteration moves the transform rigidly: its distance from the pivot and the length of its orientation quaternion are unchanged |
| Controller.ControlJoint | src/main.rs:245-259 | the loop body takes one joint and its transform to `ControlStep` of their old values |
| Controller.PidController | src/main.rs:243-261 | every joint and its transform move to `ControlStep` of their old values (memory updated, transform rotated about the pivot); by `ControlStep`'s contract each joint's `p_prior` becomes its error, `i_prior` grows by that error times `dt`, and gains, pivot, axis and target are untouched |

## Left out

- Scene setup (meshes, materials, camera, light, plane, fonts, text entities) is presentation only. The joints' initial field values are modelled. Their initial transforms are not.
- `text_update_system` and `text_debug_update_system`: FPS and debug text formatting, including rounding the end-effector position to two decimals.
- `process_rotations` is not registered as a system, so it never runs.
- World transforms of the chain: Bevy's hierarchy propagation composes parent and child transforms, and no code in the repository does it. The end-effector position is therefore not modelled, and neither are claims about how a parent's rotation moves its descendants.
- Floating point: all arithmetic is on reals. NaN, infinities and rounding are not represented, so the `is_nan` guard becomes `dt != 0` (see above).
- Trigonometry and square roots: `(a * 0.5).sin_cos()` and the reciprocal length used by `normalize` are the `MathLib` functions. The only facts about them are the `TrigLaws` and the `RecipSqrtLaw` assumed by the lemmas and contracts that need them. `PI` is a 20-digit real constant, not the `f32` value.
- Controller.RotatedAround: Bevy's `rotate_around` lives in the Bevy crate, outside this repository. It follows Bevy's definition: translate around the point, then pre-multiply the rotation. The vector rotation is written as the sandwich `q v q*`, not as glam's expanded `mul_vec3` formula.
- Controller.DegenerateTick: on reals a `dt == 0` tick leaves the transform in place. In `f32`, when every component of `p` differs from `p_prior`, the same tick makes the transform NaN (see above).
- Controller.PidController: the frame is whole joint and transform objects. That only `p_prior` and `i_prior` change follows from `ControlStep`'s contract, not from a field-level `modifies` clause.
- Convergence toward the target is not stated. It depends on `f32` behaviour and on the trigonometric functions.
- The keyboard state is a set of pressed keys and `Time::delta_seconds` is the `dt` parameter. `process_input` and `pid_controller` are separate methods because the app does not order them within a frame.
