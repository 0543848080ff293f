/** `pid_controller` and the functions it calls: each tick every joint
    measures the rotation from its current orientation to its target
    orientation, feeds that error through a PID law, rotates its
    transform about its pivot by the result and remembers the error and
    its running integral for the next tick. */
module Controller {
  import opened Vectors
  import opened Quaternions
  import opened Joints

  /** `std::f32::consts::PI`, to the digits the real model carries. */
  const Pi: real := 3.14159265358979323846

  /** `degrees_to_rads`: the target range [0, 360] maps onto [0, 2 pi]. */
  function DegreesToRads(angle: real): (r: real)
    ensures angle == 0.0 ==> r == 0.0
    ensures 0.0 <= angle <= 360.0 ==> 0.0 <= r <= 2.0 * Pi
    ensures angle == 360.0 ==> r == 2.0 * Pi
  {
    angle * (Pi / 180.0)
  }

  /** `get_joint_rotation`: one elementary rotation per axis component, each
      by that component times `multiplier`, composed X, then Y, then Z. */
  function GetJointRotation(lib: MathLib, axis: Vec3, multiplier: real): Quat {
    var angles := Scale(axis, multiplier);
    Mul(Mul(FromRotationX(lib, angles.x), FromRotationY(lib, angles.y)), FromRotationZ(lib, angles.z))
  }

  /** Whatever the rates, the joint rotation is a unit quaternion, that is,
      a rotation. */
  lemma JointRotationUnit(lib: MathLib, axis: Vec3, multiplier: real)
    ensures TrigLaws(lib) ==> NormSq(GetJointRotation(lib, axis, multiplier)) == 1.0
  {
    var angles := Scale(axis, multiplier);
    var qx := FromRotationX(lib, angles.x);
    var qy := FromRotationY(lib, angles.y);
    var qz := FromRotationZ(lib, angles.z);
    var qxy := Mul(qx, qy);
    ElementaryUnit(lib, angles.x);
    ElementaryUnit(lib, angles.y);
    ElementaryUnit(lib, angles.z);
    UnitProduct(qx, qy);
    UnitProduct(qxy, qz);
  }

  /** The product of two unit quaternions is a unit quaternion. */
  lemma UnitProduct(a: Quat, b: Quat)
    ensures NormSq(a) == 1.0 && NormSq(b) == 1.0 ==> NormSq(Mul(a, b)) == 1.0
  {
    NormMultiplicative(a, b);
  }

  /** For a cardinal axis the composition is the single elementary rotation
      about that axis. */
  lemma CardinalAxisRotation(lib: MathLib, m: real)
    requires TrigLaws(lib)
    ensures GetJointRotation(lib, UnitX, m) == FromRotationX(lib, m)
    ensures GetJointRotation(lib, UnitY, m) == FromRotationY(lib, m)
    ensures GetJointRotation(lib, UnitZ, m) == FromRotationZ(lib, m)
  {
  }

  /** A zero rate, or a zero multiplier, gives no rotation at all. */
  lemma NoRotation(lib: MathLib, axis: Vec3, m: real)
    requires TrigLaws(lib)
    ensures GetJointRotation(lib, Zero, m) == Identity
    ensures GetJointRotation(lib, axis, 0.0) == Identity
  {
    ZeroAngleRotations(lib);
  }

  /** About a cardinal axis, the rotation by `theta` followed by the rotation
      by `-theta` is the identity. */
  lemma CardinalRoundTrip(lib: MathLib, axis: Vec3, theta: real)
    requires TrigLaws(lib)
    requires axis == UnitX || axis == UnitY || axis == UnitZ
    ensures Mul(GetJointRotation(lib, axis, theta), GetJointRotation(lib, axis, -theta)) == Identity
  {
    var sc := lib.halfSinCos(theta);
    var c, sn := sc.cos, sc.sin;
    assert lib.halfSinCos(-theta) == HalfSinCos(-sn, c);
    assert sn * sn + c * c == 1.0;
    ElementaryInverse(c, sn);
    CardinalAxisRotation(lib, theta);
    CardinalAxisRotation(lib, -theta);
    if axis == UnitX {
      assert GetJointRotation(lib, axis, theta) == Quat(c, sn, 0.0, 0.0);
      assert GetJointRotation(lib, axis, -theta) == Quat(c, -sn, 0.0, 0.0);
    } else if axis == UnitY {
      assert GetJointRotation(lib, axis, theta) == Quat(c, 0.0, sn, 0.0);
      assert GetJointRotation(lib, axis, -theta) == Quat(c, 0.0, -sn, 0.0);
    } else {
      assert GetJointRotation(lib, axis, theta) == Quat(c, 0.0, 0.0, sn);
      assert GetJointRotation(lib, axis, -theta) == Quat(c, 0.0, 0.0, -sn);
    }
  }

  /** `calculate_error_quaternion`: the normalized rotation taking `q1` to
      `q2`. Equal orientations give no error; two non-zero orientations give
      a unit error quaternion. */
  function ErrorQuaternion(lib: MathLib, q1: Quat, q2: Quat): (r: Quat)
    ensures q1 == q2 ==> VectorPart(r) == Zero
    ensures RecipSqrtLaw(lib) && NormSq(q1) > 0.0 && NormSq(q2) > 0.0 ==> NormSq(r) == 1.0
  {
    ConjugateProduct(q1);
    NormMultiplicative(Conjugate(q1), q2);
    Normalize(lib, Mul(Conjugate(q1), q2))
  }

  /** The position and orientation of a Bevy `Transform`. */
  datatype Pose = Pose(translation: Vec3, rotation: Quat)

  /** `Transform::rotate_around(point, q)`: the translation swings about
      `point` and the orientation is pre-multiplied by `q`. */
  function RotatedAround(pose: Pose, point: Vec3, q: Quat): (r: Pose)
    ensures r.rotation == Mul(q, pose.rotation)
    ensures pose.translation == point ==> r.translation == point
    ensures q == Identity ==> r == pose
  {
    RotateZero(q);
    RotateByIdentity(Sub(pose.translation, point));
    MulIdentity(pose.rotation);
    Pose(Add(point, Rotate(q, Sub(pose.translation, point))), Mul(q, pose.rotation))
  }

  /** A unit `q` swings the translation rigidly: its distance from `point`
      is kept. */
  lemma RotatedAroundKeepsDistance(pose: Pose, point: Vec3, q: Quat)
    ensures NormSq(q) == 1.0 ==>
      LengthSq(Sub(RotatedAround(pose, point, q).translation, point)) == LengthSq(Sub(pose.translation, point))
  {
    var offset := Sub(pose.translation, point);
    var swung := Rotate(q, offset);
    RotateKeepsLength(q, offset);
    assert RotatedAround(pose, point, q).translation == Add(point, swung);
    assert Sub(Add(point, swung), point) == swung;
  }

  /** The `Transform` component of a joint's entity. */
  class Transform {
    var translation: Vec3
    var rotation: Quat

    function AsPose(): Pose
      reads this
    {
      Pose(translation, rotation)
    }

    constructor (pose: Pose)
      ensures AsPose() == pose
    {
      translation, rotation := pose.translation, pose.rotation;
    }

    method RotateAround(point: Vec3, q: Quat)
      modifies this
      ensures AsPose() == RotatedAround(old(AsPose()), point, q)
    {
      translation := Add(point, Rotate(q, Sub(translation, point)));
      rotation := Mul(q, rotation);
    }
  }

  /** The orientation a joint is driven towards: its target angle, in
      radians, about its rotation axis. */
  function TargetRotation(lib: MathLib, j: JointState): Quat {
    GetJointRotation(lib, j.rotationAxis, DegreesToRads(j.targetAngle))
  }

  /** A freshly spawned joint (target 0) is driven towards the identity
      orientation, whatever its pivot and axis. */
  lemma SpawnedTarget(lib: MathLib, pivot: Vec3, axis: Vec3)
    requires TrigLaws(lib)
    ensures TargetRotation(lib, Spawned(pivot, axis)) == Identity
  {
    assert DegreesToRads(Spawned(pivot, axis).targetAngle) == 0.0;
    NoRotation(lib, axis, 0.0);
  }

  /** The proportional error `p`: the vector part of the error quaternion. */
  function ErrorSignal(lib: MathLib, j: JointState, rotation: Quat): (p: Vec3)
    ensures rotation == TargetRotation(lib, j) ==> p == Zero
  {
    VectorPart(ErrorQuaternion(lib, rotation, TargetRotation(lib, j)))
  }

  /** `(p - p_prior) / dt`, taken only when `dt` is not zero: the
      difference it recovers over `dt` is exactly the change in `p`. */
  function Derivative(p: Vec3, pPrior: Vec3, dt: real): (d: Vec3)
    requires dt != 0.0
    ensures Add(pPrior, Scale(d, dt)) == p
  {
    Scale(Sub(p, pPrior), 1.0 / dt)
  }

  /** The new integral: `i_prior + p * dt`. Over a non-zero `dt` the change
      it makes, divided by `dt`, is `p` again; with no time or no error it
      stays where it was. */
  function Integral(j: JointState, p: Vec3, dt: real): (i: Vec3)
    ensures dt != 0.0 ==> Scale(Sub(i, j.iPrior), 1.0 / dt) == p
    ensures dt == 0.0 || p == Zero ==> i == j.iPrior
  {
    Add(j.iPrior, Scale(p, dt))
  }

  /** The controller output `out`: the proportional and integral terms, and
      the derivative term only where the derivative is defined. */
  function Output(j: JointState, p: Vec3, dt: real): (out: Vec3)
    ensures dt != 0.0 ==> out == Add(Add(Scale(p, j.pGain), Scale(Integral(j, p, dt), j.iGain)),
                                     Scale(Derivative(p, j.pPrior, dt), j.dGain))
    ensures dt == 0.0 ==> out == Add(Scale(p, j.pGain), Scale(j.iPrior, j.iGain))
  {
    var out := Add(Scale(p, j.pGain), Scale(Integral(j, p, dt), j.iGain));
    if dt != 0.0 then Add(out, Scale(Derivative(p, j.pPrior, dt), j.dGain)) else out
  }

  /** The controller memory after a tick: `p_prior` becomes `p`, `i_prior`
      becomes the new integral, and no other field changes. A zero `dt`
      leaves the integral as it was. */
  function Remember(j: JointState, p: Vec3, dt: real): (r: JointState)
    ensures r.pPrior == p
    ensures r.iPrior == Add(j.iPrior, Scale(p, dt))
    ensures r.(pPrior := j.pPrior, iPrior := j.iPrior) == j
    ensures dt == 0.0 ==> r.iPrior == j.iPrior
  {
    j.(pPrior := p, iPrior := Integral(j, p, dt))
  }

  /** A joint and its transform after one controller tick. */
  datatype Controlled = Controlled(joint: JointState, pose: Pose)

  /** One iteration of `pid_controller`'s loop, on values. Only the joint's
      controller memory changes: `p_prior` becomes the measured error and
      `i_prior` adds it times `dt`. */
  function ControlStep(lib: MathLib, j: JointState, pose: Pose, dt: real): (r: Controlled)
    ensures r.joint.(pPrior := j.pPrior, iPrior := j.iPrior) == j
    ensures r.joint.pPrior == ErrorSignal(lib, j, pose.rotation)
    ensures r.joint.iPrior == Add(j.iPrior, Scale(r.joint.pPrior, dt))
    ensures pose.translation == j.pivot ==> r.pose.translation == j.pivot
  {
    var p := ErrorSignal(lib, j, pose.rotation);
    var q := GetJointRotation(lib, Output(j, p, dt), dt);
    Controlled(Remember(j, p, dt), RotatedAround(pose, j.pivot, q))
  }

  /** The transform moves rigidly in one controller step: the joint rotation
      is a unit quaternion, so the link keeps its distance from the pivot and
      its orientation keeps its length. */
  lemma ControlStepIsRigid(lib: MathLib, j: JointState, pose: Pose, dt: real)
    requires TrigLaws(lib)
    ensures var r := ControlStep(lib, j, pose, dt);
            && LengthSq(Sub(r.pose.translation, j.pivot)) == LengthSq(Sub(pose.translation, j.pivot))
            && NormSq(r.pose.rotation) == NormSq(pose.rotation)
  {
    var p := ErrorSignal(lib, j, pose.rotation);
    var q := GetJointRotation(lib, Output(j, p, dt), dt);
    assert ControlStep(lib, j, pose, dt).pose == RotatedAround(pose, j.pivot, q);
    JointRotationUnit(lib, Output(j, p, dt), dt);
    NormMultiplicative(q, pose.rotation);
    RotatedAroundKeepsDistance(pose, j.pivot, q);
  }

  /** With no error, no previous error and no accumulated integral the controller asks for no motion. */
  lemma ZeroOutput(j: JointState, dt: real)
    requires j.pPrior == Zero && j.iPrior == Zero
    ensures Output(j, Zero, dt) == Zero
  {
    assert Scale(Zero, dt) == Zero;
    assert Scale(Zero, j.pGain) == Zero;
    assert Scale(Zero, j.iGain) == Zero;
    if dt != 0.0 {
      assert Derivative(Zero, j.pPrior, dt) == Zero;
      assert Scale(Zero, j.dGain) == Zero;
    }
  }

  /** At rest: a joint at its target orientation with empty memory is a
      fixed point of the controller; memory stays empty and the transform
      does not move. */
  lemma AtRest(lib: MathLib, j: JointState, pose: Pose, dt: real)
    requires TrigLaws(lib)
    requires pose.rotation == TargetRotation(lib, j)
    requires j.pPrior == Zero && j.iPrior == Zero
    ensures ControlStep(lib, j, pose, dt) == Controlled(j, pose)
  {
    var p := ErrorSignal(lib, j, pose.rotation);
    assert p == Zero;
    ZeroOutput(j, dt);
    NoRotation(lib, Zero, dt);
  }

  /** A tick with `dt == 0` skips the derivative, leaves the transform where
      it was (the output is applied for zero time) and leaves the integral
      untouched; only `p_prior` takes the new error. */
  lemma DegenerateTick(lib: MathLib, j: JointState, pose: Pose)
    requires TrigLaws(lib)
    ensures ControlStep(lib, j, pose, 0.0) ==
            Controlled(j.(pPrior := ErrorSignal(lib, j, pose.rotation)), pose)
  {
    var p := ErrorSignal(lib, j, pose.rotation);
    NoRotation(lib, Output(j, p, 0.0), 0.0);
  }

  /** One tick's measurement: the error `p` and the elapsed time `dt`. */
  datatype Sample = Sample(p: Vec3, dt: real)

  /** The controller memory after a run of ticks. */
  function RememberAll(j: JointState, samples: seq<Sample>): JointState
    decreases |samples|
  {
    if samples == [] then j
    else RememberAll(Remember(j, samples[0].p, samples[0].dt), samples[1..])
  }

  /** The sum of `p * dt` over a run of ticks. */
  function IntegralOf(samples: seq<Sample>): Vec3
    decreases |samples|
  {
    if samples == [] then Zero
    else Add(Scale(samples[0].p, samples[0].dt), IntegralOf(samples[1..]))
  }

  /** Over any run of ticks the integral memory is the starting integral
      plus the sum of `p * dt`, `p_prior` is the last error, and nothing
      but the memory changes. */
  lemma {:induction false} MemoryOverTicks(j: JointState, samples: seq<Sample>)
    ensures RememberAll(j, samples).iPrior == Add(j.iPrior, IntegralOf(samples))
    ensures samples != [] ==> RememberAll(j, samples).pPrior == samples[|samples| - 1].p
    ensures samples == [] ==> RememberAll(j, samples).pPrior == j.pPrior
    ensures RememberAll(j, samples).(pPrior := j.pPrior, iPrior := j.iPrior) == j
    decreases |samples|
  {
    if samples != [] {
      var next := Remember(j, samples[0].p, samples[0].dt);
      MemoryOverTicks(next, samples[1..]);
      if |samples| > 1 {
        assert samples[1..][|samples[1..]| - 1] == samples[|samples| - 1];
      }
    }
  }

  /** The body of `pid_controller`'s loop for one joint and its transform. */
  method ControlJoint(lib: MathLib, joint: RotationalJoint, transform: Transform, dt: real)
    modifies joint, transform
    ensures Controlled(joint.State(), transform.AsPose()) ==
            ControlStep(lib, old(joint.State()), old(transform.AsPose()), dt)
  {
    ghost var before := Controlled(joint.State(), transform.AsPose());
    var currentRotation := transform.rotation;
    var angleRads := DegreesToRads(joint.targetAngle);
    var targetRotation := GetJointRotation(lib, joint.rotationAxis, angleRads);

    var p := VectorPart(ErrorQuaternion(lib, currentRotation, targetRotation));
    var i := Add(joint.iPrior, Scale(p, dt));
    var out := Add(Scale(p, joint.pGain), Scale(i, joint.iGain));
    if dt != 0.0 {
      var d := Scale(Sub(p, joint.pPrior), 1.0 / dt);
      out := Add(out, Scale(d, joint.dGain));
    }
    assert out == Output(before.joint, p, dt);
    var finalQuat := GetJointRotation(lib, out, dt);
    transform.RotateAround(joint.pivot, finalQuat);
    joint.pPrior := p;
    joint.iPrior := i;
  }

  /** `pid_controller`: each joint, with its transform, takes one controller
      step (so, by `Remember`, only the joints' controller memory changes). */
  method PidController(lib: MathLib, joints: array<RotationalJoint>, transforms: array<Transform>, dt: real)
    requires joints.Length == transforms.Length
    requires Distinct(joints) && Distinct(transforms)
    modifies set k | 0 <= k < joints.Length :: joints[k]
    modifies set k | 0 <= k < transforms.Length :: transforms[k]
    ensures forall k :: 0 <= k < joints.Length ==>
      Controlled(joints[k].State(), transforms[k].AsPose()) ==
      ControlStep(lib, old(joints[k].State()), old(transforms[k].AsPose()), dt)
  {
    for k := 0 to joints.Length
      invariant forall m :: 0 <= m < k ==>
        Controlled(joints[m].State(), transforms[m].AsPose()) ==
        ControlStep(lib, old(joints[m].State()), old(transforms[m].AsPose()), dt)
      invariant forall m :: k <= m < joints.Length ==> unchanged(joints[m], transforms[m])
    {
      ControlJoint(lib, joints[k], transforms[k], dt);
    }
  }
}
