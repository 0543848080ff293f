/** The `RotationalJoint` component: a joint's gains, its controller memory,
    its pivot, its rotation axis and its target angle, and the three joints
    the arm is built from. */
module Joints {
  import opened Vectors

  /** The gains every joint of the arm is built with. */
  const PGain: real := 20.0
  const IGain: real := 8.0
  const DGain: real := 0.05

  /** The length of one link of the arm. */
  const ArmLength: real := 1.5

  /** A snapshot of every field of a `RotationalJoint`. */
  datatype JointState = JointState(
    pGain: real, iGain: real, dGain: real,
    pPrior: Vec3, iPrior: Vec3,
    pivot: Vec3, rotationAxis: Vec3,
    targetAngle: real)

  /** A target angle the arm can hold: a whole number of degrees in [0, 360]. */
  predicate ValidTarget(t: real) {
    0.0 <= t <= 360.0 && IsWhole(t)
  }

  predicate IsWhole(t: real) {
    t == t.Floor as real
  }

  /** A whole number moved by a whole number of degrees stays whole. */
  lemma WholeShift(t: real, n: int)
    ensures IsWhole(t) ==> IsWhole(t + n as real)
  {
    if IsWhole(t) {
      var m := t.Floor + n;
      assert t + n as real == m as real;
      assert (m as real).Floor == m;
    }
  }

  /** A joint as setup spawns it: the arm's gains, zero controller memory
      and target 0, with the given pivot and axis. */
  function Spawned(pivot: Vec3, rotationAxis: Vec3): (s: JointState)
    ensures s.pPrior == Zero && s.iPrior == Zero
    ensures ValidTarget(s.targetAngle)
  {
    JointState(PGain, IGain, DGain, Zero, Zero, pivot, rotationAxis, 0.0)
  }

  /** The component as it lives on an entity: every field is updated in place. */
  class RotationalJoint {
    var pGain: real
    var iGain: real
    var dGain: real
    var pPrior: Vec3
    var iPrior: Vec3
    var pivot: Vec3
    var rotationAxis: Vec3
    var targetAngle: real

    function State(): JointState
      reads this
    {
      JointState(pGain, iGain, dGain, pPrior, iPrior, pivot, rotationAxis, targetAngle)
    }

    constructor (s: JointState)
      ensures State() == s
    {
      pGain, iGain, dGain := s.pGain, s.iGain, s.dGain;
      pPrior, iPrior := s.pPrior, s.iPrior;
      pivot, rotationAxis := s.pivot, s.rotationAxis;
      targetAngle := s.targetAngle;
    }
  }

  /** No component occurs twice: a query visits each entity once. */
  predicate Distinct<T(==)>(a: array<T>)
    reads a
  {
    forall i, j :: 0 <= i < j < a.Length ==> a[i] != a[j]
  }

  /** Every joint of the array holds a valid target. */
  predicate TargetsValid(joints: array<RotationalJoint>)
    reads joints, set k | 0 <= k < joints.Length :: joints[k]
  {
    forall k :: 0 <= k < joints.Length ==> ValidTarget(joints[k].targetAngle)
  }

  /** The three joints of the arm, base first. Pivots are in the parent's
      frame: the base turns about Y around the world origin, its lower end;
      each upper link turns about X around (0, 0.75, 0), the top of its
      parent, half a link below its own centre. */
  method SpawnJoints() returns (joints: array<RotationalJoint>)
    ensures fresh(joints) && joints.Length == 3 && Distinct(joints)
    ensures forall k :: 0 <= k < 3 ==> fresh(joints[k])
    ensures TargetsValid(joints)
    ensures joints[0].State() == Spawned(Zero, UnitY)
    ensures joints[1].State() == Spawned(Vec3(0.0, ArmLength / 2.0, 0.0), UnitX)
    ensures joints[2].State() == Spawned(Vec3(0.0, ArmLength / 2.0, 0.0), UnitX)
  {
    var base := new RotationalJoint(Spawned(Zero, UnitY));
    var middle := new RotationalJoint(Spawned(Vec3(0.0, ArmLength / 2.0, 0.0), UnitX));
    var top := new RotationalJoint(Spawned(Vec3(0.0, ArmLength / 2.0, 0.0), UnitX));
    joints := new RotationalJoint[3] [base, middle, top];
  }
}
