/** `process_input`: once per tick the pressed keys move every joint's
    target angle up by one degree, down by one degree, or back to zero. */
module Input {
  import opened Joints

  /** The keys the arm reacts to; every other key is `OtherKey`. */
  datatype KeyCode = ArrowUp | ArrowDown | KeyR | OtherKey

  /** The three things one tick of input can do to the targets. */
  datatype Command = Increment | Decrement | Reset

  const MinAngle: real := 0.0
  const MaxAngle: real := 360.0

  function Min(a: real, b: real): real { if a <= b then a else b }
  function Max(a: real, b: real): real { if a >= b then a else b }

  /** `f32::clamp` for a non-empty interval. */
  function Clamp(v: real, lo: real, hi: real): (r: real)
    requires lo <= hi
    ensures lo <= r <= hi
    ensures lo <= v <= hi ==> r == v
    ensures v < lo ==> r == lo
    ensures v > hi ==> r == hi
  {
    if v < lo then lo else if v > hi then hi else v
  }

  /** `(target + 1.0).clamp(0.0, 360.0)` */
  function Raised(t: real): (r: real)
    ensures MinAngle <= r <= MaxAngle
    ensures MinAngle <= t <= MaxAngle ==> r == Min(t + 1.0, MaxAngle)
    ensures t >= MaxAngle ==> r == MaxAngle
    ensures ValidTarget(t) ==> ValidTarget(r)
  {
    WholeShift(t, 1);
    Clamp(t + 1.0, MinAngle, MaxAngle)
  }

  /** `(target - 1.0).clamp(0.0, 360.0)` */
  function Lowered(t: real): (r: real)
    ensures MinAngle <= r <= MaxAngle
    ensures MinAngle <= t <= MaxAngle ==> r == Max(t - 1.0, MinAngle)
    ensures t <= MinAngle ==> r == MinAngle
    ensures ValidTarget(t) ==> ValidTarget(r)
  {
    WholeShift(t, -1);
    Clamp(t - 1.0, MinAngle, MaxAngle)
  }

  /** The new target a command gives a joint whose target was `t`. */
  function Apply(c: Command, t: real): (r: real)
    ensures ValidTarget(t) ==> ValidTarget(r)
    ensures MinAngle <= r <= MaxAngle
  {
    match c
    case Increment => Raised(t)
    case Decrement => Lowered(t)
    case Reset => 0.0
  }

  /** What one tick with the keys `pressed` held does to a target `t`:
      ArrowUp wins over ArrowDown, which wins over R; with none of them
      held the target stays. */
  function StepTarget(pressed: set<KeyCode>, t: real): (r: real)
    ensures ArrowUp in pressed ==> r == Raised(t)
    ensures ArrowUp !in pressed && ArrowDown in pressed ==> r == Lowered(t)
    ensures ArrowUp !in pressed && ArrowDown !in pressed && KeyR in pressed ==> r == 0.0
    ensures ArrowUp !in pressed && ArrowDown !in pressed && KeyR !in pressed ==> r == t
    ensures ValidTarget(t) ==> ValidTarget(r)
  {
    if ArrowUp in pressed then Apply(Increment, t)
    else if ArrowDown in pressed then Apply(Decrement, t)
    else if KeyR in pressed then Apply(Reset, t)
    else t
  }

  /** One loop of `process_input`: the command is applied to every joint,
      and nothing but the target angles changes. */
  method ApplyToAll(joints: array<RotationalJoint>, c: Command)
    requires Distinct(joints)
    modifies (set k | 0 <= k < joints.Length :: joints[k])`targetAngle
    ensures forall k :: 0 <= k < joints.Length ==>
      joints[k].State() == old(joints[k].State()).(targetAngle := Apply(c, old(joints[k].targetAngle)))
  {
    for k := 0 to joints.Length
      invariant forall m :: 0 <= m < k ==>
        joints[m].State() == old(joints[m].State()).(targetAngle := Apply(c, old(joints[m].targetAngle)))
      invariant forall m :: k <= m < joints.Length ==> unchanged(joints[m])
    {
      var arm := joints[k];
      arm.targetAngle := Apply(c, arm.targetAngle);
    }
  }

  /** `process_input`: the highest-priority key held decides the command,
      every joint gets the same update, and only target angles change. */
  method ProcessInput(pressed: set<KeyCode>, joints: array<RotationalJoint>)
    requires Distinct(joints)
    modifies (set k | 0 <= k < joints.Length :: joints[k])`targetAngle
    ensures forall k :: 0 <= k < joints.Length ==>
      joints[k].State() == old(joints[k].State()).(targetAngle := StepTarget(pressed, old(joints[k].targetAngle)))
    ensures forall i, j :: 0 <= i < joints.Length && 0 <= j < joints.Length && old(joints[i].targetAngle) == old(joints[j].targetAngle) ==>
      joints[i].targetAngle == joints[j].targetAngle
    ensures old(TargetsValid(joints)) ==> TargetsValid(joints)
  {
    if ArrowUp in pressed {
      ApplyToAll(joints, Increment);
    } else if ArrowDown in pressed {
      ApplyToAll(joints, Decrement);
    } else if KeyR in pressed {
      ApplyToAll(joints, Reset);
    }
  }

  /** A joint's target after a run of ticks, the keys of each tick in order. */
  function RunTicks(ticks: seq<set<KeyCode>>, t: real): real
    decreases |ticks|
  {
    if ticks == [] then t else RunTicks(ticks[1..], StepTarget(ticks[0], t))
  }

  /** The same keys held for `n` ticks. */
  function Held(keys: set<KeyCode>, n: nat): seq<set<KeyCode>> {
    seq(n, _ => keys)
  }

  /** Clamp invariant: whatever keys are pressed, tick after tick, a valid
      target (such as the spawn target 0) stays a whole number in [0, 360]. */
  lemma {:induction false} TicksKeepTargetValid(ticks: seq<set<KeyCode>>, t: real)
    requires ValidTarget(t)
    ensures ValidTarget(RunTicks(ticks, t))
    decreases |ticks|
  {
    if ticks != [] {
      TicksKeepTargetValid(ticks[1..], StepTarget(ticks[0], t));
    }
  }

  /** Ticks compose: running `a` then `b` is running `a + b`. */
  lemma {:induction false} RunTicksAppend(a: seq<set<KeyCode>>, b: seq<set<KeyCode>>, t: real)
    ensures RunTicks(a + b, t) == RunTicks(b, RunTicks(a, t))
    decreases |a|
  {
    if a == [] {
      assert a + b == b;
    } else {
      assert (a + b)[0] == a[0];
      assert (a + b)[1..] == a[1..] + b;
      RunTicksAppend(a[1..], b, StepTarget(a[0], t));
    }
  }

  /** Reset law: a last tick with R held (and neither arrow) leaves the
      target at 0, whatever came before. */
  lemma ResetEndsAtZero(ticks: seq<set<KeyCode>>, last: set<KeyCode>, t: real)
    requires KeyR in last && ArrowUp !in last && ArrowDown !in last
    ensures RunTicks(ticks + [last], t) == 0.0
  {
    RunTicksAppend(ticks, [last], t);
  }

  /** Holding ArrowUp for `n` ticks (whatever else is held) raises a target
      by `n` degrees, saturating at 360. */
  lemma {:induction false} HoldingUp(keys: set<KeyCode>, n: nat, t: real)
    requires ArrowUp in keys
    requires MinAngle <= t <= MaxAngle
    ensures RunTicks(Held(keys, n), t) == Min(t + n as real, MaxAngle)
  {
    if n > 0 {
      assert Held(keys, n)[1..] == Held(keys, n - 1);
      HoldingUp(keys, n - 1, Raised(t));
    }
  }

  /** Holding ArrowDown without ArrowUp for `n` ticks lowers a target by
      `n` degrees, saturating at 0. */
  lemma {:induction false} HoldingDown(keys: set<KeyCode>, n: nat, t: real)
    requires ArrowUp !in keys && ArrowDown in keys
    requires MinAngle <= t <= MaxAngle
    ensures RunTicks(Held(keys, n), t) == Max(t - n as real, MinAngle)
  {
    if n > 0 {
      assert Held(keys, n)[1..] == Held(keys, n - 1);
      HoldingDown(keys, n - 1, Lowered(t));
    }
  }
}
