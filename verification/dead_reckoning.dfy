/** The timed dead-reckoning moves of the two shooting autonomous programs
    (`Blue_Shoot_Auto`, `Red_Shoot_Auto`). A distance or an angle becomes a
    drive time through a calibration ratio, its sign becomes a full-power
    command on its axis, and the move ends with a zero command. The sleep
    itself is not modelled: a move is the command held, the whole
    milliseconds it is held for, and the two wheel writes around the wait.

    Both programs share the conversions; they differ in the mixer they
    drive with (`Blue_Shoot_Auto.drive` against `MecanumDrive.drive`). */
module DeadReckoning {
  import opened RealMath
  import opened Mecanum

  /** Calibration: milliseconds at full power per centimetre or degree. */
  const ForwardMsPerCm: real := 7.075
  const StrafeMsPerCm: real := 7.075
  const RotateMsPerDegree: real := 10.0

  /** The `(long)` cast of a non-negative product: the whole milliseconds
      not above it. */
  function Whole(x: real): (t: int)
    requires x >= 0.0
    ensures t >= 0
    ensures t as real <= x < t as real + 1.0
  {
    Trunc(x)
  }

  /** The cast keeps the order of its arguments. */
  lemma WholeMonotone(x: real, y: real)
    requires 0.0 <= x <= y
    ensures Whole(x) <= Whole(y)
  {
  }

  /** The time of a move of `amount` units at `rate` milliseconds per
      unit. */
  function MoveTimeMs(amount: real, rate: real): (t: int)
    requires rate >= 0.0
    ensures t >= 0
    ensures t as real <= Abs(amount) * rate < t as real + 1.0
  {
    MulNonneg(Abs(amount), rate);
    Whole(Abs(amount) * rate)
  }

  /** A move and its reverse take the same time. */
  lemma MoveTimeSymmetric(a: real, rate: real)
    requires rate >= 0.0
    ensures MoveTimeMs(-a, rate) == MoveTimeMs(a, rate)
  {
    assert Abs(-a) == Abs(a);
  }

  /** The direction of a single-axis move: full power with the amount's
      sign, a zero amount counting as positive. */
  function Direction(v: real): (d: real)
    ensures d == 1.0 <==> v >= 0.0
    ensures d == -1.0 <==> v < 0.0
  {
    if v >= 0.0 then 1.0 else -1.0
  }

  /** A timed move: the (forward, strafe, rotate) command held for
      `timeMs` milliseconds before the zero command. */
  datatype Move = Move(forward: real, strafe: real, rotate: real, timeMs: int)

  /** `driveDistance`: forward or backward only. */
  function DriveDistance(cm: real): (m: Move)
    ensures m.strafe == 0.0 && m.rotate == 0.0
    ensures m.forward == 1.0 <==> cm >= 0.0
    ensures m.forward == -1.0 <==> cm < 0.0
    ensures m.timeMs >= 0 && m.timeMs as real <= Abs(cm) * ForwardMsPerCm < m.timeMs as real + 1.0
  {
    Move(Direction(cm), 0.0, 0.0, MoveTimeMs(cm, ForwardMsPerCm))
  }

  /** `strafeDistance`: sideways only, positive to the right. */
  function StrafeDistance(cm: real): (m: Move)
    ensures m.forward == 0.0 && m.rotate == 0.0
    ensures m.strafe == 1.0 <==> cm >= 0.0
    ensures m.strafe == -1.0 <==> cm < 0.0
    ensures m.timeMs >= 0 && m.timeMs as real <= Abs(cm) * StrafeMsPerCm < m.timeMs as real + 1.0
  {
    Move(0.0, Direction(cm), 0.0, MoveTimeMs(cm, StrafeMsPerCm))
  }

  /** `rotateAngle`: turning in place, positive counter-clockwise. */
  function RotateAngle(degrees: real): (m: Move)
    ensures m.forward == 0.0 && m.strafe == 0.0
    ensures m.rotate == 1.0 <==> degrees >= 0.0
    ensures m.rotate == -1.0 <==> degrees < 0.0
    ensures m.timeMs >= 0 && m.timeMs as real <= Abs(degrees) * RotateMsPerDegree < m.timeMs as real + 1.0
  {
    Move(0.0, 0.0, Direction(degrees), MoveTimeMs(degrees, RotateMsPerDegree))
  }

  /** Reversing a single-axis move flips its direction and keeps its
      time. */
  lemma ReverseFlipsDirection(cm: real)
    requires cm != 0.0
    ensures DriveDistance(-cm) == DriveDistance(cm).(forward := -DriveDistance(cm).forward)
    ensures StrafeDistance(-cm) == StrafeDistance(cm).(strafe := -StrafeDistance(cm).strafe)
    ensures RotateAngle(-cm) == RotateAngle(cm).(rotate := -RotateAngle(cm).rotate)
  {
    MoveTimeSymmetric(cm, ForwardMsPerCm);
    MoveTimeSymmetric(cm, StrafeMsPerCm);
    MoveTimeSymmetric(cm, RotateMsPerDegree);
  }

  /** The time of a combined move: the cast of the largest of the three
      axis products. It is the longest of the three single-axis times. */
  function CombinedTimeMs(cm: real, strafeCm: real, degrees: real): (t: int)
    ensures t >= DriveDistance(cm).timeMs
    ensures t >= StrafeDistance(strafeCm).timeMs
    ensures t >= RotateAngle(degrees).timeMs
    ensures t == DriveDistance(cm).timeMs || t == StrafeDistance(strafeCm).timeMs || t == RotateAngle(degrees).timeMs
  {
    var f := Abs(cm) * ForwardMsPerCm;
    var s := Abs(strafeCm) * StrafeMsPerCm;
    var r := Abs(degrees) * RotateMsPerDegree;
    MulNonneg(Abs(cm), ForwardMsPerCm);
    MulNonneg(Abs(strafeCm), StrafeMsPerCm);
    MulNonneg(Abs(degrees), RotateMsPerDegree);
    var top := Max(Max(f, s), r);
    WholeMonotone(f, top);
    WholeMonotone(s, top);
    WholeMonotone(r, top);
    Whole(top)
  }

  /** `driveCombined` as written: every axis runs at full power in its
      sign's direction for the longest axis time, and an axis with nothing
      to do counts as positive, so it runs too. */
  function CombinedAsWritten(cm: real, strafeCm: real, degrees: real): (m: Move)
    ensures Abs(m.forward) == 1.0 && Abs(m.strafe) == 1.0 && Abs(m.rotate) == 1.0
    ensures m.forward == 1.0 <==> cm >= 0.0
    ensures m.strafe == 1.0 <==> strafeCm >= 0.0
    ensures m.rotate == 1.0 <==> degrees >= 0.0
    ensures m.timeMs == CombinedTimeMs(cm, strafeCm, degrees)
  {
    Move(Direction(cm), Direction(strafeCm), Direction(degrees), CombinedTimeMs(cm, strafeCm, degrees))
  }

  /** A combined move forward by 50 cm also strafes right and turns
      counter-clockwise, for all of its 353 ms. */
  lemma ZeroAxesMoveAsWritten()
    ensures var m := CombinedAsWritten(50.0, 0.0, 0.0);
      m.forward == 1.0 && m.strafe == 1.0 && m.rotate == 1.0 && m.timeMs == 353
  {
    var m := CombinedAsWritten(50.0, 0.0, 0.0);
    assert DriveDistance(50.0).timeMs == 353;
    assert StrafeDistance(0.0).timeMs == 0;
    assert RotateAngle(0.0).timeMs == 0;
  }

  /** The command of one axis of a combined move: full power with the
      amount's sign, and nothing for an axis with nothing to do. */
  function AxisCommand(v: real): (d: real)
    ensures d == 1.0 <==> v > 0.0
    ensures d == -1.0 <==> v < 0.0
    ensures d == 0.0 <==> v == 0.0
  {
    if v > 0.0 then 1.0 else if v < 0.0 then -1.0 else 0.0
  }

  /** `driveCombined` with an axis that has nothing to do left at rest. */
  function DriveCombined(cm: real, strafeCm: real, degrees: real): (m: Move)
    ensures m.forward == 0.0 <==> cm == 0.0
    ensures m.strafe == 0.0 <==> strafeCm == 0.0
    ensures m.rotate == 0.0 <==> degrees == 0.0
    ensures m.forward * cm >= 0.0 && m.strafe * strafeCm >= 0.0 && m.rotate * degrees >= 0.0
    ensures m.timeMs == CombinedTimeMs(cm, strafeCm, degrees)
  {
    Move(AxisCommand(cm), AxisCommand(strafeCm), AxisCommand(degrees), CombinedTimeMs(cm, strafeCm, degrees))
  }

  /** A combined move along one axis is that axis's single move, and a
      combined move only differs from the written one on its idle axes. */
  lemma CombinedSingleAxis(v: real)
    requires v != 0.0
    ensures DriveCombined(v, 0.0, 0.0) == DriveDistance(v)
    ensures DriveCombined(0.0, v, 0.0) == StrafeDistance(v)
    ensures DriveCombined(0.0, 0.0, v) == RotateAngle(v)
  {
    var d, s, r := DriveDistance(0.0).timeMs, StrafeDistance(0.0).timeMs, RotateAngle(0.0).timeMs;
    assert d == 0 && s == 0 && r == 0;
  }

  lemma CombinedAgreesOnActiveAxes(cm: real, strafeCm: real, degrees: real)
    ensures var a, c := CombinedAsWritten(cm, strafeCm, degrees), DriveCombined(cm, strafeCm, degrees);
      a.timeMs == c.timeMs &&
      (cm != 0.0 ==> a.forward == c.forward) &&
      (strafeCm != 0.0 ==> a.strafe == c.strafe) &&
      (degrees != 0.0 ==> a.rotate == c.rotate)
  {
  }

  /** Two mixers give the same wheels for the same shaped command and the
      same output scale. */
  lemma SameShapeSameWheels(c1: MixerConfig, y1: real, x1: real, r1: real,
                            c2: MixerConfig, y2: real, x2: real, r2: real)
    requires ValidConfig(c1) && ValidConfig(c2) && c1.outputScale == c2.outputScale
    requires ShapedForward(c1, y1) == ShapedForward(c2, y2)
    requires ShapedStrafe(c1, x1) == ShapedStrafe(c2, x2)
    requires ShapedRotate(c1, r1) == ShapedRotate(c2, r2)
    ensures Drive(c1, y1, x1, r1) == Drive(c2, y2, x2, r2)
  {
  }

  /** The zero command that ends every move stops all four wheels on
      either robot. */
  lemma StopCommandStops()
    ensures BlueShootPowers(0.0, 0.0, 0.0) == Stopped
    ensures MecanumDrivePowers(0.0, 0.0, 0.0) == Stopped
  {
    ZeroCommandStops(BlueShootMixer);
    ZeroCommandStops(MecanumDriveMixer);
  }

  /** The two wheel writes of a move on the Blue robot: the command, then,
      after the wait, the wheels of the zero command (`StopCommandStops`). */
  function BlueWrites(m: Move): (w: seq<WheelPowers>)
    ensures |w| == 2 && w[1] == Stopped
    ensures w[0] == BlueShootPowers(m.forward, m.strafe, m.rotate)
    ensures Within(w[0], PowerScale)
  {
    [BlueShootPowers(m.forward, m.strafe, m.rotate), Stopped]
  }

  /** The two wheel writes of a move on the Red robot, through
      `MecanumDrive.drive`. */
  function RedWrites(m: Move): (w: seq<WheelPowers>)
    ensures |w| == 2 && w[1] == Stopped
    ensures w[0] == MecanumDrivePowers(m.forward, m.strafe, m.rotate)
    ensures Within(w[0], 1.0)
  {
    [MecanumDrivePowers(m.forward, m.strafe, m.rotate), Stopped]
  }

  /** The Red robot drives a forward command the opposite way from the
      Blue robot: `MecanumDrive.drive` negates the forward axis and
      `Blue_Shoot_Auto.drive` does not. Strafing is the same on both. */
  lemma RedForwardIsBlueReversed(y: real, x: real)
    ensures MecanumDrivePowers(y, x, 0.0) == BlueShootPowers(-y, x, 0.0)
  {
    SameShapeSameWheels(MecanumDriveMixer, y, x, 0.0, BlueShootMixer, -y, x, 0.0);
  }

  /** Full forward or backward on the two robots' mixers. */
  lemma StraightPowers(d: real)
    requires d == 1.0 || d == -1.0
    ensures BlueShootPowers(d, 0.0, 0.0) == WheelPowers(d, d, d, d)
    ensures MecanumDrivePowers(d, 0.0, 0.0) == WheelPowers(-d, -d, -d, -d)
  {
    assert InputSum(d, 1.1 * 0.0, 0.7 * 0.0) == 1.0;
    assert InputSum(-d, 1.1 * 0.0, 0.0) == 1.0;
  }

  /** A full turn command on the two robots' mixers. */
  lemma SpinPowers(d: real)
    requires d == 1.0 || d == -1.0
    ensures BlueShootPowers(0.0, 0.0, d) == WheelPowers(0.7 * d, -0.7 * d, 0.7 * d, -0.7 * d)
    ensures MecanumDrivePowers(0.0, 0.0, d) == WheelPowers(d, -d, d, -d)
  {
    assert InputSum(0.0, 1.1 * 0.0, 0.7 * d) == 0.7;
    assert InputSum(-0.0, 1.1 * 0.0, d) == 1.0;
  }

  /** A distance move drives all four wheels at full power: forward on
      the Blue robot for a positive distance, backward on the Red one. */
  lemma DriveDistanceWheels(cm: real)
    ensures var d := DriveDistance(cm).forward;
      BlueWrites(DriveDistance(cm))[0] == WheelPowers(d, d, d, d) &&
      RedWrites(DriveDistance(cm))[0] == WheelPowers(-d, -d, -d, -d)
  {
    var m := DriveDistance(cm);
    StraightPowers(m.forward);
  }

  /** A rotation turns the Blue robot at the reduced rotational power and
      the Red robot at full power. */
  lemma RotateAngleWheels(degrees: real)
    ensures var d := RotateAngle(degrees).rotate;
      BlueWrites(RotateAngle(degrees))[0] == WheelPowers(0.7 * d, -0.7 * d, 0.7 * d, -0.7 * d) &&
      RedWrites(RotateAngle(degrees))[0] == WheelPowers(d, -d, d, -d)
  {
    var m := RotateAngle(degrees);
    SpinPowers(m.rotate);
  }
}
