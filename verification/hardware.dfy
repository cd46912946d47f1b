/** The shared hardware wrapper (`HardwareConfig`): its robot-relative
    drive, which either hands the command to the path follower or mixes it
    itself with largest-wheel normalisation, and its stop-everything
    routine. Motor powers are modelled as a record of the last value
    written to each motor. */
module Hardware {
  import opened RealMath
  import opened Mecanum

  /** The last power written to each of the six motors. */
  datatype Motors = Motors(drive: WheelPowers, intake: real, launcher: real)

  /** What one call of `drive` did: either handed the command to the path
      follower's tele-op drive, or wrote four wheel powers. */
  datatype DriveOutcome =
    | Delegated(forward: real, right: real, rotate: real)
    | WheelsSet(powers: WheelPowers)

  /** The mixer this routine matches: no stick inversion, no strafe boost,
      no rotation or output scaling. */
  const HardwareMixer: MixerConfig := MixerConfig(false, 1.0, 1.0, 1.0)

  /** `maxPower`: the largest raw wheel magnitude, floored at 1. */
  function MaxPower(raw: WheelPowers): (m: real)
    ensures m >= 1.0
    ensures Within(raw, m)
    ensures m == 1.0 || Reaches(raw, m)
  {
    Max(Max(Max(Max(1.0, Abs(raw.frontLeft)), Abs(raw.frontRight)), Abs(raw.backRight)), Abs(raw.backLeft))
  }

  /** The largest-wheel normaliser always equals `max(1, |f| + |r| + |rot|)`,
      the denominator of the other mixers. */
  lemma MaxPowerIsInputSum(forward: real, right: real, rotate: real)
    ensures MaxPower(RawMix(forward, right, rotate)) == Max(InputSum(forward, right, rotate), 1.0)
  {
    PeakOfMix(forward, right, rotate);
  }

  /** `HardwareConfig.drive`. With the follower in use and present the
      command is delegated and no wheel power is written; otherwise the
      raw mix is divided by `maxPower`. */
  function HardwareDrive(usePedroPathing: bool, hasFollower: bool, forward: real, right: real, rotate: real): (r: DriveOutcome)
    ensures r.Delegated? <==> usePedroPathing && hasFollower
    ensures r.Delegated? ==> r == Delegated(forward, right, rotate)
    ensures r.WheelsSet? ==> Within(r.powers, 1.0)
    ensures r.WheelsSet? && Within(RawMix(forward, right, rotate), 1.0) ==> r.powers == RawMix(forward, right, rotate)
    ensures r.WheelsSet? ==> r.powers == Drive(HardwareMixer, forward, right, rotate)
  {
    if usePedroPathing && hasFollower then
      Delegated(forward, right, rotate)
    else
      var c := HardwareMixer;
      assert !c.negateForward && c.strafeGain == 1.0 && c.rotationGain == 1.0 && c.outputScale == 1.0;
      assert ShapedStrafe(c, right) == right && ShapedRotate(c, rotate) == rotate;
      var raw := RawMix(forward, right, rotate);
      MaxPowerIsInputSum(forward, right, rotate);
      assert ShapedMix(c, forward, right, rotate) == raw;
      assert Denominator(c, forward, right, rotate) == MaxPower(raw);
      WheelsSet(Normalize(raw, MaxPower(raw)))
  }

  /** The motor state after one `drive` call: delegation leaves every motor
      as it was, mixing replaces the four wheel powers, and the intake and
      launcher are never touched. */
  function ApplyDrive(m: Motors, usePedroPathing: bool, hasFollower: bool, forward: real, right: real, rotate: real): (r: Motors)
    ensures r.intake == m.intake && r.launcher == m.launcher
    ensures usePedroPathing && hasFollower ==> r == m
    ensures !(usePedroPathing && hasFollower) ==> Within(r.drive, 1.0)
  {
    match HardwareDrive(usePedroPathing, hasFollower, forward, right, rotate)
    case Delegated(_, _, _) => m
    case WheelsSet(w) => m.(drive := w)
  }

  /** Without the follower, pure rotation spins in place: the left wheels
      get `+rotate` and the right wheels `-rotate`, scaled down together
      when the magnitude exceeds 1. */
  lemma HardwarePureRotation(hasFollower: bool, rotate: real)
    ensures var w := HardwareDrive(false, hasFollower, 0.0, 0.0, rotate).powers;
      w.frontLeft == w.backLeft == rotate / Max(Abs(rotate), 1.0) &&
      w.frontRight == w.backRight == -rotate / Max(Abs(rotate), 1.0)
  {
    MaxPowerIsInputSum(0.0, 0.0, rotate);
    NegatedQuotient(rotate, Max(Abs(rotate), 1.0));
  }

  /** `stopAllMotors`: all six motors at zero. */
  function StopAllMotors(m: Motors): (r: Motors)
    ensures r.drive == Stopped && r.intake == 0.0 && r.launcher == 0.0
  {
    Motors(Stopped, 0.0, 0.0)
  }

  /** Stopping leaves the wheels exactly as a zero drive command would. */
  lemma StopMatchesZeroDrive(m: Motors, hasFollower: bool)
    ensures StopAllMotors(m).drive == ApplyDrive(m, false, hasFollower, 0.0, 0.0, 0.0).drive
  {
  }
}
