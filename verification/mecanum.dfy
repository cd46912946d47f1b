/** Mecanum wheel mixing. Every drive routine of the robot turns a
    (forward, strafe, rotate) command into four wheel powers with the same
    sign pattern; the variants differ only in how the stick values are
    shaped first, how the result is brought back into [-1, 1], and whether
    the outputs are scaled afterwards. */
module Mecanum {
  import opened RealMath

  datatype WheelPowers = WheelPowers(frontLeft: real, frontRight: real, backLeft: real, backRight: real)

  const Stopped: WheelPowers := WheelPowers(0.0, 0.0, 0.0, 0.0)

  /** The shared sign pattern: front-left and back-right take forward plus
      strafe, front-right and back-left forward minus strafe; the left
      wheels add the rotation and the right wheels subtract it. */
  function RawMix(forward: real, strafe: real, rotate: real): WheelPowers
  {
    WheelPowers(forward + strafe + rotate, forward - strafe - rotate,
                forward - strafe + rotate, forward + strafe - rotate)
  }

  /** No wheel's magnitude exceeds `b`. */
  predicate Within(w: WheelPowers, b: real)
  {
    Abs(w.frontLeft) <= b && Abs(w.frontRight) <= b && Abs(w.backLeft) <= b && Abs(w.backRight) <= b
  }

  /** Some wheel's magnitude is exactly `b`. */
  predicate Reaches(w: WheelPowers, b: real)
  {
    Abs(w.frontLeft) == b || Abs(w.frontRight) == b || Abs(w.backLeft) == b || Abs(w.backRight) == b
  }

  /** The largest wheel magnitude is `b`. */
  predicate PeakIs(w: WheelPowers, b: real)
  {
    Within(w, b) && Reaches(w, b)
  }

  function InputSum(forward: real, strafe: real, rotate: real): real
  {
    Abs(forward) + Abs(strafe) + Abs(rotate)
  }

  /** The largest raw wheel magnitude is exactly |forward| + |strafe| +
      |rotate|: the four sign patterns cover every relative sign of strafe
      and rotation, so one wheel always adds the three magnitudes up. */
  lemma PeakOfMix(forward: real, strafe: real, rotate: real)
    ensures PeakIs(RawMix(forward, strafe, rotate), InputSum(forward, strafe, rotate))
  {
  }

  /** `n / d` for a divisor that dominates `n`. */
  function Quotient(n: real, d: real): (q: real)
    requires d >= 1.0 && Abs(n) <= d
    ensures q == n / d
    ensures Abs(q) <= 1.0
    ensures Abs(n) == d ==> Abs(q) == 1.0
    ensures d == 1.0 ==> q == n
  {
    QuotientBound(n, d);
    n / d
  }

  lemma QuotientBound(n: real, d: real)
    requires d >= 1.0 && Abs(n) <= d
    ensures Abs(n / d) <= 1.0
    ensures Abs(n) == d ==> Abs(n / d) == 1.0
  {
    if n >= 0.0 {
      FractionBounds(n, d);
    } else {
      FractionBounds(-n, d);
      NegateQuotient(n, d);
    }
  }

  lemma NegatedQuotient(n: real, d: real)
    requires d != 0.0
    ensures -n / d == -(n / d)
  {
  }

  /** Divides every wheel by the common divisor `d`. */
  function Normalize(raw: WheelPowers, d: real): (w: WheelPowers)
    requires d >= 1.0 && Within(raw, d)
    ensures Within(w, 1.0)
    ensures Reaches(raw, d) ==> Reaches(w, 1.0)
    ensures d == 1.0 ==> w == raw
    ensures w.frontLeft == raw.frontLeft / d && w.frontRight == raw.frontRight / d
    ensures w.backLeft == raw.backLeft / d && w.backRight == raw.backRight / d
  {
    WheelPowers(Quotient(raw.frontLeft, d), Quotient(raw.frontRight, d),
                Quotient(raw.backLeft, d), Quotient(raw.backRight, d))
  }

  /** `k * q` for an output scale `k` and a normalised power `q`. */
  function ScaledPower(k: real, q: real): (p: real)
    requires k >= 0.0 && Abs(q) <= 1.0
    ensures Abs(p) <= k
    ensures Abs(q) == 1.0 ==> Abs(p) == k
    ensures k == 1.0 ==> p == q
    ensures q == 0.0 ==> p == 0.0
  {
    assert Abs(k * q) == k * Abs(q) by {
      assert q < 0.0 ==> k * q == -(k * -q);
    }
    assert k - k * Abs(q) == k * (1.0 - Abs(q));
    MulNonneg(k, 1.0 - Abs(q));
    k * q
  }

  /** Multiplies every normalised wheel power by the output scale `k`:
      every wheel stays within `k`, and a saturated command (a wheel at 1)
      reaches `k` exactly. */
  function ScaleWheels(w: WheelPowers, k: real): (r: WheelPowers)
    requires k >= 0.0 && Within(w, 1.0)
    ensures Within(r, k)
    ensures Reaches(w, 1.0) ==> Reaches(r, k)
    ensures k == 1.0 ==> r == w
    ensures w == Stopped ==> r == Stopped
  {
    WheelPowers(ScaledPower(k, w.frontLeft), ScaledPower(k, w.frontRight),
                ScaledPower(k, w.backLeft), ScaledPower(k, w.backRight))
  }

  /** How one drive routine shapes the stick values before mixing and
      scales the wheel powers after. */
  datatype MixerConfig = MixerConfig(negateForward: bool, strafeGain: real, rotationGain: real, outputScale: real)

  predicate ValidConfig(c: MixerConfig)
  {
    c.outputScale >= 0.0
  }

  function ShapedForward(c: MixerConfig, y: real): real
  {
    if c.negateForward then -y else y
  }

  function ShapedStrafe(c: MixerConfig, x: real): real
  {
    x * c.strafeGain
  }

  function ShapedRotate(c: MixerConfig, rx: real): real
  {
    rx * c.rotationGain
  }

  function ShapedSum(c: MixerConfig, y: real, x: real, rx: real): real
  {
    InputSum(ShapedForward(c, y), ShapedStrafe(c, x), ShapedRotate(c, rx))
  }

  function ShapedMix(c: MixerConfig, y: real, x: real, rx: real): WheelPowers
  {
    RawMix(ShapedForward(c, y), ShapedStrafe(c, x), ShapedRotate(c, rx))
  }

  /** The common divisor `max(|f| + |s| + |r|, 1)`. */
  function Denominator(c: MixerConfig, y: real, x: real, rx: real): real
  {
    Max(ShapedSum(c, y, x, rx), 1.0)
  }

  /** The parameterised mixer: shape the sticks, mix, divide all four
      wheels by the common denominator, then scale the outputs.
      No wheel exceeds the output scale; small commands pass through
      unchanged, and large ones saturate with the largest wheel at full
      scale (every wheel divided by the same factor, so the direction of
      travel is kept). */
  function Drive(c: MixerConfig, y: real, x: real, rx: real): (w: WheelPowers)
    requires ValidConfig(c)
    ensures Within(w, c.outputScale)
    ensures ShapedSum(c, y, x, rx) <= 1.0 && c.outputScale == 1.0 ==> w == ShapedMix(c, y, x, rx)
    ensures ShapedSum(c, y, x, rx) >= 1.0 ==> PeakIs(w, c.outputScale)
  {
    PeakOfMix(ShapedForward(c, y), ShapedStrafe(c, x), ShapedRotate(c, rx));
    ScaleWheels(Normalize(ShapedMix(c, y, x, rx), Denominator(c, y, x, rx)), c.outputScale)
  }

  /** The drivetrain scale factors shared by the Pedro-based OpModes. */
  const PowerScale: real := 1.0
  const RotationalPowerScale: real := PowerScale * 0.70

  /** `MecanumDrive.drive`, and the identical `driveRobot` of the two
      odometry autonomous routines: the stick's forward axis is inverted
      and strafing is boosted by 1.1 to make up for roller slip. */
  const MecanumDriveMixer: MixerConfig := MixerConfig(true, 1.1, 1.0, 1.0)

  /** `Blue_Shoot_Auto.drive`: no inversion, rotation scaled by
      `RotationalPowerScale / PowerScale`, outputs scaled by `PowerScale`. */
  const BlueShootMixer: MixerConfig := MixerConfig(false, 1.1, RotationalPowerScale / PowerScale, PowerScale)

  function MecanumDrivePowers(y: real, x: real, rx: real): (w: WheelPowers)
    ensures Within(w, 1.0)
    ensures InputSum(-y, 1.1 * x, rx) <= 1.0 ==> w == RawMix(-y, 1.1 * x, rx)
    ensures InputSum(-y, 1.1 * x, rx) >= 1.0 ==> PeakIs(w, 1.0)
  {
    assert MecanumDriveMixer.strafeGain == 1.1 && MecanumDriveMixer.rotationGain == 1.0;
    assert ShapedStrafe(MecanumDriveMixer, x) == 1.1 * x;
    assert ShapedRotate(MecanumDriveMixer, rx) == rx;
    Drive(MecanumDriveMixer, y, x, rx)
  }

  function BlueShootPowers(y: real, x: real, rx: real): (w: WheelPowers)
    ensures Within(w, PowerScale)
    ensures InputSum(y, 1.1 * x, 0.7 * rx) <= 1.0 ==> w == RawMix(y, 1.1 * x, 0.7 * rx)
    ensures InputSum(y, 1.1 * x, 0.7 * rx) >= 1.0 ==> PeakIs(w, PowerScale)
  {
    assert BlueShootMixer.strafeGain == 1.1 && BlueShootMixer.rotationGain == 0.7;
    assert ShapedStrafe(BlueShootMixer, x) == 1.1 * x;
    assert ShapedRotate(BlueShootMixer, rx) == 0.7 * rx;
    Drive(BlueShootMixer, y, x, rx)
  }

  /** Pure rotation spins the robot in place: both left wheels get
      `rx / d`, both right wheels `-rx / d`. */
  lemma PureRotation(rx: real)
    ensures var w := MecanumDrivePowers(0.0, 0.0, rx);
      w.frontLeft == w.backLeft == rx / Max(Abs(rx), 1.0) &&
      w.frontRight == w.backRight == -rx / Max(Abs(rx), 1.0)
  {
    var c := MecanumDriveMixer;
    var d := Max(Abs(rx), 1.0);
    assert c.negateForward && c.strafeGain == 1.1 && c.rotationGain == 1.0;
    assert ShapedForward(c, 0.0) == 0.0 && ShapedStrafe(c, 0.0) == 0.0 && ShapedRotate(c, rx) == rx;
    UniformScaling(c, 0.0, 0.0, rx);
    var raw := ShapedMix(c, 0.0, 0.0, rx);
    assert raw.frontLeft == rx && raw.backLeft == rx;
    assert raw.frontRight == -rx && raw.backRight == -rx;
    assert Denominator(c, 0.0, 0.0, rx) == d;
    assert MecanumDrivePowers(0.0, 0.0, rx) == Drive(c, 0.0, 0.0, rx);
  }

  /** Pure stick-y drives all four wheels equally, in the inverted
      direction. */
  lemma PureForward(y: real)
    ensures var w := MecanumDrivePowers(y, 0.0, 0.0);
      w.frontLeft == w.frontRight == w.backLeft == w.backRight == -y / Max(Abs(y), 1.0)
  {
    var c := MecanumDriveMixer;
    assert c.negateForward && c.strafeGain == 1.1 && c.rotationGain == 1.0;
    UniformScaling(c, y, 0.0, 0.0);
    assert ShapedMix(c, y, 0.0, 0.0) == RawMix(-y, 0.0, 0.0);
    assert Denominator(c, y, 0.0, 0.0) == Max(Abs(y), 1.0);
  }

  /** Pure strafe: the boost is applied before the denominator, front-left
      and back-right get `1.1 x / d`, the other diagonal its negation. */
  lemma PureStrafe(x: real)
    ensures var w := MecanumDrivePowers(0.0, x, 0.0);
      var d := Max(Abs(1.1 * x), 1.0);
      w.frontLeft == w.backRight == (1.1 * x) / d &&
      w.frontRight == w.backLeft == -(1.1 * x) / d
  {
    var c := MecanumDriveMixer;
    assert c.negateForward && c.strafeGain == 1.1 && c.rotationGain == 1.0;
    UniformScaling(c, 0.0, x, 0.0);
    assert ShapedMix(c, 0.0, x, 0.0) == RawMix(0.0, 1.1 * x, 0.0);
    assert Denominator(c, 0.0, x, 0.0) == Max(Abs(1.1 * x), 1.0);
    NegatedQuotient(1.1 * x, Max(Abs(1.1 * x), 1.0));
  }

  /** A zero command stops all four wheels, in every variant. */
  lemma ZeroCommandStops(c: MixerConfig)
    requires ValidConfig(c)
    ensures Drive(c, 0.0, 0.0, 0.0) == Stopped
  {
  }

  /** All four wheels are divided by one common factor, the denominator,
      so the ratios between the wheels, and with them the direction of
      travel, are the ones the sticks asked for. */
  lemma UniformScaling(c: MixerConfig, y: real, x: real, rx: real)
    requires ValidConfig(c) && c.outputScale == 1.0
    ensures Drive(c, y, x, rx).frontLeft == ShapedMix(c, y, x, rx).frontLeft / Denominator(c, y, x, rx)
    ensures Drive(c, y, x, rx).frontRight == ShapedMix(c, y, x, rx).frontRight / Denominator(c, y, x, rx)
    ensures Drive(c, y, x, rx).backLeft == ShapedMix(c, y, x, rx).backLeft / Denominator(c, y, x, rx)
    ensures Drive(c, y, x, rx).backRight == ShapedMix(c, y, x, rx).backRight / Denominator(c, y, x, rx)
  {
    PeakOfMix(ShapedForward(c, y), ShapedStrafe(c, x), ShapedRotate(c, rx));
  }
}
