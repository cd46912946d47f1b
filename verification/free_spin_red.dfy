/** One iteration of the red-alliance zone-aware tele-op (`FreeSpinRed`):
    stick drive, zone checks at the follower's position, trigger intake,
    heading assist toward the goal while the sticks are idle inside a zone,
    distance-scaled flywheel power by zone with a full-power override, and
    reverse intake on the bumper.

    `Math.sqrt` and `Math.atan2` are not available on `real`: the two
    distances arrive as values constrained by `IsSqrt`, and the bearing to
    the goal arrives as an input. */
module FreeSpinRed {
  import opened RealMath
  import opened Mecanum
  import opened Zones
  import opened TeleOp

  const ShortShotScale: real := 0.5
  const FullShotScale: real := 1.0
  /** Distance (as the program names it, centimetres) at which the front
      zone reaches full scaled power. */
  const MaxFrontShootDistance: real := 152.4
  /** The red goal. */
  const TargetX: real := 131.5
  const TargetY: real := 134.5
  /** Stick deflection below which a stick counts as idle. */
  const IdleThreshold: real := 0.1
  /** Proportional gain of the heading assist, per radian. */
  const AssistGain: real := 0.5
  /** `Math.PI` as a double. */
  const Pi: real := 3.141592653589793
  const TwoPi: real := 2.0 * Pi

  // ---------------------------------------------------------------------
  // Distance-scaled power

  /** `distance / maxDistance` clamped to [0, 1], or full power when the
      reference distance is zero. */
  function DistanceRatio(distance: real, maxDistance: real): (p: real)
    requires distance >= 0.0 && maxDistance >= 0.0
    ensures 0.0 <= p <= 1.0
    ensures maxDistance == 0.0 ==> p == 1.0
    ensures maxDistance > 0.0 && distance >= maxDistance ==> p == 1.0
    ensures maxDistance > 0.0 && distance < maxDistance ==> p * maxDistance == distance
  {
    if maxDistance == 0.0 then 1.0
    else
      FractionBounds(Min(distance, maxDistance), maxDistance);
      QuotientTimesDivisor(distance, maxDistance);
      AtLeastDivisor(distance, maxDistance);
      Max(0.0, Min(1.0, distance / maxDistance))
  }

  lemma AtLeastDivisor(n: real, m: real)
    requires m > 0.0
    ensures n >= m ==> n / m >= 1.0
  {
    if n >= m {
      QuotientMono(m, n, m);
    }
  }

  lemma QuotientMono(a: real, b: real, m: real)
    requires m > 0.0 && a <= b
    ensures a / m <= b / m
  {
  }

  /** Farther from the goal never means less power. */
  lemma DistanceRatioMonotone(d1: real, d2: real, maxDistance: real)
    requires 0.0 <= d1 <= d2 && maxDistance >= 0.0
    ensures DistanceRatio(d1, maxDistance) <= DistanceRatio(d2, maxDistance)
  {
    if maxDistance > 0.0 {
      QuotientMono(d1, d2, maxDistance);
    }
  }

  /** The squared distance from a position to the goal. */
  function SquaredDistanceToGoal(x: real, y: real): real
  {
    (TargetX - x) * (TargetX - x) + (TargetY - y) * (TargetY - y)
  }

  /** `calculateFrontShootDistanceScaledPower`: the distance to the goal
      over the fixed front reference, clamped to [0, 1]. */
  function FrontScaledPower(distance: real): (p: real)
    requires distance >= 0.0
    ensures 0.0 <= p <= 1.0
    ensures distance >= MaxFrontShootDistance ==> p == 1.0
    ensures distance < MaxFrontShootDistance ==> p * MaxFrontShootDistance == distance
  {
    DistanceRatio(distance, MaxFrontShootDistance)
  }

  /** `calculateDistanceScaledFlywheelPower`: the distance to the goal over
      the distance from the goal to the back zone's vertex (x6, y6),
      clamped to [0, 1]; full power when that reference is zero. */
  function BackScaledPower(z: ShootZones, robotX: real, robotY: real, distance: real, maxDistance: real): (p: real)
    requires IsSqrt(distance, SquaredDistanceToGoal(robotX, robotY))
    requires IsSqrt(maxDistance, SquaredDistanceToGoal(z.x6, z.y6))
    ensures 0.0 <= p <= 1.0
    ensures maxDistance == 0.0 ==> p == 1.0
    ensures maxDistance > 0.0 && distance >= maxDistance ==> p == 1.0
    ensures maxDistance > 0.0 && distance < maxDistance ==> p * maxDistance == distance
  {
    DistanceRatio(distance, maxDistance)
  }

  /** A robot standing on the reference vertex gets exactly full power,
      whether or not the reference distance is zero. */
  lemma BackScaledPowerAtReference(z: ShootZones, distance: real, maxDistance: real)
    requires IsSqrt(distance, SquaredDistanceToGoal(z.x6, z.y6))
    requires IsSqrt(maxDistance, SquaredDistanceToGoal(z.x6, z.y6))
    ensures BackScaledPower(z, z.x6, z.y6, distance, maxDistance) == 1.0
  {
    SqrtUnique(distance, maxDistance, SquaredDistanceToGoal(z.x6, z.y6));
  }

  /** The flywheel power the iteration leaves set: the override wins;
      otherwise the front zone (half the front scaled power) takes
      precedence over the back zone (the back scaled power); outside both
      zones the flywheel is off. */
  function FlywheelCommand(inFront: bool, inBack: bool, frontScaled: real, backScaled: real, dpadDown: bool): (p: real)
    requires 0.0 <= frontScaled <= 1.0 && 0.0 <= backScaled <= 1.0
    ensures 0.0 <= p <= 1.0
    ensures dpadDown ==> p == 1.0
    ensures !dpadDown && inFront ==> p == frontScaled * ShortShotScale
    ensures !dpadDown && !inFront && inBack ==> p == backScaled
    ensures !dpadDown && !inFront && !inBack ==> p == 0.0
    ensures !dpadDown && inFront ==> p <= ShortShotScale
  {
    var zonePower :=
      if inFront || inBack then
        (if inFront then frontScaled * ShortShotScale else backScaled * FullShotScale)
      else 0.0;
    if dpadDown then 1.0 else zonePower
  }

  /** The intake power the iteration leaves set: the bumper's reverse
      overrides the trigger. */
  function IntakeCommand(rightTrigger: real, rightBumper: bool): (p: real)
    ensures rightBumper ==> p == -1.0
    ensures !rightBumper ==> p == IntakeFromTrigger(rightTrigger)
    ensures -1.0 <= p <= 1.0
  {
    if rightBumper then -1.0 else IntakeFromTrigger(rightTrigger)
  }

  // ---------------------------------------------------------------------
  // Heading assist

  /** How many `-= 2 pi` passes the first normalising loop still makes. */
  function PassesAbove(e: real): nat
  {
    if e > Pi then ((e - Pi) / TwoPi).Floor + 1 else 0
  }

  /** `while (e > PI) e -= 2 * PI`. */
  function WrapDown(e: real): (r: real)
    ensures r <= Pi
    ensures e <= Pi ==> r == e
    ensures e > Pi ==> r > -Pi
    ensures IsMultipleOf(e - r, TwoPi)
    decreases PassesAbove(e)
  {
    if e > Pi then
      assert (e - TwoPi - Pi) / TwoPi == (e - Pi) / TwoPi - 1.0;
      var r := WrapDown(e - TwoPi);
      assert e - r == (e - TwoPi - r) + Multiple(1, TwoPi);
      MultipleShift(e - TwoPi - r, TwoPi, 1);
      r
    else
      ZeroIsMultiple(TwoPi);
      e
  }

  /** How many `+= 2 pi` passes the second normalising loop still makes. */
  function PassesBelow(e: real): nat
  {
    if e <= -Pi then ((-Pi - e) / TwoPi).Floor + 1 else 0
  }

  /** `while (e <= -PI) e += 2 * PI`. */
  function WrapUp(e: real): (r: real)
    ensures r > -Pi
    ensures e > -Pi ==> r == e
    ensures e <= -Pi ==> r <= Pi
    ensures IsMultipleOf(e - r, TwoPi)
    decreases PassesBelow(e)
  {
    if e <= -Pi then
      assert (-Pi - (e + TwoPi)) / TwoPi == (-Pi - e) / TwoPi - 1.0;
      var r := WrapUp(e + TwoPi);
      assert e - r == (e + TwoPi - r) + Multiple(-1, TwoPi);
      MultipleShift(e + TwoPi - r, TwoPi, -1);
      r
    else
      ZeroIsMultiple(TwoPi);
      e
  }

  /** The two normalising loops together: the heading error moved by whole
      turns into (-pi, pi]. */
  function NormalizeRadians(e: real): (r: real)
    ensures -Pi < r <= Pi
    ensures IsMultipleOf(e - r, TwoPi)
  {
    var d := WrapDown(e);
    var r := WrapUp(d);
    MultipleAdd(e - d, d - r, TwoPi);
    assert e - r == (e - d) + (d - r);
    r
  }

  /** Two multiples of a full turn less than a turn apart coincide. */
  lemma CloseTurns(d: real, e: real)
    requires IsMultipleOf(d, TwoPi) && IsMultipleOf(e, TwoPi)
    requires -TwoPi < d - e < TwoPi
    ensures d == e
  {
    var j :| Multiple(j, TwoPi) == d;
    var k :| Multiple(k, TwoPi) == e;
    assert TwoPi == 6.283185307179586;
    assert d - e == (j - k) as real * 6.283185307179586;
  }

  /** The normalised error is the only value of (-pi, pi] a whole number
      of turns away from the raw error; in particular errors already in
      range are left alone. */
  lemma NormalizeRadiansCanonical(e: real, r: real)
    requires -Pi < r <= Pi
    requires IsMultipleOf(e - r, TwoPi)
    ensures NormalizeRadians(e) == r
  {
    CloseTurns(e - r, e - NormalizeRadians(e));
  }

  /** The assist runs only inside a zone with all three stick axes idle. */
  predicate AssistActive(inFront: bool, inBack: bool, leftY: real, leftX: real, rightX: real)
  {
    (inFront || inBack) && Abs(leftY) < IdleThreshold && Abs(leftX) < IdleThreshold && Abs(rightX) < IdleThreshold
  }

  /** The assist's rotation command from the bearing to the goal and the
      current heading (radians): half the normalised error, clamped. It
      turns the shorter way and is proportional for errors up to 2 rad. */
  function AssistRotation(desiredHeading: real, currentHeading: real): (rot: real)
    ensures -1.0 <= rot <= 1.0
    ensures var e := NormalizeRadians(desiredHeading - currentHeading);
      (rot > 0.0 <==> e > 0.0) && (rot < 0.0 <==> e < 0.0) &&
      (Abs(e) <= 2.0 ==> rot == e / 2.0) && (Abs(e) >= 2.0 ==> Abs(rot) == 1.0)
  {
    Max(-1.0, Min(1.0, NormalizeRadians(desiredHeading - currentHeading) * AssistGain))
  }

  // ---------------------------------------------------------------------
  // One iteration

  /** The driver's controls read in one iteration. */
  datatype Gamepad = Gamepad(
    leftY: real, leftX: real, rightX: real, rightTrigger: real,
    rightBumper: bool, dpadDown: bool, a: bool, b: bool)

  /** What the follower and the two square roots report in one iteration:
      the updated pose, the bearing to the goal, the robot's distance to
      the goal and the back reference distance. */
  datatype Sensors = Sensors(
    x: real, y: real, heading: real, bearingToGoal: real,
    goalDistance: real, referenceDistance: real)

  predicate SensorsConsistent(z: ShootZones, s: Sensors)
  {
    IsSqrt(s.goalDistance, SquaredDistanceToGoal(s.x, s.y)) &&
    IsSqrt(s.referenceDistance, SquaredDistanceToGoal(z.x6, z.y6))
  }

  /** The outputs of one iteration: the zone detector afterwards, the last
      wheel powers written, the flywheel and intake powers left set, the
      gate write if any, and whether the heading assist drove. */
  datatype Output = Output(
    zones: ShootZones, drive: WheelPowers, flywheel: real, intake: real,
    gate: Option<real>, assisted: bool)

  /** One pass of the tele-op loop. */
  function Iteration(z: ShootZones, g: Gamepad, s: Sensors): (o: Output)
    requires SensorsConsistent(z, s)
    ensures o.zones == CheckZones(z, Point(s.x, s.y))
    ensures o.assisted <==> AssistActive(o.zones.inFront, o.zones.inBack, g.leftY, g.leftX, g.rightX)
    ensures o.assisted ==> o.drive == MecanumDrivePowers(g.leftY, g.leftX, AssistRotation(s.bearingToGoal, s.heading))
    ensures !o.assisted ==> o.drive == MecanumDrivePowers(g.leftY, g.leftX, g.rightX)
    ensures Within(o.drive, 1.0)
    ensures 0.0 <= o.flywheel <= 1.0
    ensures g.dpadDown ==> o.flywheel == 1.0
    ensures !g.dpadDown && !o.zones.inFront && !o.zones.inBack ==> o.flywheel == 0.0
    ensures !g.dpadDown && o.zones.inFront ==> o.flywheel == FrontScaledPower(s.goalDistance) * ShortShotScale
    ensures !g.dpadDown && !o.zones.inFront && o.zones.inBack ==>
      o.flywheel == BackScaledPower(z, s.x, s.y, s.goalDistance, s.referenceDistance)
    ensures o.intake == IntakeCommand(g.rightTrigger, g.rightBumper)
    ensures o.gate == GateWrite(g.a, g.b)
  {
    var zones := CheckZones(z, Point(s.x, s.y));
    var assisted := AssistActive(zones.inFront, zones.inBack, g.leftY, g.leftX, g.rightX);
    var rx := if assisted then AssistRotation(s.bearingToGoal, s.heading) else g.rightX;
    Output(
      zones,
      MecanumDrivePowers(g.leftY, g.leftX, rx),
      FlywheelCommand(zones.inFront, zones.inBack, FrontScaledPower(s.goalDistance),
                      BackScaledPower(z, s.x, s.y, s.goalDistance, s.referenceDistance), g.dpadDown),
      IntakeCommand(g.rightTrigger, g.rightBumper),
      GateWrite(g.a, g.b),
      assisted)
  }

  /** Moving the sticks always hands rotation back to the driver. */
  lemma SticksOverrideAssist(z: ShootZones, g: Gamepad, s: Sensors)
    requires SensorsConsistent(z, s)
    requires Abs(g.leftY) >= IdleThreshold || Abs(g.leftX) >= IdleThreshold || Abs(g.rightX) >= IdleThreshold
    ensures !Iteration(z, g, s).assisted
    ensures Iteration(z, g, s).drive == MecanumDrivePowers(g.leftY, g.leftX, g.rightX)
  {
  }
}
