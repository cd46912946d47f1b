/** The odometry-driven go-to-point routine of the two OTOS autonomous
    programs (`moveToPosition` in `Blue_Otos_Auto` and `Otos_Auto`).

    Each loop iteration reads the sensor pose, stops once both axis errors
    are inside the tolerance, and otherwise drives along the unit vector
    toward the target, optionally correcting heading. The loop polls
    `opModeIsActive()`, so it is modelled as consuming a finite sequence of
    sensor readings taken while the op-mode was active; nothing is claimed
    about its termination. `Math.sqrt` is not available on `real`, so every
    reading carries the distance the program computes, constrained by
    `IsSqrt`. */
module Navigation {
  import opened RealMath
  import opened Mecanum

  /** Arrival tolerance per axis, in inches. */
  const OtosTolerance: real := 2.0
  /** Proportional gain of the optional heading correction, per degree. */
  const HeadingKp: real := 0.02
  const IntakeSpeed: real := 1.0

  /** A sensor pose: inches and degrees. */
  datatype Pose = Pose(x: real, y: real, heading: real)

  /** One loop iteration's input: the pose and the value `Math.sqrt` returns
      for the squared distance to the target. */
  datatype Reading = Reading(pose: Pose, distance: real)

  function ErrorX(targetX: real, r: Reading): real
  {
    targetX - r.pose.x
  }

  function ErrorY(targetY: real, r: Reading): real
  {
    targetY - r.pose.y
  }

  /** The reading's distance is the square root of the squared error. */
  predicate Consistent(targetX: real, targetY: real, r: Reading)
  {
    IsSqrt(r.distance, ErrorX(targetX, r) * ErrorX(targetX, r) + ErrorY(targetY, r) * ErrorY(targetY, r))
  }

  predicate AllConsistent(targetX: real, targetY: real, readings: seq<Reading>)
  {
    forall i :: 0 <= i < |readings| ==> Consistent(targetX, targetY, readings[i])
  }

  /** The arrival test: both axis errors strictly inside the tolerance. */
  predicate WithinTolerance(errorX: real, errorY: real)
  {
    Abs(errorX) < OtosTolerance && Abs(errorY) < OtosTolerance
  }

  // ---------------------------------------------------------------------
  // Angles

  /** `normalizeAngle`: the truncated remainder modulo 360, shifted once in
      either direction into the half-open range (-180, 180]. */
  function NormalizeAngle(angle: real): (r: real)
    ensures -180.0 < r <= 180.0
    ensures IsMultipleOf(angle - r, 360.0)
  {
    var a := JavaRem(angle, 360.0);
    var b := if a > 180.0 then a - 360.0 else a;
    assert b != a ==> b - a == Multiple(-1, 360.0);
    assert angle - b == (angle - a) + (a - b);
    MultipleShift(angle - a, 360.0, if b != a then 1 else 0);
    var c := if b <= -180.0 then b + 360.0 else b;
    assert angle - c == (angle - b) + (b - c);
    MultipleShift(angle - b, 360.0, if c != b then -1 else 0);
    c
  }

  /** Two multiples of 360 less than 360 apart coincide. */
  lemma CloseMultiples(d: real, e: real)
    requires IsMultipleOf(d, 360.0) && IsMultipleOf(e, 360.0)
    requires -360.0 < d - e < 360.0
    ensures d == e
  {
    var j :| Multiple(j, 360.0) == d;
    var k :| Multiple(k, 360.0) == e;
    assert d - e == (j - k) as real * 360.0;
  }

  /** The normalised angle is the only value of (-180, 180] that differs
      from the input by a whole number of turns. */
  lemma NormalizeAngleCanonical(angle: real, r: real)
    requires -180.0 < r <= 180.0
    requires IsMultipleOf(angle - r, 360.0)
    ensures NormalizeAngle(angle) == r
  {
    var n := NormalizeAngle(angle);
    CloseMultiples(angle - r, angle - n);
  }

  /** Normalising twice changes nothing, and angles already in range are
      returned unchanged. */
  lemma NormalizeAngleIdempotent(angle: real)
    ensures NormalizeAngle(NormalizeAngle(angle)) == NormalizeAngle(angle)
    ensures -180.0 < angle <= 180.0 ==> NormalizeAngle(angle) == angle
  {
    ZeroIsMultiple(360.0);
    NormalizeAngleCanonical(NormalizeAngle(angle), NormalizeAngle(angle));
    if -180.0 < angle <= 180.0 {
      NormalizeAngleCanonical(angle, angle);
    }
  }

  /** The heading error the correction acts on. */
  function HeadingError(targetHeading: real, currentHeading: real): (e: real)
    ensures -180.0 < e <= 180.0
  {
    NormalizeAngle(targetHeading - currentHeading)
  }

  /** The rotation command of one iteration: none without a target heading
      (the NaN sentinel is `None`), otherwise the clamped P-term. It turns
      toward the target along the shorter way, is proportional for errors
      up to 50 degrees and saturates beyond. */
  function HeadingCorrection(targetHeading: Option<real>, currentHeading: real): (rotate: real)
    ensures -1.0 <= rotate <= 1.0
    ensures targetHeading.None? ==> rotate == 0.0
    ensures targetHeading.Some? ==>
      var e := HeadingError(targetHeading.value, currentHeading);
      (rotate > 0.0 <==> e > 0.0) && (rotate < 0.0 <==> e < 0.0) &&
      (Abs(e) <= 50.0 ==> rotate == e / 50.0) &&
      (Abs(e) >= 50.0 ==> Abs(rotate) == 1.0)
  {
    match targetHeading
    case None => 0.0
    case Some(h) => Clamp(HeadingError(h, currentHeading) * HeadingKp, -1.0, 1.0)
  }

  // ---------------------------------------------------------------------
  // Direction

  lemma SquareNonneg(a: real)
    ensures a * a >= 0.0
  {
    if a < 0.0 {
      MulPos(-a, -a);
    } else {
      MulNonneg(a, a);
    }
  }

  lemma AbsIsSqrt(a: real)
    ensures IsSqrt(Abs(a), a * a)
  {
    if a < 0.0 {
      assert (-a) * (-a) == a * a;
    }
  }

  /** Each component of a vector is at most its length. */
  lemma ComponentBound(a: real, b: real, d: real)
    requires IsSqrt(d, a * a + b * b)
    ensures Abs(a) <= d && Abs(b) <= d
  {
    SquareNonneg(a);
    SquareNonneg(b);
    AbsIsSqrt(a);
    AbsIsSqrt(b);
    SqrtMonotone(Abs(a), a * a, d, a * a + b * b);
    SqrtMonotone(Abs(b), b * b, d, a * a + b * b);
  }

  lemma UnitFromScaled(ux: real, uy: real, d: real)
    requires d > 0.0 && IsSqrt(d, (ux * d) * (ux * d) + (uy * d) * (uy * d))
    ensures ux * ux + uy * uy == 1.0
  {
  }

  lemma ComponentQuotient(a: real, d: real)
    requires d > 0.0 && Abs(a) <= d
    ensures Abs(a / d) <= 1.0
    ensures (a / d) * d == a
  {
    QuotientTimesDivisor(a, d);
    if a >= 0.0 {
      FractionBounds(a, d);
    } else {
      FractionBounds(-a, d);
      NegateQuotient(a, d);
    }
  }

  /** A target outside the tolerance box is at least the tolerance away,
      and each error is at most the distance. */
  lemma DistanceAtLeastTolerance(errorX: real, errorY: real, distance: real)
    requires IsSqrt(distance, errorX * errorX + errorY * errorY)
    requires !WithinTolerance(errorX, errorY)
    ensures distance >= OtosTolerance
    ensures Abs(errorX) <= distance && Abs(errorY) <= distance
  {
    ComponentBound(errorX, errorY, distance);
  }

  /** One component of the direction toward the target, `errorX / distance`
      or `errorY / distance`: times the distance it gives back the error,
      and it is at most 1 in magnitude. */
  function Component(a: real, d: real): (q: real)
    requires d > 0.0 && Abs(a) <= d
    ensures q * d == a && Abs(q) <= 1.0
  {
    ComponentQuotient(a, d);
    a / d
  }

  lemma UnitVector(ux: real, uy: real, a: real, b: real, d: real)
    requires d > 0.0 && ux * d == a && uy * d == b && IsSqrt(d, a * a + b * b)
    ensures ux * ux + uy * uy == 1.0
  {
    assert a * a + b * b == (ux * d) * (ux * d) + (uy * d) * (uy * d);
    UnitFromScaled(ux, uy, d);
  }

  /** The direction of an iteration that has not arrived is a unit
      vector: the divisions are safe because the distance is at least the
      tolerance. */
  lemma UnitDirection(errorX: real, errorY: real, distance: real)
    requires IsSqrt(distance, errorX * errorX + errorY * errorY)
    requires !WithinTolerance(errorX, errorY)
    ensures distance >= OtosTolerance
    ensures Abs(errorX) <= distance && Abs(errorY) <= distance
    ensures var ux, uy := Component(errorX, distance), Component(errorY, distance);
      ux * ux + uy * uy == 1.0
  {
    DistanceAtLeastTolerance(errorX, errorY, distance);
    UnitVector(Component(errorX, distance), Component(errorY, distance), errorX, errorY, distance);
  }

  /** A unit vector `(ux, uy)` that points along `(ex, ey)` at distance
      `d`, scaled by `speed`, is the error vector rescaled to length
      `|speed|`. */
  lemma ScaledUnit(ux: real, uy: real, speed: real, d: real, ex: real, ey: real)
    requires ux * d == ex && uy * d == ey && ux * ux + uy * uy == 1.0
    ensures (ux * speed) * d == ex * speed && (uy * speed) * d == ey * speed
    ensures (ux * speed) * (ux * speed) + (uy * speed) * (uy * speed) == speed * speed
  {
    assert (ux * speed) * (ux * speed) + (uy * speed) * (uy * speed) == (ux * ux + uy * uy) * (speed * speed);
  }

  // ---------------------------------------------------------------------
  // One loop iteration

  /** What one iteration does with the drive: stop (and leave the loop), or
      call `driveRobot(forward, strafe, rotate)`. */
  datatype Tick = Arrived | Steer(forward: real, strafe: real, rotate: real)

  /** A translation `(strafe, forward)` aims at the error vector
      `(ex, ey)` of length `d` with the given speed: times the distance it
      is the error vector times the speed, so it is parallel to the error
      (and, for a positive speed, points the same way), and its length is
      `|speed|`. */
  predicate AimsAt(strafe: real, forward: real, ex: real, ey: real, d: real, speed: real)
  {
    strafe * d == ex * speed && forward * d == ey * speed &&
    strafe * strafe + forward * forward == speed * speed
  }

  /** `a * d == e * speed` with a positive distance and speed: `a` has the
      sign of `e`. */
  lemma SameSign(a: real, e: real, d: real, speed: real)
    requires a * d == e * speed && d > 0.0 && speed > 0.0
    ensures a > 0.0 <==> e > 0.0
    ensures a < 0.0 <==> e < 0.0
  {
    if a > 0.0 {
      MulPos(a, d);
      if e <= 0.0 { MulNonneg(-e, speed); }
    } else if a < 0.0 {
      MulPos(-a, d);
      if e >= 0.0 { MulNonneg(e, speed); }
    } else if e > 0.0 {
      MulPos(e, speed);
    } else if e < 0.0 {
      MulPos(-e, speed);
    }
  }

  /** With a positive speed, a translation that aims at the target moves
      toward it on both axes: each command has the sign of its axis error,
      and an axis with no error gets no command. */
  lemma AimsTowardTarget(strafe: real, forward: real, ex: real, ey: real, d: real, speed: real)
    requires AimsAt(strafe, forward, ex, ey, d, speed) && d > 0.0 && speed > 0.0
    ensures strafe > 0.0 <==> ex > 0.0
    ensures strafe < 0.0 <==> ex < 0.0
    ensures forward > 0.0 <==> ey > 0.0
    ensures forward < 0.0 <==> ey < 0.0
  {
    SameSign(strafe, ex, d, speed);
    SameSign(forward, ey, d, speed);
  }

  /** The steering translation for errors `(ex, ey)` at distance `d`, the
      direction scaled by the speed, aims at the target. */
  lemma SteerGeometry(ex: real, ey: real, d: real, speed: real)
    requires IsSqrt(d, ex * ex + ey * ey) && !WithinTolerance(ex, ey)
    ensures d >= OtosTolerance && Abs(ex) <= d && Abs(ey) <= d
    ensures AimsAt(Component(ex, d) * speed, Component(ey, d) * speed, ex, ey, d, speed)
  {
    UnitDirection(ex, ey, d);
    ScaledUnit(Component(ex, d), Component(ey, d), speed, d, ex, ey);
  }

  /** The drive command toward errors `(ex, ey)` at distance `d`, when
      the target is outside the tolerance box: the direction
      `(ex / d, ey / d)` scaled by the speed, forward along y and strafe
      along x, which aims at the target. */
  function SteerAt(ex: real, ey: real, d: real, speed: real, rotate: real): (t: Tick)
    requires IsSqrt(d, ex * ex + ey * ey) && !WithinTolerance(ex, ey)
    ensures d >= OtosTolerance
    ensures t.Steer? && t.rotate == rotate
    ensures AimsAt(t.strafe, t.forward, ex, ey, d, speed)
  {
    SteerGeometry(ex, ey, d, speed);
    Steer(Component(ey, d) * speed, Component(ex, d) * speed, rotate)
  }

  /** One iteration of the five-argument `moveToPosition`: stop inside the
      tolerance box, otherwise steer straight at the target (`SteerAt`),
      with the heading correction as the rotation. */
  function MoveTick(targetX: real, targetY: real, speed: real, targetHeading: Option<real>, r: Reading): (t: Tick)
    requires Consistent(targetX, targetY, r)
    ensures t.Arrived? <==> WithinTolerance(ErrorX(targetX, r), ErrorY(targetY, r))
    ensures t.Steer? ==> r.distance >= OtosTolerance
    ensures t.Steer? ==> AimsAt(t.strafe, t.forward, ErrorX(targetX, r), ErrorY(targetY, r), r.distance, speed)
    ensures t.Steer? ==> t.rotate == HeadingCorrection(targetHeading, r.pose.heading)
    ensures targetHeading.None? && t.Steer? ==> t.rotate == 0.0
  {
    var ex, ey := ErrorX(targetX, r), ErrorY(targetY, r);
    if WithinTolerance(ex, ey) then
      Arrived
    else
      SteerAt(ex, ey, r.distance, speed, HeadingCorrection(targetHeading, r.pose.heading))
  }

  /** An iteration that has not arrived, with a positive drive speed,
      strafes toward the target's x and drives toward its y. */
  lemma MoveTickMovesTowardTarget(targetX: real, targetY: real, speed: real, targetHeading: Option<real>, r: Reading)
    requires Consistent(targetX, targetY, r) && speed > 0.0
    requires !WithinTolerance(ErrorX(targetX, r), ErrorY(targetY, r))
    ensures var t := MoveTick(targetX, targetY, speed, targetHeading, r);
      t.Steer? &&
      (t.strafe > 0.0 <==> ErrorX(targetX, r) > 0.0) && (t.strafe < 0.0 <==> ErrorX(targetX, r) < 0.0) &&
      (t.forward > 0.0 <==> ErrorY(targetY, r) > 0.0) && (t.forward < 0.0 <==> ErrorY(targetY, r) < 0.0)
  {
    var t := MoveTick(targetX, targetY, speed, targetHeading, r);
    AimsTowardTarget(t.strafe, t.forward, ErrorX(targetX, r), ErrorY(targetY, r), r.distance, speed);
  }

  /** An error along the field's x axis alone is driven on the strafe
      axis, not the forward one: the command is pure strafe at the drive
      speed, with no rotation when no heading is held. */
  lemma XErrorDrivesStrafe(targetX: real, targetY: real, speed: real, r: Reading)
    requires Consistent(targetX, targetY, r)
    requires ErrorY(targetY, r) == 0.0 && ErrorX(targetX, r) >= OtosTolerance
    ensures MoveTick(targetX, targetY, speed, None, r) == Steer(0.0, speed, 0.0)
  {
    var ex, ey := ErrorX(targetX, r), ErrorY(targetY, r);
    AbsIsSqrt(ex);
    assert ex * ex + ey * ey == ex * ex;
    SqrtUnique(r.distance, Abs(ex), ex * ex);
    var ux, uy := Component(ex, r.distance), Component(ey, r.distance);
    assert ux * ex == ex && uy * ex == 0.0;
    assert ux == 1.0 && uy == 0.0;
  }

  /** `driveRobot` of both OTOS autos is the mecanum mixer: forward
      negated, strafe boosted by 1.1, shared denominator. */
  function DriveRobot(forward: real, strafe: real, rotate: real): (w: WheelPowers)
    ensures Within(w, 1.0)
    ensures InputSum(-forward, 1.1 * strafe, rotate) <= 1.0 ==> w == RawMix(-forward, 1.1 * strafe, rotate)
    ensures InputSum(-forward, 1.1 * strafe, rotate) >= 1.0 ==> PeakIs(w, 1.0)
  {
    MecanumDrivePowers(forward, strafe, rotate)
  }

  /** `stopDriveMotors` is `driveRobot(0, 0, 0)`, which writes zeros. */
  function StopDriveMotors(): (w: WheelPowers)
    ensures w == Stopped
  {
    ZeroCommandStops(MecanumDriveMixer);
    DriveRobot(0.0, 0.0, 0.0)
  }

  /** The wheel powers one iteration writes; arrival calls
      `stopDriveMotors`, whose zeros `StopDriveMotors` establishes. */
  function TickPowers(t: Tick): (w: WheelPowers)
    ensures Within(w, 1.0)
    ensures t.Arrived? ==> w == Stopped
  {
    if t.Arrived? then Stopped else DriveRobot(t.forward, t.strafe, t.rotate)
  }

  /** The wheel powers of one iteration that has not arrived. */
  function TickCommand(targetX: real, targetY: real, speed: real, targetHeading: Option<real>, r: Reading): (w: WheelPowers)
    requires Consistent(targetX, targetY, r)
    ensures Within(w, 1.0)
  {
    TickPowers(MoveTick(targetX, targetY, speed, targetHeading, r))
  }

  // ---------------------------------------------------------------------
  // The loop

  /** The loop's exit test on one reading. */
  predicate Arrives(targetX: real, targetY: real, r: Reading)
  {
    WithinTolerance(ErrorX(targetX, r), ErrorY(targetY, r))
  }

  /** The loop's bookkeeping for any exit test and any steering command:
      one write per reading consumed, stopping at the first reading that
      passes the test, which writes a stop. */
  function Loop(arrives: Reading -> bool, steer: Reading -> WheelPowers, readings: seq<Reading>): (r: (seq<WheelPowers>, bool))
    ensures |r.0| <= |readings|
    ensures !r.1 ==> |r.0| == |readings|
    ensures r.1 ==> 0 < |r.0| && r.0[|r.0| - 1] == Stopped
    ensures forall j :: 0 <= j < |r.0| ==> (arrives(readings[j]) <==> r.1 && j == |r.0| - 1)
    ensures forall j :: 0 <= j < |r.0| && !arrives(readings[j]) ==> r.0[j] == steer(readings[j])
    decreases |readings|
  {
    if |readings| == 0 then
      ([], false)
    else if arrives(readings[0]) then
      ([Stopped], true)
    else
      var rest := Loop(arrives, steer, readings[1..]);
      var writes := [steer(readings[0])] + rest.0;
      assert writes[1..] == rest.0;
      (writes, rest.1)
  }

  /** The drive writes of the loop over the readings seen while the op-mode
      stays active, and whether it left by arriving. One write per reading
      consumed: the loop stops at the first reading within tolerance, which
      writes a stop, and every earlier reading writes its steering
      command. */
  function Follow(targetX: real, targetY: real, speed: real, targetHeading: Option<real>, readings: seq<Reading>): (r: (seq<WheelPowers>, bool))
    requires AllConsistent(targetX, targetY, readings)
    ensures |r.0| <= |readings|
    ensures !r.1 ==> |r.0| == |readings|
    ensures r.1 ==> 0 < |r.0| && r.0[|r.0| - 1] == Stopped
    ensures forall j :: 0 <= j < |r.0| ==> (Arrives(targetX, targetY, readings[j]) <==> r.1 && j == |r.0| - 1)
    ensures forall j :: 0 <= j < |r.0| && !Arrives(targetX, targetY, readings[j]) ==>
      r.0[j] == TickCommand(targetX, targetY, speed, targetHeading, readings[j])
    ensures forall j :: 0 <= j < |r.0| ==> Within(r.0[j], 1.0)
  {
    Loop(p => Arrives(targetX, targetY, p),
         p => if Consistent(targetX, targetY, p) then TickCommand(targetX, targetY, speed, targetHeading, p) else Stopped,
         readings)
  }

  /** The loop leaves by arriving exactly when some reading it could see is
      within tolerance, and it then leaves at the first such reading. */
  lemma FollowArrivesIffSomeReadingArrives(targetX: real, targetY: real, speed: real, targetHeading: Option<real>, readings: seq<Reading>)
    requires AllConsistent(targetX, targetY, readings)
    ensures var r := Follow(targetX, targetY, speed, targetHeading, readings);
      r.1 <==> exists i :: 0 <= i < |readings| && Arrives(targetX, targetY, readings[i])
    ensures var r := Follow(targetX, targetY, speed, targetHeading, readings);
      r.1 ==> forall i :: 0 <= i < |r.0| - 1 ==> !Arrives(targetX, targetY, readings[i])
  {
    var r := Follow(targetX, targetY, speed, targetHeading, readings);
    if r.1 {
      assert Arrives(targetX, targetY, readings[|r.0| - 1]);
    }
  }

  /** The drive writes in order, whether the target was reached, the
      intake power while the loop runs, and the motors the routine leaves
      behind. */
  datatype MoveOutcome = MoveOutcome(writes: seq<WheelPowers>, arrived: bool, intakeDuring: real, drive: WheelPowers, intake: real)

  /** `Blue_Otos_Auto.moveToPosition` with all five arguments. The intake
      runs during the move when asked and is switched off afterwards; the
      drive is stopped however the loop ended. */
  function BlueMoveToPosition(targetX: real, targetY: real, speed: real, startIntake: bool, targetHeading: Option<real>,
                              intakeBefore: real, readings: seq<Reading>): (m: MoveOutcome)
    requires AllConsistent(targetX, targetY, readings)
    ensures |m.writes| > 0 && m.writes[|m.writes| - 1] == m.drive == Stopped
    ensures startIntake ==> m.intakeDuring == IntakeSpeed && m.intake == 0.0
    ensures !startIntake ==> m.intakeDuring == intakeBefore && m.intake == intakeBefore
    ensures m.arrived <==> exists i :: 0 <= i < |readings| && Arrives(targetX, targetY, readings[i])
    ensures forall j :: 0 <= j < |m.writes| ==> Within(m.writes[j], 1.0)
  {
    var f := Follow(targetX, targetY, speed, targetHeading, readings);
    FollowArrivesIffSomeReadingArrives(targetX, targetY, speed, targetHeading, readings);
    var writes := f.0 + [Stopped];
    MoveOutcome(writes, f.1, IntakeDuringMove(startIntake, intakeBefore), writes[|writes| - 1],
                if startIntake then 0.0 else intakeBefore)
  }

  /** The intake power while the loop runs. */
  function IntakeDuringMove(startIntake: bool, intakeBefore: real): (p: real)
    ensures startIntake ==> p == IntakeSpeed
    ensures !startIntake ==> p == intakeBefore
  {
    if startIntake then IntakeSpeed else intakeBefore
  }

  /** The three shorter overloads: no intake and no heading; a heading; an
      intake flag. */
  function BlueMoveTo(targetX: real, targetY: real, speed: real, intakeBefore: real, readings: seq<Reading>): MoveOutcome
    requires AllConsistent(targetX, targetY, readings)
  {
    BlueMoveToPosition(targetX, targetY, speed, false, None, intakeBefore, readings)
  }

  function BlueMoveToHeading(targetX: real, targetY: real, speed: real, targetHeading: real, intakeBefore: real, readings: seq<Reading>): MoveOutcome
    requires AllConsistent(targetX, targetY, readings)
  {
    BlueMoveToPosition(targetX, targetY, speed, false, Some(targetHeading), intakeBefore, readings)
  }

  function BlueMoveToIntake(targetX: real, targetY: real, speed: real, startIntake: bool, intakeBefore: real, readings: seq<Reading>): MoveOutcome
    requires AllConsistent(targetX, targetY, readings)
  {
    BlueMoveToPosition(targetX, targetY, speed, startIntake, None, intakeBefore, readings)
  }

  /** The overloads without a heading never leave the intake changed unless
      asked to, and the heading overload steers exactly like the full
      routine with that heading. */
  lemma OverloadsDefault(targetX: real, targetY: real, speed: real, heading: real, intakeBefore: real, readings: seq<Reading>)
    requires AllConsistent(targetX, targetY, readings)
    ensures BlueMoveTo(targetX, targetY, speed, intakeBefore, readings).intake == intakeBefore
    ensures BlueMoveToHeading(targetX, targetY, speed, heading, intakeBefore, readings).intake == intakeBefore
    ensures BlueMoveToIntake(targetX, targetY, speed, true, intakeBefore, readings).intake == 0.0
    ensures BlueMoveTo(targetX, targetY, speed, intakeBefore, readings).writes
         == BlueMoveToIntake(targetX, targetY, speed, true, intakeBefore, readings).writes
  {
  }

  /** `Otos_Auto.moveToPosition`: the same loop with no heading term, so
      every steering command has zero rotation; the intake, once started,
      is left running. */
  function OtosMoveToPosition(targetX: real, targetY: real, speed: real, startIntake: bool,
                              intakeBefore: real, readings: seq<Reading>): (m: MoveOutcome)
    requires AllConsistent(targetX, targetY, readings)
    ensures |m.writes| > 0 && m.writes[|m.writes| - 1] == m.drive == Stopped
    ensures startIntake ==> m.intakeDuring == IntakeSpeed && m.intake == IntakeSpeed
    ensures !startIntake ==> m.intakeDuring == intakeBefore && m.intake == intakeBefore
    ensures m.arrived <==> exists i :: 0 <= i < |readings| && Arrives(targetX, targetY, readings[i])
    ensures forall j :: 0 <= j < |m.writes| ==> Within(m.writes[j], 1.0)
  {
    var f := Follow(targetX, targetY, speed, None, readings);
    FollowArrivesIffSomeReadingArrives(targetX, targetY, speed, None, readings);
    var writes := f.0 + [Stopped];
    var during := IntakeDuringMove(startIntake, intakeBefore);
    MoveOutcome(writes, f.1, during, writes[|writes| - 1], during)
  }

  /** The Otos routine drives exactly like the Blue one without a heading;
      they differ only in whether the intake is switched off at the end. */
  lemma OtosIsBlueWithoutHeading(targetX: real, targetY: real, speed: real, startIntake: bool, intakeBefore: real, readings: seq<Reading>)
    requires AllConsistent(targetX, targetY, readings)
    ensures OtosMoveToPosition(targetX, targetY, speed, startIntake, intakeBefore, readings).writes
         == BlueMoveToPosition(targetX, targetY, speed, startIntake, None, intakeBefore, readings).writes
    ensures OtosMoveToPosition(targetX, targetY, speed, startIntake, intakeBefore, readings).arrived
         == BlueMoveToPosition(targetX, targetY, speed, startIntake, None, intakeBefore, readings).arrived
  {
  }

  /** A run whose first reading is already within tolerance writes only
      stops. */
  lemma StartAtTargetOnlyStops(targetX: real, targetY: real, speed: real, targetHeading: Option<real>, readings: seq<Reading>)
    requires AllConsistent(targetX, targetY, readings)
    requires 0 < |readings| && Arrives(targetX, targetY, readings[0])
    ensures Follow(targetX, targetY, speed, targetHeading, readings) == ([Stopped], true)
  {
    assert Consistent(targetX, targetY, readings[0]);
  }
}
