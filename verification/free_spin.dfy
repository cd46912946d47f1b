/** The blue-side zone-aware tele-op (`FreeSpin`): for every tag block the
    vision sensor reports in a pass, one iteration of stick drive, optional
    strafe alignment on the tag, zone checks, trigger intake, tiered
    flywheel power by zone, and the manual overrides. */
module FreeSpin {
  import opened RealMath
  import opened Mecanum
  import opened Zones
  import opened TeleOp

  const ShortShotScale: real := 0.5
  const FullShotScale: real := 1.0
  /** Pixel column band the alignment steers the tag into. */
  const AlignLow: int := 205
  const AlignHigh: int := 215
  /** Reverse flywheel power of the bumper override. */
  const ReverseFlywheel: real := -0.75

  /** A tag block reported by the vision sensor: its tag id and the pixel
      column of its centre. */
  datatype Block = Block(id: int, x: int)

  /** The driver's controls read in one iteration. */
  datatype Gamepad = Gamepad(
    leftY: real, leftX: real, rightX: real, rightTrigger: real,
    leftBumper: bool, rightBumper: bool, dpadDown: bool, dpadLeft: bool, dpadRight: bool)

  /** The strafe command of the alignment, if it overrides the sticks,
      written with both of the program's branches. The second branch is
      guarded by `id == 2` but only reached when `id == 0`, so it never
      fires: a tag with id 0 never moves the robot, and every other tag,
      id 2 included, uses the first branch's directions. */
  function AlignmentStrafe(leftBumper: bool, b: Block): (s: Option<real>)
    ensures !leftBumper || b.id == 0 ==> s.None?
    ensures leftBumper && b.id != 0 && b.x > AlignHigh ==> s == Some(-1.0)
    ensures leftBumper && b.id != 0 && b.x < AlignLow ==> s == Some(1.0)
    ensures AlignLow <= b.x <= AlignHigh ==> s.None?
  {
    if !leftBumper then None
    else if b.id != 0 then
      (if b.x > AlignHigh then Some(-1.0) else if b.x < AlignLow then Some(1.0) else None)
    else if b.id == 2 then
      (if b.x > AlignHigh then Some(1.0) else if b.x < AlignLow then Some(-1.0) else None)
    else None
  }

  /** The mirrored directions of the `id == 2` branch are never produced:
      a tag with id 2 to the right of the band strafes left, not right. */
  lemma TagTwoUsesFirstBranch(b: Block)
    requires b.id == 2
    ensures b.x > AlignHigh ==> AlignmentStrafe(true, b) == Some(-1.0)
    ensures b.x < AlignLow ==> AlignmentStrafe(true, b) == Some(1.0)
  {
  }

  /** The wheel powers left after the stick drive and the optional
      alignment override. */
  function DriveCommand(g: Gamepad, b: Block): (w: WheelPowers)
    ensures Within(w, 1.0)
    ensures AlignmentStrafe(g.leftBumper, b).None? ==> w == MecanumDrivePowers(g.leftY, g.leftX, g.rightX)
    ensures AlignmentStrafe(g.leftBumper, b).Some? ==>
      w == MecanumDrivePowers(0.0, AlignmentStrafe(g.leftBumper, b).value, 0.0)
  {
    match AlignmentStrafe(g.leftBumper, b)
    case None => MecanumDrivePowers(g.leftY, g.leftX, g.rightX)
    case Some(v) => MecanumDrivePowers(0.0, v, 0.0)
  }

  /** The zone tier: front before back, off outside both. */
  function ZonePower(inFront: bool, inBack: bool): (p: real)
    ensures inFront ==> p == 0.5
    ensures !inFront && inBack ==> p == 1.0
    ensures !inFront && !inBack ==> p == 0.0
  {
    if inFront then FullShotScale * ShortShotScale
    else if inBack then FullShotScale
    else 0.0
  }

  /** The flywheel power left set: the full-power button wins, then the
      reverse bumper, then the zone tier. */
  function FlywheelCommand(inFront: bool, inBack: bool, dpadDown: bool, rightBumper: bool): (p: real)
    ensures dpadDown ==> p == 1.0
    ensures !dpadDown && rightBumper ==> p == ReverseFlywheel
    ensures !dpadDown && !rightBumper ==> p == ZonePower(inFront, inBack)
    ensures -0.75 <= p <= 1.0
  {
    if dpadDown then 1.0
    else if rightBumper then ReverseFlywheel
    else ZonePower(inFront, inBack)
  }

  /** The intake power left set: the bumper reverses it only when the
      full-power button is not held. */
  function IntakeCommand(rightTrigger: real, dpadDown: bool, rightBumper: bool): (p: real)
    ensures !dpadDown && rightBumper ==> p == -1.0
    ensures dpadDown || !rightBumper ==> p == IntakeFromTrigger(rightTrigger)
  {
    if !dpadDown && rightBumper then -1.0 else IntakeFromTrigger(rightTrigger)
  }

  /** The outputs of one iteration. */
  datatype Output = Output(zones: ShootZones, drive: WheelPowers, flywheel: real, intake: real, gate: Option<real>)

  /** One iteration for one tag block, with the controls and the
      follower's position read in it. */
  function Iteration(z: ShootZones, g: Gamepad, robot: Point, b: Block): (o: Output)
    ensures o.zones == CheckZones(z, robot)
    ensures o.drive == DriveCommand(g, b)
    ensures o.flywheel == FlywheelCommand(o.zones.inFront, o.zones.inBack, g.dpadDown, g.rightBumper)
    ensures o.intake == IntakeCommand(g.rightTrigger, g.dpadDown, g.rightBumper)
    ensures o.gate == GateWrite(g.dpadLeft, g.dpadRight)
    ensures Within(o.drive, 1.0)
  {
    var zones := CheckZones(z, robot);
    Output(zones, DriveCommand(g, b),
           FlywheelCommand(zones.inFront, zones.inBack, g.dpadDown, g.rightBumper),
           IntakeCommand(g.rightTrigger, g.dpadDown, g.rightBumper),
           GateWrite(g.dpadLeft, g.dpadRight))
  }

  /** What one iteration reads: a block, the controls, the robot position. */
  datatype Step = Step(block: Block, pad: Gamepad, robot: Point)

  /** One pass of the outer loop: one iteration per reported block, each
      seeing the zone flags the previous one stored. With no block in view
      nothing is written at all, not even the stick drive. */
  function Pass(z: ShootZones, steps: seq<Step>): (r: (ShootZones, seq<Output>))
    ensures |r.1| == |steps|
    ensures |steps| == 0 ==> r.0 == z
    ensures |steps| > 0 ==> r.0 == r.1[|steps| - 1].zones
    ensures |steps| > 0 ==> r.1[0] == Iteration(z, steps[0].pad, steps[0].robot, steps[0].block)
    ensures forall i :: 0 <= i < |r.1| ==> Within(r.1[i].drive, 1.0)
    decreases |steps|
  {
    if |steps| == 0 then (z, [])
    else
      var o := Iteration(z, steps[0].pad, steps[0].robot, steps[0].block);
      var rest := Pass(o.zones, steps[1..]);
      var outs := [o] + rest.1;
      assert outs[0] == o && outs[1..] == rest.1;
      (rest.0, outs)
  }

  /** Each iteration of a pass sees the zone flags of the robot position
      read by the one before it; the vertices never change. */
  lemma {:induction false} PassZonesTrackLastPosition(z: ShootZones, steps: seq<Step>)
    requires |steps| > 0
    ensures var r := Pass(z, steps);
      r.0.inFront == Classify(FrontTriangle(z), steps[|steps| - 1].robot) &&
      r.0.inBack == Classify(BackTriangle(z), steps[|steps| - 1].robot) &&
      r.0 == z.(inFront := r.0.inFront, inBack := r.0.inBack)
    decreases |steps|
  {
    var o := Iteration(z, steps[0].pad, steps[0].robot, steps[0].block);
    if |steps| > 1 {
      PassZonesTrackLastPosition(o.zones, steps[1..]);
    }
  }
}
