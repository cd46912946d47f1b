/** Pieces shared by the two zone-aware tele-op programs (`FreeSpin` and
    `FreeSpinRed`): the trigger-driven intake, the per-iteration zone
    checks and the gate-servo buttons. */
module TeleOp {
  import opened RealMath
  import opened Zones

  /** Trigger travel above which the intake runs. */
  const TriggerThreshold: real := 0.1

  /** The intake power chosen from the right trigger before any override:
      full forward when pressed past the threshold, otherwise off. */
  function IntakeFromTrigger(rightTrigger: real): (p: real)
    ensures p == 1.0 <==> rightTrigger > TriggerThreshold
    ensures p == 0.0 <==> rightTrigger <= TriggerThreshold
  {
    if rightTrigger > TriggerThreshold then 1.0 else 0.0
  }

  /** The front check followed by the back check, both at the follower's
      updated position. The flags afterwards are exactly the two
      classifications of that position. */
  function CheckZones(z: ShootZones, robot: Point): (r: ShootZones)
    ensures r.inFront == Classify(FrontTriangle(z), robot)
    ensures r.inBack == Classify(BackTriangle(z), robot)
    ensures r == z.(inFront := r.inFront, inBack := r.inBack)
  {
    CheckBack(CheckFront(z, robot).0, robot).0
  }

  /** The gate-servo write of one iteration, if any: the first button
      writes the raw position 90, the second (only when the first is not
      held) writes 0. */
  function GateWrite(openButton: bool, closeButton: bool): (g: Option<real>)
    ensures openButton ==> g == Some(90.0)
    ensures !openButton && closeButton ==> g == Some(0.0)
    ensures g.None? <==> !openButton && !closeButton
  {
    if openButton then Some(90.0) else if closeButton then Some(0.0) else None
  }
}
