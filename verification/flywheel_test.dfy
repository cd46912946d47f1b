/** The flywheel test op-mode (`FlywheelTest`): a small state machine,
    stepped once per loop iteration, that spins the flywheel up on A,
    stops it on B, feeds a ball on X once the measured speed is on target,
    and watches the speed drop and recovery of the launch.

    This is the only program in the system that gates feeding on measured
    speed. Timers are modelled by one clock reading per iteration (in
    seconds), with each timer's reset remembered as a start time;
    `Double.MAX_VALUE` as "no minimum yet" is `None`. */
module FlywheelTest {
  import opened RealMath

  const TargetRpm: real := 3000.0
  const RpmTolerance: real := 50.0
  /** How long after a launch the minimum and recovery speeds are tracked. */
  const MonitorSeconds: real := 2.0
  /** How long `feedBall` holds the feeder out before retracting it; the
      launch timer restarts only after this pause. */
  const FeedSleepSeconds: real := 0.5

  /** `getCurrentRPM`: encoder velocity (ticks per second) over the encoder
      resolution, times sixty. */
  function CurrentRpm(velocity: real, ticksPerRev: real): (rpm: real)
    requires ticksPerRev > 0.0
    ensures rpm * ticksPerRev == velocity * 60.0
    ensures rpm > 0.0 <==> velocity > 0.0
    ensures velocity == ticksPerRev ==> rpm == 60.0
  {
    QuotientTimesDivisor(velocity, ticksPerRev);
    (velocity / ticksPerRev) * 60.0
  }

  /** `isAtTargetSpeed`: within the tolerance of the target, both bounds
      included. */
  predicate IsAtTargetSpeed(rpm: real)
  {
    Abs(rpm - TargetRpm) <= RpmTolerance
  }

  /** The tolerance band is closed: its end points count as on target and
      anything beyond them does not. */
  lemma TargetBandInclusive(rpm: real)
    ensures IsAtTargetSpeed(rpm) <==> 2950.0 <= rpm <= 3050.0
  {
  }

  /** The op-mode's fields, the last flywheel power and feeder position
      written, and the two timers' start times. */
  datatype State = State(
    spinning: bool, atTargetSpeed: bool, ballFed: bool,
    spinupTime: real, rpmBeforeLaunch: real, rpmAfterLaunch: real, minRpmDuringLaunch: Option<real>,
    aHeld: bool, bHeld: bool,
    flywheelPower: real, feeder: real,
    spinupStart: real, monitorStart: real)

  /** The state before the first iteration. */
  const Initial: State := State(false, false, false, 0.0, 0.0, 0.0, None, false, false, 0.0, 0.0, 0.0, 0.0)

  /** The chain the feeding logic relies on: a fed ball implies the
      flywheel was at speed, which implies it is spinning; and the power
      written matches the spinning flag. The feeder always rests at 0. */
  predicate Valid(s: State)
  {
    (s.ballFed ==> s.atTargetSpeed) && (s.atTargetSpeed ==> s.spinning) &&
    s.flywheelPower == (if s.spinning then 1.0 else 0.0) &&
    s.feeder == 0.0
  }

  /** One iteration's inputs: the three buttons, the encoder velocity read
      at the top of the loop and the one read again by `feedBall`, the
      encoder resolution, and the clock. */
  datatype Inputs = Inputs(a: bool, b: bool, x: bool, velocity: real, feedVelocity: real, ticksPerRev: real, now: real)

  /** `startFlywheel`. */
  function StartFlywheel(s: State, now: real): (r: State)
    ensures r.spinning && !r.atTargetSpeed && !r.ballFed && r.minRpmDuringLaunch.None?
    ensures r.flywheelPower == 1.0 && r.spinupStart == now
    ensures r.rpmBeforeLaunch == 0.0 && r.rpmAfterLaunch == 0.0
    ensures r.aHeld == s.aHeld && r.bHeld == s.bHeld && r.feeder == s.feeder
  {
    s.(spinning := true, atTargetSpeed := false, ballFed := false,
       rpmBeforeLaunch := 0.0, rpmAfterLaunch := 0.0, minRpmDuringLaunch := None,
       spinupStart := now, flywheelPower := 1.0)
  }

  /** `stopFlywheel`. */
  function StopFlywheel(s: State): (r: State)
    ensures !r.spinning && !r.atTargetSpeed && !r.ballFed
    ensures r.flywheelPower == 0.0 && r.feeder == 0.0
    ensures r.aHeld == s.aHeld && r.bHeld == s.bHeld && r.minRpmDuringLaunch == s.minRpmDuringLaunch
  {
    s.(flywheelPower := 0.0, feeder := 0.0, spinning := false, atTargetSpeed := false, ballFed := false)
  }

  /** `feedBall`: records the speed just before the push, pushes the ball,
      waits, retracts the feeder, marks the ball fed and restarts the
      launch timer. `now` is the iteration's clock reading, taken before
      the pause, so the timer restarts `FeedSleepSeconds` after it. */
  function FeedBall(s: State, rpm: real, now: real): (r: State)
    ensures r.ballFed && r.feeder == 0.0 && r.rpmBeforeLaunch == rpm
    ensures r.monitorStart == now + FeedSleepSeconds && r.monitorStart > now
    ensures r.spinning == s.spinning && r.atTargetSpeed == s.atTargetSpeed && r.flywheelPower == s.flywheelPower
    ensures r.minRpmDuringLaunch == s.minRpmDuringLaunch
  {
    var pushed := s.(rpmBeforeLaunch := rpm, feeder := 1.0);
    pushed.(feeder := 0.0, ballFed := true, monitorStart := now + FeedSleepSeconds)
  }

  /** The A and B handling: an action on the press, none while held. */
  function Buttons(s: State, a: bool, b: bool, now: real): (r: (State, bool, bool))
    ensures r.1 <==> a && !s.aHeld
    ensures r.2 <==> b && !s.bHeld
    ensures r.0.aHeld == a && r.0.bHeld == b
  {
    var afterA :=
      if a && !s.aHeld then StartFlywheel(s.(aHeld := true), now)
      else if !a then s.(aHeld := false)
      else s;
    var afterB :=
      if b && !afterA.bHeld then StopFlywheel(afterA.(bHeld := true))
      else if !b then afterA.(bHeld := false)
      else afterA;
    (afterB, a && !s.aHeld, b && !s.bHeld)
  }

  /** The monitoring block, run while the flywheel is spinning: latch
      on-target speed, detect the launch as a drop of more than twice the
      tolerance, and track the minimum and recovered speeds for two
      seconds after it. */
  function Monitor(s: State, rpm: real, now: real): (r: State)
    ensures r.spinning == s.spinning && r.flywheelPower == s.flywheelPower && r.feeder == s.feeder
    ensures r.aHeld == s.aHeld && r.bHeld == s.bHeld
    ensures s.atTargetSpeed ==> r.atTargetSpeed
    ensures s.ballFed ==> r.ballFed
    ensures r.atTargetSpeed && !s.atTargetSpeed ==> s.spinning && IsAtTargetSpeed(rpm)
    ensures r.ballFed && !s.ballFed ==> s.spinning && r.atTargetSpeed && rpm < s.rpmBeforeLaunch - 2.0 * RpmTolerance
    ensures s.spinning && s.atTargetSpeed && !s.ballFed && rpm < s.rpmBeforeLaunch - 2.0 * RpmTolerance ==>
      r.ballFed && r.monitorStart == now
    ensures s.spinning && s.atTargetSpeed && !s.ballFed && rpm >= s.rpmBeforeLaunch - 2.0 * RpmTolerance ==>
      !r.ballFed && r.rpmBeforeLaunch == rpm
    ensures s.minRpmDuringLaunch.Some? ==> r.minRpmDuringLaunch.Some? && r.minRpmDuringLaunch.value <= s.minRpmDuringLaunch.value
    ensures r.minRpmDuringLaunch.Some? && r.minRpmDuringLaunch != s.minRpmDuringLaunch ==> r.minRpmDuringLaunch.value == rpm
  {
    if !s.spinning then s
    else
      var s1 := if !s.atTargetSpeed && IsAtTargetSpeed(rpm)
                then s.(atTargetSpeed := true, spinupTime := now - s.spinupStart)
                else s;
      var s2 := if s1.atTargetSpeed && !s1.ballFed then
                  (if rpm < s1.rpmBeforeLaunch - RpmTolerance * 2.0
                   then s1.(ballFed := true, monitorStart := now)
                   else s1.(rpmBeforeLaunch := rpm))
                else s1;
      if s2.ballFed && now - s2.monitorStart < MonitorSeconds then
        var s3 := if s2.minRpmDuringLaunch.None? || rpm < s2.minRpmDuringLaunch.value
                  then s2.(minRpmDuringLaunch := Some(rpm)) else s2;
        if rpm > s3.rpmBeforeLaunch - RpmTolerance then s3.(rpmAfterLaunch := rpm) else s3
      else s2
  }

  /** What one iteration did besides changing the state. */
  datatype Step = Step(next: State, started: bool, stopped: bool, fedByButton: bool)

  /** One loop iteration. */
  function Tick(s: State, i: Inputs): (r: Step)
    requires i.ticksPerRev > 0.0
    ensures r.started <==> i.a && !s.aHeld
    ensures r.stopped <==> i.b && !s.bHeld
    ensures r.next.aHeld == i.a && r.next.bHeld == i.b
    ensures Valid(s) ==> Valid(r.next)
    ensures r.fedByButton ==> i.x && r.next.ballFed && r.next.atTargetSpeed
    ensures Valid(s) && r.fedByButton ==> r.next.spinning && r.next.flywheelPower == 1.0
    ensures r.stopped ==> !r.next.spinning && r.next.flywheelPower == 0.0 && !r.fedByButton
    ensures r.started && !r.stopped ==> r.next.spinning && r.next.flywheelPower == 1.0
    ensures Valid(s) && s.atTargetSpeed && !r.started && !r.stopped ==> r.next.atTargetSpeed
    ensures Valid(s) && i.x && s.atTargetSpeed && !s.ballFed && !r.started && !r.stopped ==> r.fedByButton
  {
    var rpm := CurrentRpm(i.velocity, i.ticksPerRev);
    var (b, started, stopped) := Buttons(s, i.a, i.b, i.now);
    var feed := i.x && b.atTargetSpeed && !b.ballFed;
    var f := if feed then FeedBall(b, CurrentRpm(i.feedVelocity, i.ticksPerRev), i.now) else b;
    Step(Monitor(f, rpm, i.now), started, stopped, feed)
  }

  /** The state after a sequence of iterations. */
  function Run(s: State, inputs: seq<Inputs>): State
    requires forall k :: 0 <= k < |inputs| ==> inputs[k].ticksPerRev > 0.0
    decreases |inputs|
  {
    if |inputs| == 0 then s else Run(Tick(s, inputs[0]).next, inputs[1..])
  }

  /** From power-on, every reachable state keeps the fed-at-speed-spinning
      chain. */
  lemma {:induction false} RunKeepsValid(s: State, inputs: seq<Inputs>)
    requires Valid(s)
    requires forall k :: 0 <= k < |inputs| ==> inputs[k].ticksPerRev > 0.0
    ensures Valid(Run(s, inputs))
    decreases |inputs|
  {
    if |inputs| > 0 {
      RunKeepsValid(Tick(s, inputs[0]).next, inputs[1..]);
    }
  }

  lemma InitialValid()
    ensures Valid(Initial)
  {
  }

  /** Holding A across two iterations starts the flywheel at most once. */
  lemma HeldButtonActsOnce(s: State, i1: Inputs, i2: Inputs)
    requires i1.ticksPerRev > 0.0 && i2.ticksPerRev > 0.0
    requires i1.a && i2.a
    ensures !Tick(Tick(s, i1).next, i2).started
  {
  }

  /** A restart clears the recorded speed, so the first monitoring pass
      after it never reports a launch, whatever speed the previous run
      recorded. */
  lemma RestartDetectsNoLaunch(s: State, t0: real, rpm: real, now: real)
    ensures !Monitor(StartFlywheel(s, t0), rpm, now).ballFed
  {
  }

  /** After a button feed at clock reading `now`, a monitoring pass at `t`
      records its speed as the launch minimum exactly while `t` is less
      than the pause plus the two-second window after `now`; from then on
      the minimum is left as it was. */
  lemma FeedWindowFollowsPause(s: State, rpm: real, now: real, rpm2: real, t: real)
    requires s.spinning && s.atTargetSpeed && !s.ballFed && now <= t
    ensures var r := Monitor(FeedBall(s, rpm, now), rpm2, t);
      (t < now + FeedSleepSeconds + MonitorSeconds ==> r.minRpmDuringLaunch.Some? && r.minRpmDuringLaunch.value <= rpm2) &&
      (t >= now + FeedSleepSeconds + MonitorSeconds ==> r.minRpmDuringLaunch == s.minRpmDuringLaunch)
  {
  }

  /** The lowest speed seen during a launch never rises while the flywheel
      is not restarted. */
  lemma MinimumNeverRises(s: State, i: Inputs)
    requires i.ticksPerRev > 0.0
    requires s.minRpmDuringLaunch.Some? && !(i.a && !s.aHeld)
    ensures Tick(s, i).next.minRpmDuringLaunch.Some?
    ensures Tick(s, i).next.minRpmDuringLaunch.value <= s.minRpmDuringLaunch.value
  {
  }
}
