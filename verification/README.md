# 25310-Decode robot control core, in Dafny

A model of the decision logic of an FTC robot's control programs, with
proofs about it. The robot has a mecanum drivetrain, an intake, a flywheel
launcher with a gate servo, an optical odometry sensor and a vision sensor.
The model covers:

- **Shooting zones** (`Zones`, `zones.dfy`): `CoordinateTriangle`. This is
  the area-sum point-in-triangle test with its degeneracy guard, the two
  zone checks, their flags and getters, and the default vertices.
- **Wheel mixing** (`Mecanum`, `mecanum.dfy`): one parameterised mixer. It
  has a configuration for `MecanumDrive.drive`, which is also the
  `driveRobot` of both odometry autos, and one for `Blue_Shoot_Auto.drive`.
- **Hardware wrapper** (`Hardware`, `hardware.dfy`): `HardwareConfig.drive`
  with its largest-wheel normalisation and path-follower delegation, and
  `stopAllMotors`.
- **Go-to-point routine** (`Navigation`, `navigation.dfy`): the
  `moveToPosition` routines of `Blue_Otos_Auto` and `Otos_Auto`.
  - one loop iteration and the loop over the readings seen;
  - `normalizeAngle` and the heading P-term;
  - `driveRobot` and `stopDriveMotors`;
  - the overloads.
- **Shooting routine** (`ShootSequence`, `shoot_sequence.dfy`):
  `shootSequence`, as the ordered trace of actuator writes.
- **Zone-aware tele-ops** (`TeleOp`, `FreeSpin`, `FreeSpinRed`;
  `teleop.dfy`, `free_spin.dfy`, `free_spin_red.dfy`): one loop iteration
  each.
  - `FreeSpin`: the zone power tiers, the manual overrides and the
    tag-alignment decision;
  - `FreeSpinRed`: distance-scaled flywheel power and the heading assist
    toward the goal.
- **Flywheel test** (`FlywheelTest`, `flywheel_test.dfy`): the flywheel
  test op-mode's state machine.
- **Timed moves** (`DeadReckoning`, `dead_reckoning.dfy`): the timed moves
  of `Blue_Shoot_Auto` and `Red_Shoot_Auto`.

`RealMath` (`realmath.dfy`) holds the arithmetic these modules share:
`Abs`, `Max`, `Clamp`, Java's truncated `%`, truncation toward zero,
multiples of a period, and the square-root predicate.

Modelling conventions:

- **Numbers.** Doubles are `real`. The constants are the program's
  literals, and π is the double `3.141592653589793`.
- **Square roots and `atan2`.** `Math.sqrt` results are parameters
  constrained by `IsSqrt(r, x)`, meaning `r >= 0` and `r * r == x`. The
  result of `Math.atan2` is an input.
- **Sentinels.** The NaN "no heading" sentinel and the `Double.MAX_VALUE`
  "no minimum yet" sentinel are `Option` values.
- **Loops.** A loop guarded by `opModeIsActive()` consumes a finite
  sequence of readings taken while the op-mode was active. Nothing is
  claimed about termination.
- **Actuators.** An actuator write is a value in a returned record or
  trace.

Facts about the code that a reader might not expect:

- **Sensor reads.** No program holds the last command on a failed read:
  each iteration uses whatever pose it reads.
- **Direction of an x error.** An error along x drives the strafe axis,
  not the forward axis; the y error drives the forward axis
  (`Navigation.XErrorDrivesStrafe`).
- **Gate timing.** The shooting routine's gate opens on a timer, not on a
  measured speed (`ShootSequence.TimedNotSpeedGated`). Only the flywheel
  test gates feeding on measured speed.
- **The `id == 2` branch.** In `FreeSpin` the branch for tag id 2 sits in
  the `else` of `id != 0`, so it can never run. It is modelled as written
  (`FreeSpin.TagTwoUsesFirstBranch`).

## Model

| member | source | states |
|---|---|---|
| RealMath.JavaRem | TeamCode/src/main/java/org/firstinspires/ftc/teamcode/pedroPathing/Blue_Otos_Auto.java:252 | Java's `%` on doubles: the result is strictly within one period, has the sign of the dividend, and differs from it by a whole number of periods |
| Zones.TriangleArea | TeamCode/src/main/java/org/firstinspires/ftc/teamcode/pedroPathing/CoordinateTriangle.java:55-57 | the shoelace area is never negative and is zero exactly when the three vertices are collinear |
| Zones.SubAreaSumAtLeastMain | TeamCode/src/main/java/org/firstinspires/ftc/teamcode/pedroPathing/CoordinateTriangle.java:84-93 | the three sub-triangle areas never add up to less than the main area, so the two-sided tolerance test is the one-sided `sum - main < EPSILON` |
| Zones.Classify | TeamCode/src/main/java/org/firstinspires/ftc/teamcode/pedroPathing/CoordinateTriangle.java:76-93 | a triangle whose area is below EPSILON contains no point; otherwise a point is inside iff the sub-areas exceed the main area by less than EPSILON |
| Zones.CheckFront | TeamCode/src/main/java/org/firstinspires/ftc/teamcode/pedroPathing/CoordinateTriangle.java:71-96 | the front check classifies the robot against (x1,y1),(x2,y2),(x3,y1), stores the answer in the front flag, returns that same answer and changes nothing else |
| Zones.CheckBack | TeamCode/src/main/java/org/firstinspires/ftc/teamcode/pedroPathing/CoordinateTriangle.java:110-135 | the back check classifies against (x6,y6),(x7,y7),(x8,y6), stores the answer in the back flag, returns it and changes nothing else |
| Zones.GettersReportLastCheck | TeamCode/src/main/java/org/firstinspires/ftc/teamcode/pedroPathing/CoordinateTriangle.java:141-151 | each getter returns what the latest check of its own zone returned, whatever check of the other zone ran in between (`IsInFrontShootArea`, `IsInBackShootArea`) |
| Zones.ClosedTriangleSumsExactly | TeamCode/src/main/java/org/firstinspires/ftc/teamcode/pedroPathing/CoordinateTriangle.java:85-90 | for every point of the closed triangle the sub-areas add up to the main area exactly |
| Zones.ClosedTriangleClassifiedInside | TeamCode/src/main/java/org/firstinspires/ftc/teamcode/pedroPathing/CoordinateTriangle.java:84-95 | every point of the closed triangle, edges and vertices included, is classified inside iff the triangle is not degenerate |
| Zones.ExactSumInClosedTriangle | TeamCode/src/main/java/org/firstinspires/ftc/teamcode/pedroPathing/CoordinateTriangle.java:85-93 | conversely, a point whose sub-areas add up to a positive main area exactly lies in the closed triangle |
| Zones.DefaultZonesUsable | TeamCode/src/main/java/org/firstinspires/ftc/teamcode/pedroPathing/CoordinateTriangle.java:21-31 | the default zones have areas 3135.75 and 451.5; the front zone's centre vertex is inside it, a point below the back apex is inside the back zone, and the field corner is in neither |
| Mecanum.PeakOfMix | TeamCode/src/main/java/org/firstinspires/ftc/teamcode/pedroPathing/MecanumDrive.java:43-46 | the four sign patterns make the largest wheel magnitude of the raw mix (`RawMix`) exactly `|f| + |s| + |r|` |
| Mecanum.Normalize | TeamCode/src/main/java/org/firstinspires/ftc/teamcode/pedroPathing/MecanumDrive.java:42-46 | dividing by the shared denominator keeps every wheel within 1, a wheel at the denominator reaches 1, and a denominator of 1 changes nothing |
| Mecanum.Drive | TeamCode/src/main/java/org/firstinspires/ftc/teamcode/pedroPathing/MecanumDrive.java:35-53 | no wheel exceeds the output scale; a command whose magnitudes sum to at most 1 passes through unscaled; a larger one saturates with its largest wheel at exactly the output scale |
| Mecanum.MecanumDrivePowers | TeamCode/src/main/java/org/firstinspires/ftc/teamcode/pedroPathing/MecanumDrive.java:35-53 | `MecanumDrive.drive`: stick y negated, strafe times 1.1; every wheel within 1; small commands give the raw mix and large ones reach 1 exactly |
| Mecanum.BlueShootPowers | TeamCode/src/main/java/org/firstinspires/ftc/teamcode/pedroPathing/Blue_Shoot_Auto.java:95-115 | `Blue_Shoot_Auto.drive`: no negation, strafe times 1.1, rotation times 0.7; every wheel within PowerScale; small commands give the raw mix and large ones reach PowerScale |
| Mecanum.ScaleWheels | TeamCode/src/main/java/org/firstinspires/ftc/teamcode/pedroPathing/Blue_Shoot_Auto.java:110-114 | multiplying the normalised powers by the output scale keeps every wheel within that scale, and a saturated wheel reaches it |
| Mecanum.PureRotation | TeamCode/src/main/java/org/firstinspires/ftc/teamcode/pedroPathing/MecanumDrive.java:43-46 | pure rotation gives both left wheels `rx/d` and both right wheels `-rx/d`, with `d = max(|rx|, 1)` |
| Mecanum.PureForward | TeamCode/src/main/java/org/firstinspires/ftc/teamcode/pedroPathing/MecanumDrive.java:37-46 | pure stick y drives all four wheels equally, in the inverted direction |
| Mecanum.PureStrafe | TeamCode/src/main/java/org/firstinspires/ftc/teamcode/pedroPathing/MecanumDrive.java:39-46 | pure strafe drives one diagonal at `1.1x/d` and the other at its negation |
| Mecanum.ZeroCommandStops | TeamCode/src/main/java/org/firstinspires/ftc/teamcode/pedroPathing/MecanumDrive.java:42-46 | the zero command writes zero to every wheel, in every mixer variant |
| Mecanum.UniformScaling | TeamCode/src/main/java/org/firstinspires/ftc/teamcode/pedroPathing/MecanumDrive.java:42-46 | all four wheels are divided by one common factor, so a saturating command keeps the ratios between the wheels |
| Hardware.MaxPower | TeamCode/src/main/java/org/firstinspires/ftc/teamcode/HardwareConfig.java:233-236 | `maxPower` is at least 1, no raw wheel exceeds it, and it is 1 or the magnitude of some wheel |
| Hardware.MaxPowerIsInputSum | TeamCode/src/main/java/org/firstinspires/ftc/teamcode/HardwareConfig.java:227-236 | the largest-wheel normaliser always equals `max(1, |forward| + |right| + |rotate|)` |
| Hardware.HardwareDrive | TeamCode/src/main/java/org/firstinspires/ftc/teamcode/HardwareConfig.java:219-243 | the command is handed to the follower iff the follower is in use and present; otherwise every wheel is within 1, in-range raw mixes pass unchanged, and the result equals the shared mixer with no shaping |
| Hardware.ApplyDrive | TeamCode/src/main/java/org/firstinspires/ftc/teamcode/HardwareConfig.java:219-243 | a drive call never touches the intake or launcher; delegation leaves every motor as it was; otherwise the wheels end within 1 |
| Hardware.HardwarePureRotation | TeamCode/src/main/java/org/firstinspires/ftc/teamcode/HardwareConfig.java:227-242 | without the follower, pure rotation gives the left wheels `+rotate` and the right wheels `-rotate`, scaled down together above magnitude 1 |
| Hardware.StopAllMotors | TeamCode/src/main/java/org/firstinspires/ftc/teamcode/HardwareConfig.java:204-211 | all four wheels, the intake and the launcher are set to zero |
| Hardware.StopMatchesZeroDrive | TeamCode/src/main/java/org/firstinspires/ftc/teamcode/HardwareConfig.java:204-243 | stopping leaves the wheels exactly as a zero drive command would |
| Navigation.NormalizeAngle | TeamCode/src/main/java/org/firstinspires/ftc/teamcode/pedroPathing/Blue_Otos_Auto.java:251-256 | the result lies in (-180, 180] and differs from the input by a whole number of turns |
| Navigation.NormalizeAngleCanonical | TeamCode/src/main/java/org/firstinspires/ftc/teamcode/pedroPathing/Blue_Otos_Auto.java:251-256 | the result is the only value of (-180, 180] a whole number of turns from the input |
| Navigation.NormalizeAngleIdempotent | TeamCode/src/main/java/org/firstinspires/ftc/teamcode/pedroPathing/Blue_Otos_Auto.java:251-256 | normalising twice equals normalising once, and angles already in range come back unchanged |
| Navigation.HeadingCorrection | TeamCode/src/main/java/org/firstinspires/ftc/teamcode/pedroPathing/Blue_Otos_Auto.java:230-237 | without a heading (NaN) the rotation is 0; otherwise it lies in [-1, 1], turns toward the target the shorter way, is `error/50` up to 50 degrees and saturates beyond |
| Navigation.DistanceAtLeastTolerance | TeamCode/src/main/java/org/firstinspires/ftc/teamcode/pedroPathing/Blue_Otos_Auto.java:220-226 | when the robot has not arrived, the distance to the target is at least the tolerance, and each axis error is at most the distance |
| Navigation.Component | TeamCode/src/main/java/org/firstinspires/ftc/teamcode/pedroPathing/Blue_Otos_Auto.java:227-228 | a direction component times the distance gives back the axis error, and is at most 1 in magnitude |
| Navigation.UnitDirection | TeamCode/src/main/java/org/firstinspires/ftc/teamcode/pedroPathing/Blue_Otos_Auto.java:226-228 | the direction of an iteration that has not arrived is a unit vector, so the divisions by the distance are safe |
| Navigation.AimsTowardTarget | TeamCode/src/main/java/org/firstinspires/ftc/teamcode/pedroPathing/Blue_Otos_Auto.java:226-240 | a translation that aims at the target with a positive speed gives each axis the sign of its error: it moves toward the target on both axes, and an axis with no error gets no command |
| Navigation.SteerGeometry | TeamCode/src/main/java/org/firstinspires/ftc/teamcode/pedroPathing/Blue_Otos_Auto.java:226-240 | outside the tolerance box, the direction `(errorX / distance, errorY / distance)` scaled by the speed aims at the target (`AimsAt`) |
| Navigation.SteerAt | TeamCode/src/main/java/org/firstinspires/ftc/teamcode/pedroPathing/Blue_Otos_Auto.java:226-240 | the steering command of an iteration that has not arrived: the target is at least the tolerance away, the rotation is the one given, and the translation aims at the target: times the distance it is the error vector times the speed, and its length is `|speed|` |
| Navigation.MoveTick | TeamCode/src/main/java/org/firstinspires/ftc/teamcode/pedroPathing/Blue_Otos_Auto.java:210-240 | an iteration arrives iff both axis errors are strictly within 2; otherwise the target is at least the tolerance away, the translation aims at the target with length `|speed|`, and the rotation is the heading term, zero without a target heading |
| Navigation.MoveTickMovesTowardTarget | TeamCode/src/main/java/org/firstinspires/ftc/teamcode/pedroPathing/Blue_Otos_Auto.java:210-240 | an iteration that has not arrived, at a positive drive speed, strafes toward the target's x and drives toward its y |
| Navigation.XErrorDrivesStrafe | TeamCode/src/main/java/org/firstinspires/ftc/teamcode/pedroPathing/Blue_Otos_Auto.java:226-240 | an error along x alone gives pure strafe at the drive speed and no forward command |
| Navigation.DriveRobot | TeamCode/src/main/java/org/firstinspires/ftc/teamcode/pedroPathing/Blue_Otos_Auto.java:319-333 | `driveRobot` is the mecanum mixer: every wheel within 1, small commands give the raw mix with forward negated and strafe times 1.1, large ones reach 1 |
| Navigation.StopDriveMotors | TeamCode/src/main/java/org/firstinspires/ftc/teamcode/pedroPathing/Blue_Otos_Auto.java:338-340 | `stopDriveMotors` writes zero to every wheel |
| Navigation.TickPowers | TeamCode/src/main/java/org/firstinspires/ftc/teamcode/pedroPathing/Blue_Otos_Auto.java:220-240 | an arriving iteration writes the stop; every iteration's wheels are within 1; `TickCommand` is these powers for the iteration of one reading |
| Navigation.Loop | TeamCode/src/main/java/org/firstinspires/ftc/teamcode/pedroPathing/Blue_Otos_Auto.java:210-224 | for any exit test and steering command: one write per reading consumed, the loop leaves at the first reading passing the test, whose write is the stop, and every earlier write is that reading's steering command |
| Navigation.Follow | TeamCode/src/main/java/org/firstinspires/ftc/teamcode/pedroPathing/Blue_Otos_Auto.java:208-245 | one write per reading consumed; the loop leaves at the first reading within tolerance, whose write is the stop; every earlier write is that reading's steering command; without arrival every reading is consumed; every write is within 1 |
| Navigation.FollowArrivesIffSomeReadingArrives | TeamCode/src/main/java/org/firstinspires/ftc/teamcode/pedroPathing/Blue_Otos_Auto.java:210-224 | the loop arrives iff some reading seen is within tolerance, and then no reading before the last one consumed is |
| Navigation.BlueMoveToPosition | TeamCode/src/main/java/org/firstinspires/ftc/teamcode/pedroPathing/Blue_Otos_Auto.java:203-249 | the routine always ends with the drive stopped; an intake it started is switched off, otherwise the intake is untouched; it arrived iff some reading was within tolerance; every write is within 1; while the loop runs the intake is at INTAKE_SPEED if asked, otherwise unchanged |
| Navigation.OverloadsDefault | TeamCode/src/main/java/org/firstinspires/ftc/teamcode/pedroPathing/Blue_Otos_Auto.java:187-197 | the shorter overloads leave the intake alone unless asked, and the intake flag does not change the drive writes (`BlueMoveTo`, `BlueMoveToHeading`, `BlueMoveToIntake`) |
| Navigation.IntakeDuringMove | TeamCode/src/main/java/org/firstinspires/ftc/teamcode/pedroPathing/Otos_Auto.java:193-195 | the intake runs at INTAKE_SPEED during the move when asked, otherwise it keeps its power |
| Navigation.OtosMoveToPosition | TeamCode/src/main/java/org/firstinspires/ftc/teamcode/pedroPathing/Otos_Auto.java:192-227 | the Otos routine ends with the drive stopped and arrives iff some reading was within tolerance; an intake it started is left running; the intake runs at INTAKE_SPEED during the move if asked |
| Navigation.OtosIsBlueWithoutHeading | TeamCode/src/main/java/org/firstinspires/ftc/teamcode/pedroPathing/Otos_Auto.java:199-226 | the Otos loop writes exactly what the Blue loop writes without a heading, and arrives in the same cases |
| Navigation.StartAtTargetOnlyStops | TeamCode/src/main/java/org/firstinspires/ftc/teamcode/pedroPathing/Blue_Otos_Auto.java:219-224 | a run whose first reading is within tolerance writes the stop and nothing else |
| ShootSequence.SpinUpWrites | TeamCode/src/main/java/org/firstinspires/ftc/teamcode/pedroPathing/Blue_Otos_Auto.java:274-279 | each spin-up pass writes the flag as "timer above 1000 ms", one write per pass |
| ShootSequence.ShootTrace | TeamCode/src/main/java/org/firstinspires/ftc/teamcode/pedroPathing/Blue_Otos_Auto.java:265-304 | the trace powers the flywheel at 0.85 first; it holds one flag write per spin-up pass, then the fixed finish; its length is the number of passes plus 8 |
| ShootSequence.FlagWritesKeepActuators | TeamCode/src/main/java/org/firstinspires/ftc/teamcode/pedroPathing/Blue_Otos_Auto.java:274-279 | the spin-up wait changes no actuator; the flag ends as the last pass set it |
| ShootSequence.FinishTurnsAllOff | TeamCode/src/main/java/org/firstinspires/ftc/teamcode/pedroPathing/Blue_Otos_Auto.java:281-304 | after the wait, whatever the state, the intake, gate, flywheel and flag all end off |
| ShootSequence.ShootSequenceEndsSafe | TeamCode/src/main/java/org/firstinspires/ftc/teamcode/pedroPathing/Blue_Otos_Auto.java:265-304 | from any state and for any spin-up history, the routine ends with the intake off, the gate closed, the flywheel off and the flag cleared |
| ShootSequence.GateOpensAfterFlywheel | TeamCode/src/main/java/org/firstinspires/ftc/teamcode/pedroPathing/Blue_Otos_Auto.java:270-287 | when the gate opens, the flywheel has been powered at 0.85 and the flag is set; when the intake starts, the gate is open |
| ShootSequence.TimedNotSpeedGated | TeamCode/src/main/java/org/firstinspires/ftc/teamcode/pedroPathing/Blue_Otos_Auto.java:274-287 | two runs with equally many spin-up passes make identical actuator writes; the gate is timed, never gated on speed |
| TeleOp.IntakeFromTrigger | TeamCode/src/main/java/org/firstinspires/ftc/teamcode/pedroPathing/FreeSpin.java:178-182 | the intake runs at 1 iff the trigger is past 0.1, and is 0 otherwise |
| TeleOp.CheckZones | TeamCode/src/main/java/org/firstinspires/ftc/teamcode/pedroPathing/FreeSpin.java:174-175 | after both checks the flags are exactly the two classifications of the robot position, and the vertices are unchanged |
| TeleOp.GateWrite | TeamCode/src/main/java/org/firstinspires/ftc/teamcode/pedroPathing/FreeSpin.java:209-213 | the first button writes 90, the second (without the first) writes 0, and with neither there is no write |
| FreeSpin.AlignmentStrafe | TeamCode/src/main/java/org/firstinspires/ftc/teamcode/pedroPathing/FreeSpin.java:147-168 | the alignment only acts with the left bumper and a tag id other than 0; it strafes left right of column 215, right left of 205, and not at all inside the band |
| FreeSpin.TagTwoUsesFirstBranch | TeamCode/src/main/java/org/firstinspires/ftc/teamcode/pedroPathing/FreeSpin.java:157-166 | tag id 2 uses the first branch's directions, never the mirrored ones of its own branch |
| FreeSpin.DriveCommand | TeamCode/src/main/java/org/firstinspires/ftc/teamcode/pedroPathing/FreeSpin.java:139-168 | the wheels left written are the stick drive, or the unit strafe when the alignment acts; always within 1 |
| FreeSpin.ZonePower | TeamCode/src/main/java/org/firstinspires/ftc/teamcode/pedroPathing/FreeSpin.java:184-196 | front zone 0.5, else back zone 1.0, else 0 |
| FreeSpin.FlywheelCommand | TeamCode/src/main/java/org/firstinspires/ftc/teamcode/pedroPathing/FreeSpin.java:184-207 | the full-power button wins over the reverse bumper (-0.75), which wins over the zone tier; the result lies in [-0.75, 1] |
| FreeSpin.IntakeCommand | TeamCode/src/main/java/org/firstinspires/ftc/teamcode/pedroPathing/FreeSpin.java:178-207 | the bumper reverses the intake only when the full-power button is not held; otherwise the trigger decides |
| FreeSpin.Iteration | TeamCode/src/main/java/org/firstinspires/ftc/teamcode/pedroPathing/FreeSpin.java:138-213 | one iteration: zone flags from the robot position, then drive, flywheel, intake and gate as the commands above, the drive within 1 |
| FreeSpin.Pass | TeamCode/src/main/java/org/firstinspires/ftc/teamcode/pedroPathing/FreeSpin.java:133-213 | one iteration per reported block, each seeing the flags the previous one stored; with no block nothing is written and the flags stay |
| FreeSpin.PassZonesTrackLastPosition | TeamCode/src/main/java/org/firstinspires/ftc/teamcode/pedroPathing/FreeSpin.java:135-175 | after a pass the flags are the classifications of the last position read, and the vertices never change |
| FreeSpinRed.DistanceRatio | TeamCode/src/main/java/org/firstinspires/ftc/teamcode/pedroPathing/FreeSpinRed.java:313-324 | the ratio lies in [0, 1]; a zero reference gives 1; it saturates at 1 at or beyond the reference and is `distance/reference` below it |
| FreeSpinRed.DistanceRatioMonotone | TeamCode/src/main/java/org/firstinspires/ftc/teamcode/pedroPathing/FreeSpinRed.java:319-322 | farther from the goal never gives less power |
| FreeSpinRed.FrontScaledPower | TeamCode/src/main/java/org/firstinspires/ftc/teamcode/pedroPathing/FreeSpinRed.java:304-325 | the front power is the distance to the goal over 152.4, clamped to [0, 1] |
| FreeSpinRed.BackScaledPower | TeamCode/src/main/java/org/firstinspires/ftc/teamcode/pedroPathing/FreeSpinRed.java:342-365 | the back power is the distance to the goal over the goal's distance from (x6, y6), clamped to [0, 1]; 1 when that reference is zero |
| FreeSpinRed.BackScaledPowerAtReference | TeamCode/src/main/java/org/firstinspires/ftc/teamcode/pedroPathing/FreeSpinRed.java:348-362 | a robot on the reference vertex gets exactly full power |
| FreeSpinRed.FlywheelCommand | TeamCode/src/main/java/org/firstinspires/ftc/teamcode/pedroPathing/FreeSpinRed.java:233-253 | the override gives 1; otherwise the front zone gives half the front power (at most 0.5), else the back zone gives the back power, else 0; always in [0, 1] |
| FreeSpinRed.IntakeCommand | TeamCode/src/main/java/org/firstinspires/ftc/teamcode/pedroPathing/FreeSpinRed.java:261-263 | the bumper's reverse -1 overrides the trigger's choice |
| FreeSpinRed.WrapDown | TeamCode/src/main/java/org/firstinspires/ftc/teamcode/pedroPathing/FreeSpinRed.java:221 | the first loop ends at most π, leaves errors already at most π alone, and moves by whole turns |
| FreeSpinRed.WrapUp | TeamCode/src/main/java/org/firstinspires/ftc/teamcode/pedroPathing/FreeSpinRed.java:222 | the second loop ends above -π, leaves errors already above -π alone, and moves by whole turns |
| FreeSpinRed.NormalizeRadians | TeamCode/src/main/java/org/firstinspires/ftc/teamcode/pedroPathing/FreeSpinRed.java:220-222 | the two loops together put the error in (-π, π], a whole number of turns from the raw error |
| FreeSpinRed.NormalizeRadiansCanonical | TeamCode/src/main/java/org/firstinspires/ftc/teamcode/pedroPathing/FreeSpinRed.java:220-222 | that value is the only one of (-π, π] a whole number of turns away, so errors already in range are unchanged |
| FreeSpinRed.AssistRotation | TeamCode/src/main/java/org/firstinspires/ftc/teamcode/pedroPathing/FreeSpinRed.java:218-225 | the assist rotation lies in [-1, 1], turns the shorter way, is half the error up to 2 rad and saturates beyond |
| FreeSpinRed.Iteration | TeamCode/src/main/java/org/firstinspires/ftc/teamcode/pedroPathing/FreeSpinRed.java:155-269 | one iteration: the zones from the follower position; the assist replaces the rotation iff in a zone with all sticks idle; the flywheel, intake and gate as above; the drive within 1 |
| FreeSpinRed.SticksOverrideAssist | TeamCode/src/main/java/org/firstinspires/ftc/teamcode/pedroPathing/FreeSpinRed.java:200-205 | moving any stick hands rotation back to the driver |
| FlywheelTest.CurrentRpm | TeamCode/src/main/java/org/firstinspires/ftc/teamcode/pedroPathing/FlywheelTest.java:152-156 | rpm times ticks-per-revolution is 60 times the velocity; it is positive iff the velocity is; one revolution per second is 60 rpm |
| FlywheelTest.TargetBandInclusive | TeamCode/src/main/java/org/firstinspires/ftc/teamcode/pedroPathing/FlywheelTest.java:158-160 | on target iff 2950 <= rpm <= 3050, both ends included (`IsAtTargetSpeed`) |
| FlywheelTest.StartFlywheel | TeamCode/src/main/java/org/firstinspires/ftc/teamcode/pedroPathing/FlywheelTest.java:117-130 | starting sets spinning, clears the speed and fed flags, the minimum and both recorded speeds, writes power 1 and restarts the spin-up timer |
| FlywheelTest.RestartDetectsNoLaunch | TeamCode/src/main/java/org/firstinspires/ftc/teamcode/pedroPathing/FlywheelTest.java:81-130 | the first monitoring pass after a start never reports a launch, because the start reset the speed a drop is measured from |
| FlywheelTest.StopFlywheel | TeamCode/src/main/java/org/firstinspires/ftc/teamcode/pedroPathing/FlywheelTest.java:132-141 | stopping clears all three flags and writes power 0 and feeder 0 |
| FlywheelTest.FeedBall | TeamCode/src/main/java/org/firstinspires/ftc/teamcode/pedroPathing/FlywheelTest.java:143-150 | feeding records the speed before the push, leaves the feeder at rest, marks the ball fed and restarts the monitor timer half a second after the iteration's clock reading, once the pause has passed |
| FlywheelTest.Buttons | TeamCode/src/main/java/org/firstinspires/ftc/teamcode/pedroPathing/FlywheelTest.java:60-74 | A starts and B stops only on a press, never while held, and the held flags follow the buttons |
| FlywheelTest.Monitor | TeamCode/src/main/java/org/firstinspires/ftc/teamcode/pedroPathing/FlywheelTest.java:81-110 | monitoring only runs while spinning; the speed and fed flags latch; the speed flag is set only on a target reading; a launch is detected only on a drop of more than 100 rpm at speed; the minimum never rises; while armed at speed, a drop of more than 100 rpm below the recorded speed marks the ball fed and restarts the launch timer, and any other reading becomes the recorded speed |
| FlywheelTest.Tick | TeamCode/src/main/java/org/firstinspires/ftc/teamcode/pedroPathing/FlywheelTest.java:56-114 | one iteration: the A and B edges; a button feed only at speed with X held; a stop leaves the flywheel off; the fed, at-speed, spinning chain is preserved |
| FlywheelTest.RunKeepsValid | TeamCode/src/main/java/org/firstinspires/ftc/teamcode/pedroPathing/FlywheelTest.java:56-114 | every sequence of iterations from a valid state keeps the chain: fed implies at speed implies spinning, and the power matches the spinning flag (`Run` is the state after the iterations) |
| FlywheelTest.InitialValid | TeamCode/src/main/java/org/firstinspires/ftc/teamcode/pedroPathing/FlywheelTest.java:21-33 | the initial field values satisfy that chain |
| FlywheelTest.HeldButtonActsOnce | TeamCode/src/main/java/org/firstinspires/ftc/teamcode/pedroPathing/FlywheelTest.java:61-66 | holding A for two iterations starts the flywheel at most once |
| FlywheelTest.FeedWindowFollowsPause | TeamCode/src/main/java/org/firstinspires/ftc/teamcode/pedroPathing/FlywheelTest.java:143-149 | after a button feed, a later reading is tracked as the launch minimum exactly while it comes less than the 500 ms pause plus the two-second window after the feeding iteration's clock reading |
| FlywheelTest.MinimumNeverRises | TeamCode/src/main/java/org/firstinspires/ftc/teamcode/pedroPathing/FlywheelTest.java:100-104 | without a restart, the recorded launch minimum never rises |
| DeadReckoning.MoveTimeMs | TeamCode/src/main/java/org/firstinspires/ftc/teamcode/pedroPathing/Blue_Shoot_Auto.java:124 | the move time is the whole number of milliseconds not above `|amount| * rate`, never negative |
| DeadReckoning.MoveTimeSymmetric | TeamCode/src/main/java/org/firstinspires/ftc/teamcode/pedroPathing/Blue_Shoot_Auto.java:124 | a move and its reverse take the same time |
| DeadReckoning.Direction | TeamCode/src/main/java/org/firstinspires/ftc/teamcode/pedroPathing/Blue_Shoot_Auto.java:125 | the direction is +1 iff the amount is at least 0, and -1 iff it is negative |
| DeadReckoning.DriveDistance | TeamCode/src/main/java/org/firstinspires/ftc/teamcode/pedroPathing/Blue_Shoot_Auto.java:123-129 | `driveDistance` drives forward or back only, at full power with the distance's sign (0 counts as positive), for the truncated `|d| * 7.075` ms; the Red program's copy (`Red_Shoot_Auto.java:84-90`) is the same |
| DeadReckoning.StrafeDistance | TeamCode/src/main/java/org/firstinspires/ftc/teamcode/pedroPathing/Blue_Shoot_Auto.java:137-143 | `strafeDistance` drives on the strafe axis only, with the same sign rule, for the truncated `|d| * 7.075` ms; the Red program's copy (`Red_Shoot_Auto.java:98-104`) is the same |
| DeadReckoning.RotateAngle | TeamCode/src/main/java/org/firstinspires/ftc/teamcode/pedroPathing/Blue_Shoot_Auto.java:151-157 | `rotateAngle` drives on the rotation axis only, with the same sign rule, for the truncated `|deg| * 10` ms; the Red program's copy (`Red_Shoot_Auto.java:112-118`) is the same |
| DeadReckoning.ReverseFlipsDirection | TeamCode/src/main/java/org/firstinspires/ftc/teamcode/pedroPathing/Blue_Shoot_Auto.java:123-157 | reversing a non-zero single-axis move flips its direction and keeps its time |
| DeadReckoning.CombinedTimeMs | TeamCode/src/main/java/org/firstinspires/ftc/teamcode/pedroPathing/Blue_Shoot_Auto.java:167-170 | the combined time is at least each single-axis time and equal to one of them, so it is the longest; the Red program's copy (`Red_Shoot_Auto.java:129-132`) is the same |
| DeadReckoning.CombinedAsWritten | TeamCode/src/main/java/org/firstinspires/ftc/teamcode/pedroPathing/Blue_Shoot_Auto.java:167-180 | `driveCombined` as written drives all three axes at full power with their signs, a zero axis counting as positive, for the combined time |
| DeadReckoning.ZeroAxesMoveAsWritten | TeamCode/src/main/java/org/firstinspires/ftc/teamcode/pedroPathing/Blue_Shoot_Auto.java:173-177 | a combined move of 50 cm forward also strafes right and turns for all of its 353 ms |
| DeadReckoning.DriveCombined | TeamCode/src/main/java/org/firstinspires/ftc/teamcode/pedroPathing/Blue_Shoot_Auto.java:167-180 | the corrected combined move commands an axis iff it has something to do, with its sign, for the combined time |
| DeadReckoning.CombinedSingleAxis | TeamCode/src/main/java/org/firstinspires/ftc/teamcode/pedroPathing/Blue_Shoot_Auto.java:167-180 | the corrected combined move along one non-zero axis is that axis's single move |
| DeadReckoning.CombinedAgreesOnActiveAxes | TeamCode/src/main/java/org/firstinspires/ftc/teamcode/pedroPathing/Blue_Shoot_Auto.java:173-177 | the corrected and written combined moves differ only on idle axes |
| DeadReckoning.StopCommandStops | TeamCode/src/main/java/org/firstinspires/ftc/teamcode/pedroPathing/Blue_Shoot_Auto.java:128 | the final `drive(0, 0, 0)` stops all four wheels on either robot |
| DeadReckoning.BlueWrites | TeamCode/src/main/java/org/firstinspires/ftc/teamcode/pedroPathing/Blue_Shoot_Auto.java:126-128 | a Blue move writes its command, within PowerScale, and then the stop |
| DeadReckoning.RedWrites | TeamCode/src/main/java/org/firstinspires/ftc/teamcode/pedroPathing/Red_Shoot_Auto.java:87-89 | a Red move writes its command through `MecanumDrive.drive`, within 1, and then the stop |
| DeadReckoning.RedForwardIsBlueReversed | TeamCode/src/main/java/org/firstinspires/ftc/teamcode/pedroPathing/Red_Shoot_Auto.java:74-76 | the Red drive runs a forward command the opposite way from the Blue drive, and strafes the same |
| DeadReckoning.DriveDistanceWheels | TeamCode/src/main/java/org/firstinspires/ftc/teamcode/pedroPathing/Red_Shoot_Auto.java:84-89 | a distance move drives all four wheels at full power: with the direction on Blue, against it on Red |
| DeadReckoning.RotateAngleWheels | TeamCode/src/main/java/org/firstinspires/ftc/teamcode/pedroPathing/Blue_Shoot_Auto.java:99-101 | a rotation turns the Blue robot at 0.7 power and the Red robot at full power |

## Left out

- Hardware mapping, motor and servo configuration, telemetry, `waitForStart`, `idle` and `sleep`: these are calls into the FTC SDK. Each `sleep` of a timed move is its duration (`timeMs`) between two wheel writes.
- The `runOpMode` scripts of the autonomous programs, which are fixed sequences of calls to the modelled routines. The Pedro Pathing follower, its paths and poses, and `HardwareConfig.driveFieldRelative` (IMU reads and trigonometry) are left out too; only the hand-over to the follower in `HardwareConfig.drive` is modelled, as an outcome.
- Floating point: all arithmetic is on `real`, so EPSILON compares exact values and rounding inside it is not modelled.
- Square roots and `atan2` are inputs (see above).
- Navigation.Follow: the loop is modelled over the finite sequence of readings seen while the op-mode is active. Its termination is not claimed, because the program has no guard of its own.
- ShootSequence.ShootTrace: the intake wait writes nothing and is not in the trace. The spin-up wait is represented by the timer values it reads.
- The single clock input per iteration of `FlywheelTest` stands for both `ElapsedTime` timers, each remembered by its start time.
- FlywheelTest.FeedBall: the feeder's brief write of 1.0 is not modelled; only the final resting write is. The 500 ms sleep appears only as the delay of the monitor timer's restart; the clock reading of the rest of that iteration is the one taken before it. The speed it records is a second encoder reading, an input.
- FreeSpin.Iteration, FreeSpinRed.Iteration: a write that a later write of the same iteration overwrites (the zone flywheel power replaced by the full-power button or the reverse bumper, the stick drive replaced by the alignment strafe) is not recorded; each output is the last value written in the iteration.
- DeadReckoning.MoveTimeMs: does not model the saturation of the `(long)` cast at 2^63 - 1 ms, because no calibrated move comes near it.
- FreeSpin's rate limiter (the loop skips iterations until its timer expires) and the HuskyLens reads: a pass is given the blocks reported.
- FreeSpinRed's dpad-up pose reset of the follower, and its commented-out alignment block.
- What a servo does with a position outside [0, 1] (the tele-ops write 90): the written value is recorded as is.
- `Otos_Auto`'s three-argument `moveToPosition`, its `shootSequence`, `driveRobot` and `stopDriveMotors` are identical to the modelled Blue ones (`Navigation.OtosMoveToPosition` with the intake flag false; `ShootSequence.ShootTrace`; `Navigation.DriveRobot`).

## Findings

| source | as written | input that shows it | evidently intended | confidence | as-written member | corrected member |
|---|---|---|---|---|---|---|
| TeamCode/src/main/java/org/firstinspires/ftc/teamcode/pedroPathing/Blue_Shoot_Auto.java:173-177 | each axis of `driveCombined` gets `amount >= 0 ? 1 : -1`, so an axis with zero distance is driven at +1 for the whole move | `driveCombined(50, 0, 0)` drives forward and also strafes right and turns counter-clockwise for 353 ms | an axis with nothing to do gets no command, so a combined move along one axis is that axis's single move | medium; not executed | DeadReckoning.CombinedAsWritten, DeadReckoning.ZeroAxesMoveAsWritten | DeadReckoning.DriveCombined, DeadReckoning.CombinedSingleAxis |
| TeamCode/src/main/java/org/firstinspires/ftc/teamcode/pedroPathing/Red_Shoot_Auto.java:134-138 | the same direction rule in the Red program's `driveCombined` | `driveCombined(50, 0, 0)` also strafes and turns for 353 ms | as above | medium; not executed | DeadReckoning.CombinedAsWritten, DeadReckoning.ZeroAxesMoveAsWritten | DeadReckoning.DriveCombined, DeadReckoning.CombinedSingleAxis |
