/** The shooting routine of the two OTOS autonomous programs
    (`shootSequence`, identical in `Blue_Otos_Auto` and `Otos_Auto`),
    modelled as the ordered trace of writes it makes to the flywheel, the
    gate servo, the intake and the `flywheelAtSpeed` flag.

    Both waits are timed: the gate opens once the spin-up wait is over,
    whatever the flywheel's actual speed. The spin-up wait polls a timer
    while the op-mode is active, so it is modelled by the sequence of timer
    values read inside it; the intake wait writes nothing and has no trace
    of its own. */
module ShootSequence {
  import opened Navigation

  const FlywheelSpeed: real := 0.85
  const GateOpen: real := 0.9
  const GateClosed: real := 0.0
  /** Length of the spin-up wait, in milliseconds. */
  const SpinUpMs: real := 1500.0
  /** Timer value from which the flag reports the flywheel at speed. */
  const AtSpeedMs: real := 1000.0
  /** Length of the intake wait, in milliseconds. */
  const IntakeDurationMs: real := 5000.0

  /** One write the routine makes. */
  datatype Write =
    | FlywheelPower(p: real)
    | GatePosition(g: real)
    | IntakePower(p: real)
    | AtSpeedFlag(b: bool)

  /** The last value written to each actuator, and the flag. */
  datatype Shooter = Shooter(flywheel: real, gate: real, intake: real, atSpeed: bool)

  function ApplyWrite(s: Shooter, w: Write): (r: Shooter)
    ensures w.FlywheelPower? ==> r == s.(flywheel := w.p)
    ensures w.GatePosition? ==> r == s.(gate := w.g)
    ensures w.IntakePower? ==> r == s.(intake := w.p)
    ensures w.AtSpeedFlag? ==> r == s.(atSpeed := w.b)
  {
    match w
    case FlywheelPower(p) => s.(flywheel := p)
    case GatePosition(g) => s.(gate := g)
    case IntakePower(p) => s.(intake := p)
    case AtSpeedFlag(b) => s.(atSpeed := b)
  }

  /** The state after a trace of writes, in order. */
  function Apply(s: Shooter, trace: seq<Write>): Shooter
    decreases |trace|
  {
    if |trace| == 0 then s else Apply(ApplyWrite(s, trace[0]), trace[1..])
  }

  /** Running two traces one after the other is running their
      concatenation. */
  lemma {:induction false} ApplyConcat(s: Shooter, a: seq<Write>, b: seq<Write>)
    ensures Apply(s, a + b) == Apply(Apply(s, a), b)
    decreases |a|
  {
    if |a| == 0 {
      assert a + b == b;
    } else {
      assert (a + b)[1..] == a[1..] + b;
      ApplyConcat(ApplyWrite(s, a[0]), a[1..], b);
    }
  }

  /** The flag writes of the spin-up wait: each pass sets the flag from
      the timer value read in that pass. */
  function SpinUpWrites(samples: seq<real>): (t: seq<Write>)
    ensures |t| == |samples|
    ensures forall i :: 0 <= i < |t| ==> t[i] == AtSpeedFlag(samples[i] > AtSpeedMs)
  {
    if |samples| == 0 then [] else [AtSpeedFlag(samples[0] > AtSpeedMs)] + SpinUpWrites(samples[1..])
  }

  /** Everything after the spin-up wait: flag set, gate open, intake on,
      then (after the intake wait) intake off, gate closed, flywheel off,
      flag cleared. */
  const Finish: seq<Write> := [
    AtSpeedFlag(true), GatePosition(GateOpen), IntakePower(IntakeSpeed),
    IntakePower(0.0), GatePosition(GateClosed), FlywheelPower(0.0), AtSpeedFlag(false)]

  /** `shootSequence`: the full ordered trace for the timer values read
      during spin-up. The trace starts by powering the flywheel, holds one
      flag write per spin-up pass, and then runs the fixed finish. */
  function ShootTrace(samples: seq<real>): (t: seq<Write>)
    ensures |t| == |samples| + 8
    ensures t[0] == FlywheelPower(FlywheelSpeed)
    ensures forall i :: 1 <= i <= |samples| ==> t[i] == AtSpeedFlag(samples[i - 1] > AtSpeedMs)
    ensures t[|samples| + 1..] == Finish
  {
    [FlywheelPower(FlywheelSpeed)] + SpinUpWrites(samples) + Finish
  }

  /** Only flag writes touch nothing but the flag. */
  lemma {:induction false} FlagWritesKeepActuators(s: Shooter, samples: seq<real>)
    ensures var r := Apply(s, SpinUpWrites(samples));
      r.flywheel == s.flywheel && r.gate == s.gate && r.intake == s.intake
    ensures |samples| > 0 ==> Apply(s, SpinUpWrites(samples)).atSpeed == (samples[|samples| - 1] > AtSpeedMs)
    ensures |samples| == 0 ==> Apply(s, SpinUpWrites(samples)) == s
    decreases |samples|
  {
    if |samples| > 0 {
      var t := SpinUpWrites(samples);
      assert t[1..] == SpinUpWrites(samples[1..]);
      FlagWritesKeepActuators(ApplyWrite(s, t[0]), samples[1..]);
    }
  }

  /** One write taken off the front of a suffix of a trace. */
  lemma ApplyStep(s: Shooter, t: seq<Write>, k: nat)
    requires k < |t|
    ensures Apply(s, t[k..]) == Apply(ApplyWrite(s, t[k]), t[k + 1..])
  {
    assert t[k..][1..] == t[k + 1..];
  }

  /** The fixed finish leaves everything off, from any state. */
  lemma FinishTurnsAllOff(s: Shooter)
    ensures Apply(s, Finish) == Shooter(0.0, GateClosed, 0.0, false)
  {
    var f := Finish;
    var r := s;
    for k := 0 to 7
      invariant Apply(s, f) == Apply(r, f[k..])
      invariant k >= 4 ==> r.intake == 0.0
      invariant k >= 5 ==> r.gate == GateClosed
      invariant k >= 6 ==> r.flywheel == 0.0
      invariant k >= 7 ==> !r.atSpeed
    {
      ApplyStep(r, f, k);
      r := ApplyWrite(r, f[k]);
    }
    assert f[0..] == f;
  }

  /** Wherever the routine starts and however early the op-mode is
      stopped, it ends with the intake off, the gate closed, the flywheel
      off and the flag cleared. */
  lemma {:induction false} ShootSequenceEndsSafe(s: Shooter, samples: seq<real>)
    ensures Apply(s, ShootTrace(samples)) == Shooter(0.0, GateClosed, 0.0, false)
  {
    var head := [FlywheelPower(FlywheelSpeed)] + SpinUpWrites(samples);
    assert ShootTrace(samples) == head + Finish;
    ApplyConcat(s, head, Finish);
    FinishTurnsAllOff(Apply(s, head));
  }

  /** The state in which the gate is opened and the intake started: the
      flywheel has been powered at the shooting speed and the flag is set,
      for every spin-up history. */
  lemma {:induction false} GateOpensAfterFlywheel(s: Shooter, samples: seq<real>)
    ensures var t := ShootTrace(samples);
      var g := |samples| + 2;
      t[g] == GatePosition(GateOpen) &&
      Apply(s, t[..g]).flywheel == FlywheelSpeed && Apply(s, t[..g]).atSpeed
    ensures var t := ShootTrace(samples);
      var k := |samples| + 3;
      t[k] == IntakePower(IntakeSpeed) &&
      Apply(s, t[..k]).flywheel == FlywheelSpeed && Apply(s, t[..k]).gate == GateOpen
  {
    var t := ShootTrace(samples);
    var head := [FlywheelPower(FlywheelSpeed)] + SpinUpWrites(samples);
    var n := |samples|;
    assert t[..n + 2] == head + [AtSpeedFlag(true)];
    assert t[..n + 3] == head + [AtSpeedFlag(true), GatePosition(GateOpen)];
    ApplyConcat(s, [FlywheelPower(FlywheelSpeed)], SpinUpWrites(samples));
    assert Apply(s, [FlywheelPower(FlywheelSpeed)]) == s.(flywheel := FlywheelSpeed);
    FlagWritesKeepActuators(s.(flywheel := FlywheelSpeed), samples);
    var h := Apply(s, head);
    ApplyConcat(s, head, [AtSpeedFlag(true)]);
    ApplyConcat(s, head, [AtSpeedFlag(true), GatePosition(GateOpen)]);
    assert Apply(h, [AtSpeedFlag(true)]) == h.(atSpeed := true);
    var two := [AtSpeedFlag(true), GatePosition(GateOpen)];
    assert Apply(h.(atSpeed := true), two[1..]) == h.(atSpeed := true, gate := GateOpen);
  }

  /** The actuator writes are the same for every spin-up history: the gate
      and intake are driven by the timer alone, never by a speed reading.
      Two runs differ at most in the flag values of the spin-up passes. */
  lemma TimedNotSpeedGated(samples1: seq<real>, samples2: seq<real>)
    requires |samples1| == |samples2|
    ensures var t1, t2 := ShootTrace(samples1), ShootTrace(samples2);
      forall i :: 0 <= i < |t1| && !t1[i].AtSpeedFlag? ==> t1[i] == t2[i]
  {
  }
}
