// M777: hardware bed leveling with four independently driven Z motors that
// share one step/direction pair through four motor-select lines. The printer
// state the routine changes in place (the Z pins it writes itself, the
// positioning mode, the probe Z offset) is the class `Printer`; what it
// submits to the motion queue and the step pulses moveMotor emits are
// appended to `trace`. The pin writes of the motion system while it homes,
// moves and jogs are not modelled.

module Leveling {
  import opened Endstop
  import opened Machine
  import opened CornerSpread

  const MAX_REPETITIONS: nat := 5
  const MAX_OFFSET: int := 2
  /** The measurement position above each Z motor, in motor order. */
  const CORNERS: seq<(int, int)> := [(20, 200), (20, 40), (160, 200), (160, 40)]
  /** The most passes one run makes: repTimes runs from 0 to MAX_REPETITIONS. */
  const MAX_PASSES: nat := MAX_REPETITIONS + 1

  /** The `count` probes starting at probe `at` are all scripted. */
  predicate Probeable(scripts: seq<Polls>, at: nat, count: nat) {
    at + count <= |scripts|
  }

  /** The four deviations of the pass whose first probe is number `at`. */
  function PassDeviations(scripts: seq<Polls>, at: nat): (d: seq<int>)
    requires Probeable(scripts, at, 4)
    ensures |d| == 4
    ensures forall i :: 0 <= i < 4 ==> d[i] == Deviation(scripts[at + i])
  {
    [Deviation(scripts[at]), Deviation(scripts[at + 1]),
     Deviation(scripts[at + 2]), Deviation(scripts[at + 3])]
  }

  /** The spread every pass of a run starting at probe `at` would measure;
      SpreadOfPass gives each element. */
  function PassSpreads(scripts: seq<Polls>, at: nat): (s: seq<int>)
    requires Probeable(scripts, at, 4 * MAX_PASSES)
    ensures |s| == MAX_PASSES
  {
    SpreadsFrom(scripts, at, MAX_PASSES)
  }

  function SpreadsFrom(scripts: seq<Polls>, at: nat, n: nat): (s: seq<int>)
    requires Probeable(scripts, at, 4 * n)
    ensures |s| == n
  {
    if n == 0 then [] else SpreadsFrom(scripts, at, n - 1) + [Spread(PassDeviations(scripts, at + 4 * (n - 1)))]
  }

  /** Pass `m` of a run starting at probe `at` measures the spread of the
      four probes starting at `p = at + 4 * m`. */
  lemma SpreadOfPass(scripts: seq<Polls>, at: nat, m: nat, p: nat)
    requires m < MAX_PASSES && p == at + 4 * m && Probeable(scripts, at, 4 * MAX_PASSES)
    ensures Probeable(scripts, p, 4)
    ensures PassSpreads(scripts, at)[m] == Spread(PassDeviations(scripts, p))
  {
    SpreadsFromIndex(scripts, at, MAX_PASSES, m, p);
  }

  lemma {:induction false} SpreadsFromIndex(scripts: seq<Polls>, at: nat, n: nat, m: nat, p: nat)
    requires m < n && p == at + 4 * m && Probeable(scripts, at, 4 * n)
    ensures Probeable(scripts, p, 4)
    ensures SpreadsFrom(scripts, at, n)[m] == Spread(PassDeviations(scripts, p))
    decreases n
  {
    if m == n - 1 {
      assert at + 4 * (n - 1) == p;
    } else {
      SpreadsFromIndex(scripts, at, n - 1, m, p);
    }
  }

  /** The loop stops after pass `p` when that pass's spread is within
      MAX_OFFSET or the repetition counter, which equals `p` during pass `p`,
      has reached MAX_REPETITIONS. */
  predicate Stops(spreads: seq<int>, p: nat)
    requires p < |spreads|
  {
    spreads[p] <= MAX_OFFSET || p == MAX_REPETITIONS
  }

  /** The values reported when the loop stops: the last spread and the
      repetition counter before its final increment. */
  datatype Report = Report(heightDiff: int, repTimes: nat)

  /** The outcome of the control loop from pass `p` on, given the spread
      each pass would measure: it stops at a pass whose spread is within
      MAX_OFFSET, and at the latest at pass MAX_REPETITIONS, so after at most
      MAX_REPETITIONS + 1 passes; NoStopBeforeVerdict shows that it is the
      first such pass. */
  function Verdict(spreads: seq<int>, p: nat): (r: Report)
    requires |spreads| == MAX_PASSES && p <= MAX_REPETITIONS
    ensures p <= r.repTimes <= MAX_REPETITIONS
    ensures r.heightDiff == spreads[r.repTimes]
    ensures r.heightDiff <= MAX_OFFSET || r.repTimes == MAX_REPETITIONS
    decreases MAX_REPETITIONS - p
  {
    if Stops(spreads, p) then Report(spreads[p], p) else Verdict(spreads, p + 1)
  }

  /** No pass between `p` and the verdict's pass stops the loop. */
  lemma {:induction false} NoStopBeforeVerdict(spreads: seq<int>, p: nat, q: nat)
    requires |spreads| == MAX_PASSES && p <= q < MAX_REPETITIONS
    requires q < Verdict(spreads, p).repTimes
    ensures !Stops(spreads, q)
    decreases MAX_REPETITIONS - p
  {
    if p < q {
      assert Verdict(spreads, p) == Verdict(spreads, p + 1);
      NoStopBeforeVerdict(spreads, p + 1, q);
    }
  }

  /** One test of the loop's stop condition, for a pass `q` no later than
      the verdict's and its spread `h`: when the test succeeds the verdict is
      this pass, and when it fails the verdict lies further on. */
  lemma VerdictStep(spreads: seq<int>, q: nat, h: int)
    requires |spreads| == MAX_PASSES && q <= Verdict(spreads, 0).repTimes && h == spreads[q]
    ensures h <= MAX_OFFSET || q == MAX_REPETITIONS ==> Verdict(spreads, 0) == Report(h, q)
    ensures !(h <= MAX_OFFSET || q == MAX_REPETITIONS) ==> q < Verdict(spreads, 0).repTimes
  {
    if q < Verdict(spreads, 0).repTimes {
      NoStopBeforeVerdict(spreads, 0, q);
    }
  }

  /** The verdict is the first pass that stops. */
  lemma VerdictIsFirstStop(spreads: seq<int>, q: nat)
    requires |spreads| == MAX_PASSES && q <= MAX_REPETITIONS
    requires forall p :: 0 <= p < q ==> !Stops(spreads, p)
    requires Stops(spreads, q)
    ensures Verdict(spreads, 0) == Report(spreads[q], q)
  {
    var r := Verdict(spreads, 0);
    if q < r.repTimes {
      NoStopBeforeVerdict(spreads, 0, q);
    }
    assert Stops(spreads, r.repTimes);
  }

  /** A bed whose four corners measure the same stops after the first pass,
      reporting a spread of 0 and a repetition counter of 0. */
  lemma LevelBedStopsAtOnce(scripts: seq<Polls>, at: nat)
    requires Probeable(scripts, at, 4 * MAX_PASSES)
    requires AllEqual(PassDeviations(scripts, at))
    ensures Verdict(PassSpreads(scripts, at), 0) == Report(0, 0)
  {
    SpreadZeroIffLevel(PassDeviations(scripts, at));
    SpreadOfPass(scripts, at, 0, at);
    VerdictIsFirstStop(PassSpreads(scripts, at), 0);
  }

  /** Spreads that never come within MAX_OFFSET run every pass: the loop
      stops on the repetition cap, after MAX_REPETITIONS + 1 passes. */
  lemma NeverLevelRunsToCap(spreads: seq<int>)
    requires |spreads| == MAX_PASSES
    requires forall p :: 0 <= p < MAX_PASSES ==> spreads[p] > MAX_OFFSET
    ensures Verdict(spreads, 0).repTimes == MAX_REPETITIONS
  {
    VerdictIsFirstStop(spreads, MAX_REPETITIONS);
  }

  /** Moving to corner `i` before probing it: G90, then G1 to the corner, then
      a wait for the move to finish. */
  function ApproachEvents(i: nat): seq<Event>
    requires i < 4
  {
    [Gcode(SetAbsolute), Gcode(MoveTo(CORNERS[i].0, CORNERS[i].1)), Synchronize]
  }

  /** The events of measuring the first `n` corners of the pass whose first
      probe is number `at`. */
  function Measurements(scripts: seq<Polls>, at: nat, n: nat): seq<Event>
    requires n <= 4 && Probeable(scripts, at, n)
  {
    if n == 0 then []
    else Measurements(scripts, at, n - 1) + (ApproachEvents(n - 1) + ProbeEvents(scripts[at + n - 1]))
  }

  /** Measuring corner `i` of a pass appends its approach and its probe,
      the probe's readings being number `p = at + i`. */
  lemma MeasurementsStep(scripts: seq<Polls>, at: nat, i: nat, p: nat, t: seq<Event>)
    requires i < 4 && p == at + i && Probeable(scripts, at, i + 1)
    ensures Probeable(scripts, at, i) && p < |scripts|
    ensures t + Measurements(scripts, at, i) + (ApproachEvents(i) + ProbeEvents(scripts[p]))
            == t + Measurements(scripts, at, i + 1)
  {
    MeasurementsUnfold(scripts, at, i);
    AppendAssoc(t, Measurements(scripts, at, i), ApproachEvents(i) + ProbeEvents(scripts[p]));
  }

  /** The first `i + 1` measurements are the first `i` followed by corner `i`. */
  lemma MeasurementsUnfold(scripts: seq<Polls>, at: nat, i: nat)
    requires i < 4 && Probeable(scripts, at, i + 1)
    ensures Measurements(scripts, at, i + 1)
            == Measurements(scripts, at, i) + (ApproachEvents(i) + ProbeEvents(scripts[at + i]))
  {
  }

  /** The pulses of correcting the first `n` corners by the deviations `d`. */
  function Corrections(d: seq<int>, n: nat): seq<Event>
    requires n <= 4 && |d| == 4
  {
    if n == 0 then [] else Corrections(d, n - 1) + DriveSteps(n - 1, d[n - 1], ALL_RELEASED)
  }

  /** One pass: home Z, measure the four corners, then correct the four. */
  function PassEvents(scripts: seq<Polls>, at: nat): seq<Event>
    requires Probeable(scripts, at, 4)
  {
    [Gcode(HomeZ), Synchronize] + Measurements(scripts, at, 4) + Corrections(PassDeviations(scripts, at), 4)
  }

  /** The events of the first `n` passes of a run starting at probe `at`. */
  function Passes(scripts: seq<Polls>, at: nat, n: nat): seq<Event>
    requires Probeable(scripts, at, 4 * n)
  {
    if n == 0 then [] else Passes(scripts, at, n - 1) + PassEvents(scripts, at + 4 * (n - 1))
  }

  /** A run's first `m + 1` passes are its first `m` passes followed by pass
      `m`, whose probes start at `at + 4 * m`. */
  lemma PassesUnfold(scripts: seq<Polls>, at: nat, m: nat)
    requires Probeable(scripts, at, 4 * (m + 1))
    ensures Probeable(scripts, at, 4 * m) && Probeable(scripts, at + 4 * m, 4)
    ensures Passes(scripts, at, m + 1) == Passes(scripts, at, m) + PassEvents(scripts, at + 4 * m)
  {
  }

  /** The same step, appended to a trace `t`, with pass `m`'s first probe
      given as `p`. */
  lemma PassesStep(scripts: seq<Polls>, at: nat, m: nat, p: nat, t: seq<Event>)
    requires p == at + 4 * m && Probeable(scripts, at, 4 * (m + 1))
    ensures Probeable(scripts, at, 4 * m) && Probeable(scripts, p, 4)
    ensures t + Passes(scripts, at, m) + PassEvents(scripts, p) == t + Passes(scripts, at, m + 1)
  {
    PassesUnfold(scripts, at, m);
    AppendAssoc(t, Passes(scripts, at, m), PassEvents(scripts, p));
  }

  /** The events of one probe, appended to a trace `t` piece by piece. */
  lemma ProbeEventsAfter(t: seq<Event>, polls: Polls)
    ensures t + [Gcode(SetRelative)] + Jogs(JogTenths(polls[0]), FirstChange(polls)) + [Gcode(SetAbsolute)]
            == t + ProbeEvents(polls)
  {
    var jogs := Jogs(JogTenths(polls[0]), FirstChange(polls));
    AppendAssoc(t, [Gcode(SetRelative)], jogs);
    AppendAssoc(t, [Gcode(SetRelative)] + jogs, [Gcode(SetAbsolute)]);
  }

  /** What M777 submits before its loop: clear the probe offset (M851 Z0),
      G90, home X and Y, wait. */
  function Prologue(): seq<Event> {
    [Gcode(SetProbeZOffset(0.0)), Gcode(SetAbsolute), Gcode(HomeXY), Synchronize]
  }

  /** Every moveMotor pulse of a pass comes after its last measurement: the
      homing and measuring part of a pass records no such pulse and the
      correcting part records only pulses. */
  lemma {:induction false} MeasureBeforeCorrect(scripts: seq<Polls>, at: nat)
    requires Probeable(scripts, at, 4)
    ensures forall e :: e in [Gcode(HomeZ), Synchronize] + Measurements(scripts, at, 4) ==> !e.StepPulse?
    ensures forall e :: e in Corrections(PassDeviations(scripts, at), 4) ==> e.StepPulse?
  {
    MeasurementsEmitNoCorrectionPulse(scripts, at, 4);
    CorrectionsOnlyPulse(PassDeviations(scripts, at), 4);
  }

  /** Measuring corners records no moveMotor pulse. */
  lemma {:induction false} MeasurementsEmitNoCorrectionPulse(scripts: seq<Polls>, at: nat, n: nat)
    requires n <= 4 && Probeable(scripts, at, n)
    ensures forall e :: e in Measurements(scripts, at, n) ==> !e.StepPulse?
  {
    if n > 0 {
      MeasurementsEmitNoCorrectionPulse(scripts, at, n - 1);
      ProbingEmitsNoCorrectionPulse(scripts[at + n - 1]);
    }
  }

  /** Correcting corner n-1 adds |d[n-1] * 40| pulses, and corrections are
      made of pulses only. */
  lemma {:induction false} CorrectionsOnlyPulse(d: seq<int>, n: nat)
    requires n <= 4 && |d| == 4
    ensures |Corrections(d, n)| == (if n == 0 then 0 else |Corrections(d, n - 1)| + Abs(d[n - 1]) * STEPS_PER_UNIT)
    ensures forall e :: e in Corrections(d, n) ==> e.StepPulse?
  {
    if n > 0 {
      CorrectionsOnlyPulse(d, n - 1);
    }
  }

  /** The Z pins after correcting the first `n` corners by `d`, starting
      from `p`. */
  function PinsAfterCorrections(d: seq<int>, n: nat, p: Pins): Pins
    requires n <= 4 && |d| == 4
  {
    if n == 0 then p else AfterMove(n - 1, d[n - 1], PinsAfterCorrections(d, n - 1, p))
  }

  /** Corrections that drive no motor write no pin; once some motor has been
      driven, the Z steppers are left holding with every motor deselected. */
  lemma {:induction false} CorrectionsEndHeld(d: seq<int>, n: nat, p: Pins)
    requires n <= 4 && |d| == 4
    ensures (forall i :: 0 <= i < n ==> d[i] == 0) ==> PinsAfterCorrections(d, n, p) == p
    ensures (exists i :: 0 <= i < n && d[i] != 0) ==> Held(PinsAfterCorrections(d, n, p))
  {
    if n > 0 {
      CorrectionsEndHeld(d, n - 1, p);
      if d[n - 1] != 0 {
        MoveEndsHeld(n - 1, d[n - 1], PinsAfterCorrections(d, n - 1, p));
      }
    }
  }

  /** The Z pins after the first `n` passes of a run starting at probe `at`,
      starting from `p`. */
  function PinsAfterPasses(scripts: seq<Polls>, at: nat, n: nat, p: Pins): Pins
    requires Probeable(scripts, at, 4 * n)
  {
    if n == 0 then p
    else PinsAfterCorrections(PassDeviations(scripts, at + 4 * (n - 1)), 4, PinsAfterPasses(scripts, at, n - 1, p))
  }

  /** Pass `m`, whose first probe is `q`, applies its corrections to the
      pins the earlier passes left. */
  lemma PinsAfterPassesStep(scripts: seq<Polls>, at: nat, m: nat, q: nat, p: Pins)
    requires q == at + 4 * m && Probeable(scripts, at, 4 * (m + 1))
    ensures Probeable(scripts, q, 4)
    ensures PinsAfterPasses(scripts, at, m + 1, p)
            == PinsAfterCorrections(PassDeviations(scripts, q), 4, PinsAfterPasses(scripts, at, m, p))
  {
  }

  /** One pass of corrections leaves the Z pins as they were or holding. */
  lemma CorrectionsHeldOrUntouched(d: seq<int>, p: Pins)
    requires |d| == 4
    ensures PinsAfterCorrections(d, 4, p) == p || Held(PinsAfterCorrections(d, 4, p))
  {
    CorrectionsEndHeld(d, 4, p);
    if !forall i :: 0 <= i < 4 ==> d[i] == 0 {
      var i :| 0 <= i < 4 && d[i] != 0;
    }
  }

  /** After any number of passes the Z pins as the routine writes them are
      either as they were (no correction drove a motor) or holding with every
      motor deselected. */
  lemma {:induction false} PassesEndHeldOrUntouched(scripts: seq<Polls>, at: nat, n: nat, p: Pins)
    requires Probeable(scripts, at, 4 * n)
    ensures PinsAfterPasses(scripts, at, n, p) == p || Held(PinsAfterPasses(scripts, at, n, p))
  {
    if n > 0 {
      var prev := PinsAfterPasses(scripts, at, n - 1, p);
      PassesEndHeldOrUntouched(scripts, at, n - 1, p);
      CorrectionsHeldOrUntouched(PassDeviations(scripts, at + 4 * (n - 1)), prev);
    }
  }

  class Printer {
    // Z motor lines, as this routine writes them.
    var dir: Level        // Z_DIR_PIN
    var zEnable: int      // Z_ENABLE_PIN
    var stepLine: Level   // Z_STEP_PIN
    var aux03: int        // select line of motor 0
    var aux05: int        // select line of motor 1
    var aux10: int        // select line of motor 2
    var aux09: int        // select line of motor 3
    // Firmware state.
    var positioning: Positioning
    var probeZOffset: real
    /** What the endstop reports during each probe, in the order the probes
        are made; `endstop[k][j]` is the level after `j` jogs of probe `k`. */
    var endstop: seq<Polls>
    /** The number of probes made so far. */
    var probes: nat
    /** Everything submitted or emitted so far, in order. */
    var trace: seq<Event>

    function Selects(): seq<int>
      reads this
    {
      [aux03, aux05, aux10, aux09]
    }

    function Wiring(): Lines
      reads this
    {
      Lines(dir, zEnable, Selects())
    }

    function ZPins(): Pins
      reads this
    {
      Pins(Wiring(), stepLine)
    }

    /** process_subcommands_now: G90 and G91 change the positioning mode,
        M851 the probe Z offset; every command is recorded. The routine
        writes no Z pin here; the motion the command starts is not modelled. */
    method Process(c: Command)
      modifies this
      ensures endstop == old(endstop) && probes == old(probes)
      ensures trace == old(trace) + [Gcode(c)]
      ensures positioning == (if c == SetAbsolute then Absolute
                              else if c == SetRelative then Relative
                              else old(positioning))
      ensures probeZOffset == (if c.SetProbeZOffset? then c.z else old(probeZOffset))
      ensures ZPins() == old(ZPins())
    {
      trace := trace + [Gcode(c)];
      if c == SetAbsolute {
        positioning := Absolute;
      } else if c == SetRelative {
        positioning := Relative;
      } else if c.SetProbeZOffset? {
        probeZOffset := c.z;
      }
    }

    /** planner.synchronize(): waits for the queue; only recorded. The step
        pulses the motion system emits meanwhile are not modelled. */
    method Synchronize()
      modifies this
      ensures endstop == old(endstop) && probes == old(probes)
      ensures trace == old(trace) + [Event.Synchronize]
      ensures positioning == old(positioning) && probeZOffset == old(probeZOffset)
      ensures ZPins() == old(ZPins())
    {
      trace := trace + [Event.Synchronize];
    }

    /** moveMotor: a zero step count touches no line. Otherwise the direction
        follows the sign, Z enable is freed, motor `mot` alone is selected,
        |loo * 40| pulses are emitted, and then the motor is deselected and
        Z enable set to hold. */
    method MoveMotor(mot: int, loo: int)
      modifies this
      ensures endstop == old(endstop) && probes == old(probes)
      ensures loo == 0 ==> unchanged(this)
      ensures ZPins() == AfterMove(mot, loo, old(ZPins()))
      ensures loo != 0 ==> trace == old(trace) + DriveSteps(mot, loo, old(Selects()))
      ensures loo != 0 ==> dir == Direction(loo) && zEnable == Z_HOLD && stepLine == Low
      ensures loo != 0 ==> Selects() == Released(mot, old(Selects()))
      ensures positioning == old(positioning) && probeZOffset == old(probeZOffset)
    {
      if loo == 0 {
        return;
      } else if loo > 0 {
        dir := High;
      } else {
        dir := Low;
      }
      zEnable := Z_FREE;
      SelectMotor(mot);
      EmitPulses(Abs(loo * STEPS_PER_UNIT));
      ReleaseMotor(mot);
      zEnable := Z_HOLD;
    }

    /** The selection block of moveMotor: for a motor 0..3 its line goes to 0
        and the other three to 255; any other index writes nothing. */
    method SelectMotor(mot: int)
      modifies this
      ensures Selects() == Selecting(mot, old(Selects()))
      ensures dir == old(dir) && zEnable == old(zEnable) && stepLine == old(stepLine)
      ensures trace == old(trace) && endstop == old(endstop) && probes == old(probes)
      ensures positioning == old(positioning) && probeZOffset == old(probeZOffset)
    {
      if mot == 0 {
        aux03 := SELECT_ON; aux05 := SELECT_OFF; aux10 := SELECT_OFF; aux09 := SELECT_OFF;
      } else if mot == 1 {
        aux05 := SELECT_ON; aux03 := SELECT_OFF; aux10 := SELECT_OFF; aux09 := SELECT_OFF;
      } else if mot == 2 {
        aux10 := SELECT_ON; aux03 := SELECT_OFF; aux05 := SELECT_OFF; aux09 := SELECT_OFF;
      } else if mot == 3 {
        aux09 := SELECT_ON; aux03 := SELECT_OFF; aux05 := SELECT_OFF; aux10 := SELECT_OFF;
      }
    }

    /** The step loop of moveMotor: `count` pulses on Z_STEP_PIN, high then
        low, with the other lines held as they are. */
    method EmitPulses(count: nat)
      modifies this
      ensures endstop == old(endstop) && probes == old(probes)
      ensures trace == old(trace) + Repeat(StepPulse(old(Wiring())), count)
      ensures Wiring() == old(Wiring())
      ensures count > 0 ==> stepLine == Low
      ensures count == 0 ==> stepLine == old(stepLine)
      ensures positioning == old(positioning) && probeZOffset == old(probeZOffset)
    {
      ghost var driving := Wiring();
      var x := 0;
      while x < count
        invariant 0 <= x <= count
        invariant Wiring() == driving
        invariant x > 0 ==> stepLine == Low
        invariant x == 0 ==> stepLine == old(stepLine)
        invariant trace == old(trace) + Repeat(StepPulse(driving), x)
        invariant positioning == old(positioning) && probeZOffset == old(probeZOffset)
        invariant endstop == old(endstop) && probes == old(probes)
      {
        stepLine := High;
        AppendAssoc(old(trace), Repeat(StepPulse(driving), x), [StepPulse(Wiring())]);
        trace := trace + [StepPulse(Wiring())];
        stepLine := Low;
        x := x + 1;
      }
    }

    /** The release block of moveMotor: the driven motor's line goes back to
        255. */
    method ReleaseMotor(mot: int)
      modifies this
      ensures Selects() == if 0 <= mot < 4 then old(Selects())[mot := SELECT_OFF] else old(Selects())
      ensures dir == old(dir) && zEnable == old(zEnable) && stepLine == old(stepLine)
      ensures trace == old(trace) && endstop == old(endstop) && probes == old(probes)
      ensures positioning == old(positioning) && probeZOffset == old(probeZOffset)
    {
      if mot == 0 {
        aux03 := SELECT_OFF;
      } else if mot == 1 {
        aux05 := SELECT_OFF;
      } else if mot == 2 {
        aux10 := SELECT_OFF;
      } else if mot == 3 {
        aux09 := SELECT_OFF;
      }
    }

    /** One jog of a probe: G1 Z by `tenths` tenths of a millimetre, then a
        wait for the move to finish; `done` jogs were recorded after `start`. */
    method Jog(tenths: int, ghost start: seq<Event>, ghost done: nat)
      requires trace == start + Jogs(tenths, done)
      modifies this
      ensures trace == start + Jogs(tenths, done + 1)
      ensures endstop == old(endstop) && probes == old(probes)
      ensures positioning == old(positioning) && probeZOffset == old(probeZOffset)
      ensures ZPins() == old(ZPins())
    {
      AppendAssoc(start, Jogs(tenths, done), [Gcode(JogZ(tenths))]);
      AppendAssoc(start, Jogs(tenths, done) + [Gcode(JogZ(tenths))], [Event.Synchronize]);
      Process(JogZ(tenths));
      Synchronize();
    }

    /** getDesviation: switch to relative positioning, jog until the endstop
        changes state, counting the jogs, and leave positioning absolute. */
    method GetDeviation() returns (measuredDesv: int)
      requires probes < |endstop|
      modifies this
      ensures endstop == old(endstop) && probes == old(probes) + 1
      ensures measuredDesv == Deviation(endstop[old(probes)])
      ensures positioning == Absolute
      ensures trace == old(trace) + ProbeEvents(endstop[old(probes)])
      ensures probeZOffset == old(probeZOffset)
      ensures ZPins() == old(ZPins())
    {
      var polls := endstop[probes];
      var k := FirstChange(polls);
      measuredDesv := 0;
      Process(SetRelative);
      ghost var start := trace;
      var jogs := 0;
      if polls[0] {
        while polls[jogs]
          invariant 0 <= jogs <= k
          invariant forall j :: 0 <= j < jogs ==> polls[j]
          invariant measuredDesv == -jogs
          invariant trace == start + Jogs(1, jogs)
          invariant endstop == old(endstop) && probes == old(probes)
          invariant probeZOffset == old(probeZOffset)
          invariant ZPins() == old(ZPins())
          decreases k - jogs
        {
          Jog(1, start, jogs);
          measuredDesv := measuredDesv - 1;
          jogs := jogs + 1;
        }
        measuredDesv := measuredDesv + 1;
      } else {
        while !polls[jogs]
          invariant 0 <= jogs <= k
          invariant forall j :: 0 <= j < jogs ==> !polls[j]
          invariant measuredDesv == jogs
          invariant trace == start + Jogs(-1, jogs)
          invariant endstop == old(endstop) && probes == old(probes)
          invariant probeZOffset == old(probeZOffset)
          invariant ZPins() == old(ZPins())
          decreases k - jogs
        {
          Jog(-1, start, jogs);
          measuredDesv := measuredDesv + 1;
          jogs := jogs + 1;
        }
      }
      assert jogs == k;
      ProbeEventsAfter(old(trace), polls);
      Process(SetAbsolute);
      probes := probes + 1;
    }

    /** G90, move to corner `i`, and wait for the move to finish. */
    method ApproachCorner(i: nat)
      requires i < 4
      modifies this
      ensures endstop == old(endstop) && probes == old(probes)
      ensures trace == old(trace) + ApproachEvents(i)
      ensures positioning == Absolute && probeZOffset == old(probeZOffset)
      ensures ZPins() == old(ZPins())
    {
      Process(SetAbsolute);
      Process(MoveTo(CORNERS[i].0, CORNERS[i].1));
      Synchronize();
    }

    /** One corner of the measuring loop: G90, move to corner `i`, wait,
        probe it, and store its deviation in motDesv[i]. Stated for a pass
        whose first probe is `first` and whose earlier corners are recorded
        after `t`. The ghost `n` is `i + 1` under a name of its own, so that
        the verifier can match the ensures about the next corner with the
        caller's loop counter after its increment. */
    method MeasureCorner(motDesv: array<int>, i: nat, ghost n: nat,
                         ghost scripts: seq<Polls>, ghost first: nat, ghost t: seq<Event>)
      requires motDesv.Length == 4 && i < 4 && n == i + 1
      requires Probeable(scripts, first, 4)
      requires endstop == scripts && probes == first + i
      requires trace == t + Measurements(scripts, first, i)
      modifies this, motDesv
      ensures endstop == scripts && probes == first + n
      ensures motDesv[i] == PassDeviations(scripts, first)[i]
      ensures forall j :: 0 <= j < 4 && j != i ==> motDesv[j] == old(motDesv[j])
      ensures trace == t + Measurements(scripts, first, n)
      ensures positioning == Absolute && probeZOffset == old(probeZOffset)
      ensures ZPins() == old(ZPins())
    {
      ghost var at := probes;
      MeasurementsStep(scripts, first, i, at, t);
      ApproachCorner(i);
      var d := GetDeviation();
      AppendAssoc(old(trace), ApproachEvents(i), ProbeEvents(scripts[at]));
      motDesv[i] := d;
    }

    /** The measuring half of one pass: probe the four corners in turn and
        store the deviations. */
    method MeasureCorners(motDesv: array<int>)
      requires motDesv.Length == 4
      requires Probeable(endstop, probes, 4)
      modifies this, motDesv
      ensures endstop == old(endstop) && probes == old(probes) + 4
      ensures motDesv[..] == PassDeviations(endstop, old(probes))
      ensures trace == old(trace) + Measurements(endstop, old(probes), 4)
      ensures positioning == Absolute && probeZOffset == old(probeZOffset)
      ensures ZPins() == old(ZPins())
    {
      ghost var scripts := endstop;
      ghost var first := probes;
      ghost var devs := PassDeviations(scripts, first);
      var i := 0;
      while i < 4
        invariant 0 <= i <= 4
        invariant endstop == scripts && probes == first + i
        invariant forall j :: 0 <= j < i ==> motDesv[j] == devs[j]
        invariant trace == old(trace) + Measurements(scripts, first, i)
        invariant i > 0 ==> positioning == Absolute
        invariant probeZOffset == old(probeZOffset)
        invariant ZPins() == old(ZPins())
      {
        // `n` names `i + 1` so the verifier links the callee's ensures
        // to the invariant at the incremented `i`.
        ghost var n := i + 1;
        MeasureCorner(motDesv, i, n, scripts, first, old(trace));
        i := i + 1;
        assert i == n;
      }
    }

    /** The correcting half of one pass: drive motor i by the deviation
        measured at corner i, for i = 0..3. */
    method CorrectCorners(motDesv: array<int>, ghost devs: seq<int>)
      requires motDesv.Length == 4 && motDesv[..] == devs
      modifies this
      ensures endstop == old(endstop) && probes == old(probes)
      ensures trace == old(trace) + Corrections(devs, 4)
      ensures ZPins() == PinsAfterCorrections(devs, 4, old(ZPins()))
      ensures positioning == old(positioning) && probeZOffset == old(probeZOffset)
    {
      for i := 0 to 4
        invariant trace == old(trace) + Corrections(devs, i)
        invariant ZPins() == PinsAfterCorrections(devs, i, old(ZPins()))
        invariant endstop == old(endstop) && probes == old(probes)
        invariant positioning == old(positioning) && probeZOffset == old(probeZOffset)
      {
        DriveStepsForMotor(i, motDesv[i], Selects());
        AppendAssoc(old(trace), Corrections(devs, i), DriveSteps(i, devs[i], ALL_RELEASED));
        MoveMotor(i, motDesv[i]);
      }
    }

    /** The first part of a pass: G28 Z, a wait for the homing to finish,
        and the four corner measurements. */
    method MeasurePass(motDesv: array<int>)
      requires motDesv.Length == 4
      requires Probeable(endstop, probes, 4)
      modifies this, motDesv
      ensures endstop == old(endstop) && probes == old(probes) + 4
      ensures motDesv[..] == PassDeviations(endstop, old(probes))
      ensures trace == old(trace) + ([Gcode(HomeZ), Event.Synchronize] + Measurements(endstop, old(probes), 4))
      ensures positioning == Absolute && probeZOffset == old(probeZOffset)
      ensures ZPins() == old(ZPins())
    {
      Process(HomeZ);
      Synchronize();
      AppendAssoc(old(trace), [Gcode(HomeZ)], [Event.Synchronize]);
      ghost var m := Measurements(endstop, probes, 4);
      MeasureCorners(motDesv);
      AppendAssoc(old(trace), [Gcode(HomeZ), Event.Synchronize], m);
    }

    /** One pass of the M777 loop: home Z, measure the four corners, correct
        the four motors, and compute the spread. */
    method LevelingPass(motDesv: array<int>) returns (heightDiff: int)
      requires motDesv.Length == 4
      requires Probeable(endstop, probes, 4)
      modifies this, motDesv
      ensures endstop == old(endstop) && probes == old(probes) + 4
      ensures heightDiff == Spread(PassDeviations(endstop, old(probes)))
      ensures trace == old(trace) + PassEvents(endstop, old(probes))
      ensures ZPins() == PinsAfterCorrections(PassDeviations(endstop, old(probes)), 4, old(ZPins()))
      ensures positioning == Absolute && probeZOffset == old(probeZOffset)
    {
      ghost var head := [Gcode(HomeZ), Event.Synchronize];
      ghost var m := Measurements(endstop, probes, 4);
      ghost var devs := PassDeviations(endstop, probes);
      ghost var c := Corrections(devs, 4);
      MeasurePass(motDesv);
      CorrectCorners(motDesv, devs);
      AppendAssoc(old(trace), head + m, c);
      assert motDesv[..] == devs;
      heightDiff := HeightDiff(motDesv);
    }

    /** The set-up before the loop: M851 Z0 clears the probe offset, G90,
        G28 X Y, and a wait for the homing to finish. */
    method StartLeveling()
      modifies this
      ensures endstop == old(endstop) && probes == old(probes)
      ensures trace == old(trace) + Prologue()
      ensures positioning == Absolute && probeZOffset == 0.0
      ensures ZPins() == old(ZPins())
    {
      Process(SetProbeZOffset(0.0));
      Process(SetAbsolute);
      Process(HomeXY);
      Synchronize();
    }

    /** M777: clear the probe offset, home X and Y, run the leveling loop,
        and finally restore the probe offset captured at the start. */
    method M777() returns (report: Report)
      requires Probeable(endstop, probes, 4 * MAX_PASSES)
      modifies this
      ensures endstop == old(endstop) && probes == old(probes) + 4 * (report.repTimes + 1)
      ensures report == Verdict(PassSpreads(endstop, old(probes)), 0)
      ensures probeZOffset == old(probeZOffset)
      ensures positioning == Absolute
      ensures trace == old(trace) + Prologue() + Passes(endstop, old(probes), report.repTimes + 1)
                       + [Gcode(SetProbeZOffset(old(probeZOffset)))]
      ensures ZPins() == PinsAfterPasses(endstop, old(probes), report.repTimes + 1, old(ZPins()))
    {
      var savedOffset := probeZOffset;
      StartLeveling();
      report := LevelingLoop();
      Process(SetProbeZOffset(savedOffset));
    }

    /** Pass `m` of the control loop, when the passes before it are recorded
        after `t`: the trace gains the pass and the spread is the one the
        run's pass `m` measures. The ghost `n` is `m + 1` under a name of its
        own, for the same reason as in MeasureCorner. */
    method RunPass(motDesv: array<int>, ghost scripts: seq<Polls>, ghost first: nat,
                   m: nat, ghost n: nat, ghost t: seq<Event>, ghost pins: Pins)
      returns (heightDiff: int)
      requires motDesv.Length == 4 && m < MAX_PASSES && n == m + 1
      requires Probeable(scripts, first, 4 * MAX_PASSES)
      requires endstop == scripts && probes == first + 4 * m
      requires trace == t + Passes(scripts, first, m)
      requires ZPins() == PinsAfterPasses(scripts, first, m, pins)
      modifies this, motDesv
      ensures endstop == scripts && probes == first + 4 * n
      ensures trace == t + Passes(scripts, first, n)
      ensures ZPins() == PinsAfterPasses(scripts, first, n, pins)
      ensures heightDiff == PassSpreads(scripts, first)[m]
      ensures positioning == Absolute && probeZOffset == old(probeZOffset)
    {
      ghost var at := probes;
      PassesStep(scripts, first, m, at, t);
      PinsAfterPassesStep(scripts, first, m, at, pins);
      heightDiff := LevelingPass(motDesv);
      SpreadOfPass(scripts, first, m, at);
    }

    /** The control loop of M777: pass after pass home Z, measure the four
        corners, correct the four motors, and stop once the spread is within
        MAX_OFFSET or the repetition counter has reached MAX_REPETITIONS. The
        report is the verdict of the spreads the passes measure. */
    method LevelingLoop() returns (report: Report)
      requires Probeable(endstop, probes, 4 * MAX_PASSES)
      modifies this
      ensures endstop == old(endstop) && probes == old(probes) + 4 * (report.repTimes + 1)
      ensures report == Verdict(PassSpreads(endstop, old(probes)), 0)
      ensures trace == old(trace) + Passes(endstop, old(probes), report.repTimes + 1)
      ensures ZPins() == PinsAfterPasses(endstop, old(probes), report.repTimes + 1, old(ZPins()))
      ensures positioning == Absolute && probeZOffset == old(probeZOffset)
    {
      ghost var first := probes;
      ghost var scripts := endstop;
      ghost var spreads := PassSpreads(scripts, first);
      ghost var verdict := Verdict(spreads, 0);
      var repTimes: nat := 0;
      var run := true;
      var motDesv := new int[4];
      var heightDiff := 0;
      report := Report(0, 0);
      while run
        invariant repTimes <= MAX_PASSES
        invariant run ==> repTimes <= verdict.repTimes
        invariant !run ==> report == verdict && repTimes == verdict.repTimes + 1
        invariant endstop == scripts && probes == first + 4 * repTimes
        invariant trace == old(trace) + Passes(scripts, first, repTimes)
        invariant ZPins() == PinsAfterPasses(scripts, first, repTimes, old(ZPins()))
        invariant repTimes > 0 ==> positioning == Absolute
        invariant probeZOffset == old(probeZOffset)
        decreases MAX_PASSES - repTimes
      {
        // `n` names `repTimes + 1` so the verifier links RunPass's ensures
        // to the invariant at the incremented counter.
        ghost var n := repTimes + 1;
        heightDiff := RunPass(motDesv, scripts, first, repTimes, n, old(trace), old(ZPins()));
        VerdictStep(spreads, repTimes, heightDiff);
        if heightDiff <= MAX_OFFSET || repTimes == MAX_REPETITIONS {
          run := false;
          report := Report(heightDiff, repTimes);
        }
        repTimes := repTimes + 1;
        assert repTimes == n;
      }
    }
  }
}
