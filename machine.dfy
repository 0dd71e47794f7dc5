// The vocabulary of the leveling routine: pin levels, the G-code commands it
// submits, and the events it leaves behind. Motion commands, queue
// synchronisation and step pulses are recorded as events in one trace, in the
// order the firmware issues them; the G-code text itself is not modelled.
// The motion system carries out homing, moves and jogs by pulsing the same Z
// step, direction and enable pins; those writes are not modelled. The pins
// and pulses here are the ones the leveling routine writes itself.

module Machine {
  import opened Endstop

  /** A digital output level. On Z_DIR_PIN, High is "up" and Low is "down". */
  datatype Level = Low | High

  /** The positioning mode set by G90 (absolute) and G91 (relative). */
  datatype Positioning = Absolute | Relative

  /** The G-code commands the routine submits through the command processor. */
  datatype Command =
    | SetAbsolute                    // G90
    | SetRelative                    // G91
    | HomeXY                         // G28 X Y
    | HomeZ                          // G28 Z
    | MoveTo(x: int, y: int)         // G1 X.. Y.. Z0 F1300
    | JogZ(tenths: int)              // G1 Z<tenths/10> F500 (relative)
    | SetProbeZOffset(z: real)       // M851 Z..

  /** The levels of the Z motor lines: direction, shared Z enable (255 frees
      every Z stepper, 0 holds them), and the four motor-select lines in motor
      order (AUX2_03, AUX2_05, AUX2_10, AUX2_09; 0 selects a motor, 255
      deselects it). */
  datatype Lines = Lines(dir: Level, zEnable: int, select: seq<int>)

  datatype Event =
    | Gcode(cmd: Command)            // a command handed to the command processor
    | Synchronize                    // planner.synchronize(): wait for the queue
    | StepPulse(lines: Lines)        // one moveMotor pulse on Z_STEP_PIN, with the lines as it set them

  /** Step pulses per deviation unit: 400 steps/mm reduced to 40 per 0.1 mm. */
  const STEPS_PER_UNIT: nat := 40
  const Z_FREE: int := 255
  const Z_HOLD: int := 0
  const SELECT_ON: int := 0
  const SELECT_OFF: int := 255
  const ALL_RELEASED: seq<int> := [SELECT_OFF, SELECT_OFF, SELECT_OFF, SELECT_OFF]

  function Abs(x: int): nat {
    if x < 0 then -x else x
  }

  /** The direction written for a non-zero step count: up for positive. */
  function Direction(loo: int): Level {
    if loo > 0 then High else Low
  }

  /** Exactly motor `mot` is selected: its line is 0, the other three are 255. */
  predicate OnlySelected(select: seq<int>, mot: int) {
    |select| == 4 && 0 <= mot < 4 &&
    forall i :: 0 <= i < 4 ==> select[i] == if i == mot then SELECT_ON else SELECT_OFF
  }

  /** The select lines while motor `mot` is driven: for a motor index 0..3 the
      branch for that motor writes all four lines; any other index writes none. */
  function Selecting(mot: int, before: seq<int>): (s: seq<int>)
    ensures 0 <= mot < 4 ==> OnlySelected(s, mot)
    ensures !(0 <= mot < 4) ==> s == before
  {
    if mot == 0 then [SELECT_ON, SELECT_OFF, SELECT_OFF, SELECT_OFF]
    else if mot == 1 then [SELECT_OFF, SELECT_ON, SELECT_OFF, SELECT_OFF]
    else if mot == 2 then [SELECT_OFF, SELECT_OFF, SELECT_ON, SELECT_OFF]
    else if mot == 3 then [SELECT_OFF, SELECT_OFF, SELECT_OFF, SELECT_ON]
    else before
  }

  /** At most one select line is ever low while a motor is selected. */
  lemma SelectionIsExclusive(select: seq<int>, mot: int)
    requires OnlySelected(select, mot)
    ensures forall i, j :: 0 <= i < 4 && 0 <= j < 4 && select[i] == SELECT_ON && select[j] == SELECT_ON ==> i == j == mot
  {
    forall i, j | 0 <= i < 4 && 0 <= j < 4 && select[i] == SELECT_ON && select[j] == SELECT_ON
      ensures i == j == mot
    {
      assert select[i] == if i == mot then SELECT_ON else SELECT_OFF;
      assert select[j] == if j == mot then SELECT_ON else SELECT_OFF;
    }
  }

  /** The select lines once the driven motor has been deselected: for a motor
      0..3 all four lines end at 255; any other index leaves them as they were. */
  function Released(mot: int, before: seq<int>): (s: seq<int>)
    ensures 0 <= mot < 4 ==> |s| == 4 && forall i :: 0 <= i < 4 ==> s[i] == SELECT_OFF
    ensures !(0 <= mot < 4) ==> s == before
  {
    if 0 <= mot < 4 then Selecting(mot, before)[mot := SELECT_OFF] else before
  }

  /** The Z motor lines together with the level of Z_STEP_PIN, as the
      leveling routine itself last wrote them. */
  datatype Pins = Pins(lines: Lines, step: Level)

  /** The pins moveMotor(mot, loo) leaves: a zero step count writes no pin;
      otherwise the direction follows the sign of `loo`, Z enable is back at
      0 (holding), the step line is low and the driven motor is deselected. */
  function AfterMove(mot: int, loo: int, p: Pins): Pins {
    if loo == 0 then p else Pins(Lines(Direction(loo), Z_HOLD, Released(mot, p.lines.select)), Low)
  }

  /** Every Z stepper holds, no motor is selected and the step line is low. */
  predicate Held(p: Pins) {
    p.lines.zEnable == Z_HOLD && p.lines.select == ALL_RELEASED && p.step == Low
  }

  /** Driving a motor 0..3 by a non-zero count leaves the Z steppers
      holding with every motor deselected, whatever the pins were before. */
  lemma MoveEndsHeld(mot: int, loo: int, p: Pins)
    requires 0 <= mot < 4 && loo != 0
    ensures Held(AfterMove(mot, loo, p))
  {
    var s := Released(mot, p.lines.select);
    assert s == ALL_RELEASED by {
      assert s[0] == SELECT_OFF && s[1] == SELECT_OFF && s[2] == SELECT_OFF && s[3] == SELECT_OFF;
    }
  }

  /** `n` copies of `e`. */
  function Repeat(e: Event, n: nat): (r: seq<Event>)
    ensures |r| == n && forall i :: 0 <= i < n ==> r[i] == e
  {
    if n == 0 then [] else Repeat(e, n - 1) + [e]
  }

  /** The step pulses moveMotor(mot, loo) emits when the select lines were
      `before`: |loo * 40| pulses, each with the direction given by the sign
      of `loo`, Z enable freed, and (for a motor 0..3) exactly that motor
      selected. */
  function DriveSteps(mot: int, loo: int, before: seq<int>): (pulses: seq<Event>)
    ensures |pulses| == Abs(loo) * STEPS_PER_UNIT
    ensures loo == 0 ==> pulses == []
    ensures forall e :: e in pulses ==>
              e.StepPulse? && e.lines.dir == Direction(loo) && e.lines.zEnable == Z_FREE &&
              (0 <= mot < 4 ==> OnlySelected(e.lines.select, mot))
  {
    assert Abs(loo * STEPS_PER_UNIT) == Abs(loo) * STEPS_PER_UNIT;
    Repeat(StepPulse(Lines(Direction(loo), Z_FREE, Selecting(mot, before))), Abs(loo * STEPS_PER_UNIT))
  }

  /** For a motor 0..3 the pulses do not depend on the select levels before. */
  lemma DriveStepsForMotor(mot: int, loo: int, before: seq<int>)
    requires 0 <= mot < 4
    ensures DriveSteps(mot, loo, before) == DriveSteps(mot, loo, ALL_RELEASED)
  {
    assert Selecting(mot, before) == Selecting(mot, ALL_RELEASED);
  }

  lemma AppendAssoc(a: seq<Event>, b: seq<Event>, c: seq<Event>)
    ensures (a + b) + c == a + (b + c)
  {
  }

  /** `n` relative jogs of `tenths` tenths of a millimetre, each followed by a
      wait for the motion queue to drain. */
  function Jogs(tenths: int, n: nat): (r: seq<Event>)
    ensures |r| == 2 * n
    ensures forall i :: 0 <= i < n ==> r[2 * i] == Gcode(JogZ(tenths)) && r[2 * i + 1] == Synchronize
  {
    if n == 0 then [] else Jogs(tenths, n - 1) + [Gcode(JogZ(tenths))] + [Synchronize]
  }

  /** The jog direction: +0.1 mm while the endstop is triggered, -0.1 mm
      while it is not. */
  function JogTenths(triggered: bool): int {
    if triggered then 1 else -1
  }

  /** What one getDesviation call submits: G91, one jog per poll until the
      endstop changes state, then G90. */
  function ProbeEvents(polls: seq<bool>): (r: seq<Event>)
    requires Settles(polls)
    ensures |r| == 2 * FirstChange(polls) + 2
    ensures r[0] == Gcode(SetRelative) && r[|r| - 1] == Gcode(SetAbsolute)
  {
    [Gcode(SetRelative)] + Jogs(JogTenths(polls[0]), FirstChange(polls)) + [Gcode(SetAbsolute)]
  }

  /** A probe records commands and waits only, no moveMotor pulse; the jogs
      it submits are carried out by the motion system, which is not modelled. */
  lemma {:induction false} ProbingEmitsNoCorrectionPulse(polls: seq<bool>)
    requires Settles(polls)
    ensures forall e :: e in ProbeEvents(polls) ==> !e.StepPulse?
  {
    var n := FirstChange(polls);
    var jogs := Jogs(JogTenths(polls[0]), n);
    forall e | e in jogs ensures !e.StepPulse? {
      var i :| 0 <= i < |jogs| && jogs[i] == e;
      assert jogs[2 * (i / 2)] == Gcode(JogZ(JogTenths(polls[0])));
      assert jogs[2 * (i / 2) + 1] == Synchronize;
    }
  }
}
