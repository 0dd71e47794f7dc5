# M777 hardware bed leveling, modelled in Dafny

M777 levels the bed of a printer whose four Z motors share one step and
one direction line. Four select lines (AUX2_03, AUX2_05, AUX2_10, AUX2_09)
decide which motor a step pulse reaches. The command runs in three stages:

- It clears the probe Z offset and homes X and Y.
- It repeats passes. Each pass homes Z, then visits the four corner
  positions. At each corner it jogs 0.1 mm at a time until the shared Z-min
  endstop changes state, counting the jogs as the corner's deviation. It
  then drives each motor by 40 step pulses per deviation unit.
- It stops when the spread of the four deviations (maximum minus minimum)
  is at most 2, or when the repetition counter has reached 5. It then
  restores the probe offset it saved at the start.

The project has four modules:

- `Endstop` (`endstop.dfy`): what one probe measures. The endstop is given
  as the sequence of levels it reports after 0, 1, 2, … jogs. The type
  `Polls` holds the readings that change state at some point.
  `Deviation` is the value getDesviation returns for such readings.
- `Machine` (`machine.dfy`): the vocabulary shared by the other modules:
  - pin levels and the G-code commands the routine submits;
  - the events recorded in the trace: submitted commands, queue waits, and
    the step pulses moveMotor emits, each carrying the state of the lines
    when it was emitted (the pulses of homing, moves and jogs, which the
    motion system emits, are not modelled);
  - the pulses `moveMotor` emits, the Z pin levels it leaves, and the
    events of one probe.
- `CornerSpread` (`spread.dfy`): getMin and getMax as loops over the
  four-entry array. Each is proved against a running minimum or maximum
  function. `HeightDiff` subtracts the two, giving the spread.
- `Leveling` (`leveling.dfy`): the class `Printer` holds the state M777
  changes in place:
  - the Z direction, enable and step lines and the four select lines, as
    the routine itself writes them;
  - the positioning mode and the probe Z offset;
  - the endstop readings of every probe still to be made;
  - the trace of everything submitted or emitted.

  Each routine of `leveling.dfy` is a method of `Printer`. Each method is proved
  against functions that give the trace a whole pass or a whole run must
  leave. The function `Verdict` says where the control loop stops for
  given per-pass spreads. Lemmas prove that it stops at the first pass
  within tolerance, that it stops after at most six passes, that a level
  bed stops after one pass, and that a bed that never comes within
  tolerance runs to the cap.

Two facts about the code shape what the model proves:

- The counter starts at 0 and is compared with 5 before it is incremented,
  so a run makes up to six passes.
- The endstop is read once to choose the branch and again for the loop's
  first test. The model gives both reads the same level (see "Left out").
  Under that assumption a corner whose endstop starts untriggered measures
  at least 1, never 0, because the loop's first test sees the untriggered
  level and jogs at least once.

## Model

| member | source | states |
|---|---|---|
| Endstop.FirstChange | Marlin/src/gcode/bedlevel/M777.cpp:96-109 | the jog count at which the endstop first reports a level other than its starting one: every earlier reading equals the first one, and this one differs |
| Endstop.Deviation | Marlin/src/gcode/bedlevel/M777.cpp:93-112 | the deviation of a probe is at most 0 when the endstop starts triggered and at least 1 when it starts untriggered |
| Endstop.DeviationCountsJogs | Marlin/src/gcode/bedlevel/M777.cpp:96-109 | if the endstop first changes state after k jogs, the deviation is 1 - k for a triggered start and k for an untriggered one |
| Endstop.ReleasedAfterThreeJogs | Marlin/src/gcode/bedlevel/M777.cpp:96-102 | starting triggered and releasing after the third jog gives -2: three decrements, then the +1 compensation |
| Endstop.TriggeredAfterTwoJogs | Marlin/src/gcode/bedlevel/M777.cpp:103-108 | starting untriggered and triggering after the second jog gives 2 |
| Endstop.TriggersAtOnce | Marlin/src/gcode/bedlevel/M777.cpp:103-108 | readings that trigger after one jog settle and give a deviation of 1 |
| Machine.Selecting | Marlin/src/gcode/bedlevel/M777.cpp:57-77 | for a motor index 0..3 exactly that motor's select line is 0 and the other three are 255; any other index leaves the lines as they were |
| Machine.SelectionIsExclusive | Marlin/src/gcode/bedlevel/M777.cpp:57-77 | while a motor is selected no second select line is low |
| Machine.Released | Marlin/src/gcode/bedlevel/M777.cpp:85-89 | after a motor 0..3 is deselected all four select lines are 255; any other index writes nothing |
| Machine.DriveSteps | Marlin/src/gcode/bedlevel/M777.cpp:78-84 | moveMotor emits abs(loo) * 40 pulses, none for loo = 0; each pulse has the direction of loo's sign, Z enable at 255 and, for a motor 0..3, only that motor selected |
| Machine.DriveStepsForMotor | Marlin/src/gcode/bedlevel/M777.cpp:57-84 | for a motor 0..3 the pulses do not depend on the select levels left by earlier calls |
| Machine.Jogs | Marlin/src/gcode/bedlevel/M777.cpp:97-101 | n jogs are 2n events, each jog command followed by a queue wait |
| Machine.ProbeEvents | Marlin/src/gcode/bedlevel/M777.cpp:95-110 | a probe submits G91 first and G90 last, with one jog and one wait per jog counted in between |
| Machine.MoveEndsHeld | Marlin/src/gcode/bedlevel/M777.cpp:85-90 | after a call with loo != 0 and a motor 0..3, Z enable is 0, every select line is 255 and the step line is low |
| Machine.ProbingEmitsNoCorrectionPulse | Marlin/src/gcode/bedlevel/M777.cpp:93-112 | probing a corner records commands and waits only, no moveMotor pulse |
| CornerSpread.MinOf | Marlin/src/gcode/bedlevel/M777.cpp:114-120 | the running minimum of a scan is no larger than any element |
| CornerSpread.MaxOf | Marlin/src/gcode/bedlevel/M777.cpp:122-128 | the running maximum of a scan is no smaller than any element |
| CornerSpread.MinOfIsElement | Marlin/src/gcode/bedlevel/M777.cpp:114-120 | the running minimum is one of the scanned values |
| CornerSpread.MaxOfIsElement | Marlin/src/gcode/bedlevel/M777.cpp:122-128 | the running maximum is one of the scanned values |
| CornerSpread.GetMin | Marlin/src/gcode/bedlevel/M777.cpp:114-120 | getMin returns an element of array[0..3] that no element is below |
| CornerSpread.GetMax | Marlin/src/gcode/bedlevel/M777.cpp:122-128 | getMax returns an element of array[0..3] that no element is above |
| CornerSpread.Spread | Marlin/src/gcode/bedlevel/M777.cpp:175 | heightDiff is never negative |
| CornerSpread.HeightDiff | Marlin/src/gcode/bedlevel/M777.cpp:175 | heightDiff = getMax - getMin is the Spread of the four deviations |
| CornerSpread.SpreadZeroIffLevel | Marlin/src/gcode/bedlevel/M777.cpp:175-176 | heightDiff is 0 exactly when the four deviations are all equal |
| Leveling.PassDeviations | Marlin/src/gcode/bedlevel/M777.cpp:164-170 | a pass measures four deviations, corner i from the i-th probe of that pass |
| Leveling.SpreadOfPass | Marlin/src/gcode/bedlevel/M777.cpp:161-175 | pass m of a run measures the spread of the four probes that start at probe 4m of the run |
| Leveling.Verdict | Marlin/src/gcode/bedlevel/M777.cpp:176-187 | the loop stops at a pass whose spread is at most 2, or at the latest when the counter reaches 5; the report holds that pass's spread and counter |
| Leveling.NoStopBeforeVerdict | Marlin/src/gcode/bedlevel/M777.cpp:161-188 | no pass before the verdict's pass meets the stop condition |
| Leveling.VerdictStep | Marlin/src/gcode/bedlevel/M777.cpp:176-187 | one evaluation of the stop condition: when it holds, the verdict is this pass; when it fails, the verdict lies further on |
| Leveling.VerdictIsFirstStop | Marlin/src/gcode/bedlevel/M777.cpp:161-188 | the verdict is the first pass that meets the stop condition |
| Leveling.LevelBedStopsAtOnce | Marlin/src/gcode/bedlevel/M777.cpp:175-177 | if all four corners of the first pass measure the same, the run stops after that pass, reporting spread 0 and counter 0 |
| Leveling.NeverLevelRunsToCap | Marlin/src/gcode/bedlevel/M777.cpp:176-187 | if no pass comes within tolerance, the run stops on the cap, with the counter at 5 after six passes |
| Leveling.MeasureBeforeCorrect | Marlin/src/gcode/bedlevel/M777.cpp:161-173 | within a pass, homing and measuring record no moveMotor pulse, and the correcting part consists only of moveMotor pulses |
| Leveling.MeasurementsEmitNoCorrectionPulse | Marlin/src/gcode/bedlevel/M777.cpp:164-170 | measuring any number of corners records no moveMotor pulse |
| Leveling.CorrectionsOnlyPulse | Marlin/src/gcode/bedlevel/M777.cpp:171-173 | correcting corner n-1 adds abs(deviation) * 40 events, and every correction event is a step pulse |
| Leveling.CorrectionsEndHeld | Marlin/src/gcode/bedlevel/M777.cpp:171-173 | corrections whose deviations are all 0 leave the Z pins as they were; once a deviation is nonzero the Z steppers end holding with every motor deselected |
| Leveling.CorrectionsHeldOrUntouched | Marlin/src/gcode/bedlevel/M777.cpp:171-173 | after the four corrections of a pass the Z pins the routine writes are unchanged or holding with every motor deselected |
| Leveling.PassesEndHeldOrUntouched | Marlin/src/gcode/bedlevel/M777.cpp:161-188 | after any number of passes the Z pins the routine writes are unchanged or holding with every motor deselected |
| Leveling.Printer.Process | Marlin/src/gcode/bedlevel/M777.cpp:150-153 | a submitted command is recorded; G90 and G91 set the positioning mode, M851 sets the probe offset, and nothing else changes; the routine writes no Z pin itself |
| Leveling.Printer.Synchronize | Marlin/src/gcode/bedlevel/M777.cpp:154 | a queue wait is recorded and changes no other state; the routine writes no Z pin itself |
| Leveling.Printer.MoveMotor | Marlin/src/gcode/bedlevel/M777.cpp:48-91 | loo = 0 changes nothing; otherwise the pulses of DriveSteps are emitted, the direction follows loo's sign, Z enable ends at 0, the step line ends low and the driven motor is deselected; the new Z pins are AfterMove of the old ones |
| Leveling.Printer.SelectMotor | Marlin/src/gcode/bedlevel/M777.cpp:57-77 | the select lines become those of Selecting, and nothing else changes |
| Leveling.Printer.EmitPulses | Marlin/src/gcode/bedlevel/M777.cpp:78-84 | count pulses are emitted with the lines held as they were, and the step line ends low |
| Leveling.Printer.ReleaseMotor | Marlin/src/gcode/bedlevel/M777.cpp:85-89 | the driven motor's select line goes back to 255, and nothing else changes |
| Leveling.Printer.Jog | Marlin/src/gcode/bedlevel/M777.cpp:98-99 | one jog command and one queue wait are appended to the probe's jogs; the routine writes no Z pin itself |
| Leveling.Printer.GetDeviation | Marlin/src/gcode/bedlevel/M777.cpp:93-112 | getDesviation returns the Deviation of the current probe's readings, records that probe's events, consumes one probe and leaves positioning absolute; the routine writes no Z pin itself |
| Leveling.Printer.ApproachCorner | Marlin/src/gcode/bedlevel/M777.cpp:165-168 | G90, a move to the corner's position, and a queue wait are recorded, and positioning ends absolute; the routine writes no Z pin itself |
| Leveling.Printer.MeasureCorner | Marlin/src/gcode/bedlevel/M777.cpp:164-170 | corner i is approached and probed, motDesv[i] receives its deviation, the other entries are unchanged, and the trace gains corner i's events; the routine writes no Z pin itself |
| Leveling.Printer.MeasurePass | Marlin/src/gcode/bedlevel/M777.cpp:162-170 | G28 Z, a queue wait and the four corner measurements are recorded in order, motDesv holds the pass's deviations; the routine writes no Z pin itself |
| Leveling.Printer.MeasureCorners | Marlin/src/gcode/bedlevel/M777.cpp:164-170 | motDesv holds the four deviations of the pass, four probes are consumed, and the trace gains the four approaches and probes; the routine writes no Z pin itself |
| Leveling.Printer.CorrectCorners | Marlin/src/gcode/bedlevel/M777.cpp:171-173 | motor i is driven by motDesv[i] for i = 0..3, and the trace gains exactly those pulses; the Z pins end as PinsAfterCorrections of the deviations and the old pins |
| Leveling.Printer.LevelingPass | Marlin/src/gcode/bedlevel/M777.cpp:161-175 | one pass returns the spread of its four deviations and records home Z, the measurements and the corrections, in that order; the Z pins end as the pass's corrections leave them |
| Leveling.Printer.StartLeveling | Marlin/src/gcode/bedlevel/M777.cpp:150-154 | M851 Z0, G90, G28 X Y and a wait are recorded, the probe offset becomes 0 and positioning absolute; the routine writes no Z pin itself |
| Leveling.Printer.RunPass | Marlin/src/gcode/bedlevel/M777.cpp:161-175 | pass m of a run appends that pass's events after the earlier passes and returns the spread the run's pass m measures; the Z pins end as PinsAfterPasses for m + 1 passes |
| Leveling.Printer.LevelingLoop | Marlin/src/gcode/bedlevel/M777.cpp:155-188 | the loop's report is the Verdict of the per-pass spreads; it has made repTimes + 1 passes, consumed four probes per pass and recorded exactly those passes; the Z pins end as PinsAfterPasses for repTimes + 1 passes |
| Leveling.Printer.M777 | Marlin/src/gcode/bedlevel/M777.cpp:148-192 | M777 reports the verdict, records the set-up, the passes and the restoring M851 in order, and ends with the saved probe offset and absolute positioning; the Z pins end as PinsAfterPasses of the passes made |

## Left out

- Serial output is not modelled: the start and end messages, printDesviationSummary (lines 137-146, 174) and the report at lines 178-185. It changes no state the routine uses.
- aBitDown (lines 130-135) is not modelled, because nothing calls it.
- The pulse delays (`delay`) in the step loop are not modelled; they are timing only. The call to `idle`, which runs the firmware's background housekeeping, is treated as a no-op.
- G-code text is modelled as `Command` values. The formatting of the move and restore commands with `sprintf_P`/`dtostrf` is not modelled. Homing, moves and jogs are recorded, not simulated.
- Leveling.Printer.M777: restores the saved probe offset exactly. The firmware prints it with two decimals (`dtostrf(..., 6, 2, ...)`), so the M851 it submits carries the offset rounded to hundredths.
- The endstop is modelled by scripted readings, one sequence per probe, in `Printer.endstop`. How a correction moves the bed, and so changes the next pass's readings, is not modelled: the readings of later probes are independent inputs.
- Leveling.Printer.GetDeviation: requires a scripted reading for the current probe, of type `Polls` (its level changes after some number of jogs). The firmware polls without a bound and would jog forever if the endstop never changed state.
- Leveling.Printer.M777: requires readings for 24 probes, the most a run can make (six passes of four corners). The firmware places no such bound; the model needs the readings to be given.
- Leveling.Printer.MoveMotor: uses unbounded integers for `loo * 40`. On the AVR target `int` is 16 bits, so that product would overflow for deviations beyond 819 jogs (81.9 mm of bed height difference).
- CornerSpread.GetMin: returns an int. The firmware returns float and subtracts the two results; for deviations of this size the conversion is exact, so the model keeps ints.
- CornerSpread.GetMax: returns an int, for the same reason as GetMin.
- Endstop.Deviation: the firmware reads Z_MIN_PIN once to choose the branch (line 96) and again for the loop's first test (lines 97 and 104); the model gives both reads the level `polls[0]`. If the level changed between the two reads, the firmware could return +1 from the triggered branch or 0 from the untriggered one, which Deviation excludes.
- Leveling.Printer.Process: the motion system carries out homing (G28 Z), the corner moves (G1 ... Z0) and the jogs (G1 Z±0.1) by writing Z_STEP_PIN, Z_DIR_PIN and Z_ENABLE_PIN itself; those writes are not modelled. `ZPins()` and the `StepPulse` events cover only the writes in M777.cpp (moveMotor). After a run, the real direction line may hold the last jog's direction even where the model says the pins are as they were.
- Leveling.Printer.Synchronize: the step pulses the motion system emits while the routine waits for the queue are not modelled, for the same reason as Process.
