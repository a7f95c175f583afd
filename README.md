# EuroPi calibration and MIDI utilities, modelled in Dafny

This project models two parts of the EuroPi firmware and proves properties of them.

The first is the `~Calibrate` script (`software/firmware/calibrate.py`). The operator picks a series of reference voltages. For each point of the series they apply that voltage to the analog input, fine-tune the value with the two knobs, and confirm the oversampled reading. The script then builds a piecewise-linear input curve from the points and readings: one slope per segment, with the last slope used again above the top point. Finally it calibrates CV1. It raises CV1's PWM duty cycle until the analog input, patched to CV1, reads what the curve expects for 1 V, 2 V and so on up to 10 V.

The second is the MIDI helper module (`software/contrib/midi.py`). It covers note names and octaves, the scale table, the conversion between note numbers and 1 V/octave voltages, and the three pitch-class quantizers.

The files:

- `wrappers.dfy` (`Wrappers`): `Option` and `Result`.
- `numeric.dfy` (`Numeric`): absolute values, Python's `round` (half to even) and `int()` (truncation toward zero) on reals.
- `midi.dfy` (`Midi`): the MIDI utilities.
- `curve.dfy` (`CalibrationCurve`): `compute_ain_gradients`, `reading_to_voltage` and `cv_to_reading`.
  - The gradient table is a pure function: the slopes, or the reason the source code raises.
  - The two conversions are pure functions. One direction of their round trip is proved: inside the calibrated range (above the first point, up to the last), the reading `cv_to_reading` computes before `int()` truncates it converts back to the same voltage on its segment's line, before `reading_to_voltage` clamps it.
- `sampling.dfy` (`Oversampling`): `sample`, as a loop over 256 raw 16-bit readings, proved against a function.
- `search.dfy` (`OutputSearch`): the step rule and the duty search of `execute_outputs_calibration`. The nested loops are methods proved against recursive specification functions.
- `finetune.dfy` (`FineTune`): the calibration series, `change_10th_bipolar`, and `change_decimal` over a fixed-point (hundredths) abstraction.
- `workflow.dfy` (`Workflow`):
  - the state table, the next-state rule and the workflow diagram it follows;
  - the class `Calibrate`, whose `do_*` methods update its fields under an invariant tied to the current state;
  - the dispatch of one event;
  - the knob polling of `main` and the main loop.

Where the documentation and the code disagree, the model follows the code:

- The docstring gives the fine-tune range as -0.50 V to +0.49 V. For the 0 V point, `change_decimal` on a negative value writes the hundredths digit into the magnitude, so that point reaches -0.59 V (`FineTune.ChangeDecimalOnNegative`, `FineTune.InWindow`).
- `reading_to_voltage` takes the segment before the first reading at or above the input. A reading equal to the first calibration reading therefore gives 0 V, not the first point's voltage.
- The gradients are computed when `input_done` handles B2, in `do_prepare_output_calibration`. They are not computed when the last point is confirmed.
- The output calibration always covers 1 V to 10 V, whatever series was calibrated.
- `do_init_input_calibration` does not clear the readings. A run that is aborted and restarted without choosing a series again keeps the earlier readings, and then always ends in `error` (`Workflow.RerunKeepsEarlierReadings`).

## Model

| member | source | states |
|---|---|---|
| Numeric.RoundHalfEven | software/firmware/calibrate.py:76 | the integer nearest to x, within 1/2 of it; on an exact half, the even neighbour |
| Numeric.TruncateTowardZero | software/firmware/calibrate.py:187 | `int()` on a real: less than 1 away from x, never larger in magnitude, same sign |
| Midi.ScalesNames | software/contrib/midi.py:58 | one name per scale, in table order, each the name of the scale at that index |
| Midi.FindPitchClasses | software/contrib/midi.py:61-66 | the classes of the first scale with that name; [] when no scale has it |
| Midi.ScaleNamesDistinct | software/contrib/midi.py:38-55 | no two scales share a name |
| Midi.PitchClasses | software/contrib/midi.py:61-66 | the classes of the scale called `name`, [] for an unknown name |
| Midi.PitchClassesOfListedName | software/contrib/midi.py:58-66 | looking up the i-th listed name returns the i-th scale's classes |
| Midi.Clamp | software/contrib/midi.py:70-72 | for low <= high the result is in [low, high], it is `value` when that is in range, and otherwise the nearer bound; it is `low` when high < low |
| Midi.MidiToV | software/contrib/midi.py:75-76 | 12 times the voltage is the note number (1 V per octave) |
| Midi.VToMidi | software/contrib/midi.py:79-80 | always in 0..127; within 1/2 of 12·v when that is in range; 0 below the range, 127 above it |
| Midi.MidiVoltRoundTrip | software/contrib/midi.py:75-80 | every note 0..127 survives the trip to volts and back |
| Midi.Note | software/contrib/midi.py:83-84 | the name of the clamped note's pitch class |
| Midi.Octave | software/contrib/midi.py:87-88 | always in -1..9 |
| Midi.NoteAndOctaveRecompose | software/contrib/midi.py:83-88 | (octave + 1)·12 + pitch class is the clamped note; note 60 is C in octave 4 |
| Midi.NoteOctave | software/contrib/midi.py:91-92 | the name followed by the octave; `NoteOctaveParses` shows the string reads back as the clamped note number |
| Midi.NoteOctaveParses | software/contrib/midi.py:91-92 | the note name followed by the octave reads back as the clamped note number |
| Midi.QuantizeDown | software/contrib/midi.py:95-100 | the scale defaults to the chromatic classes 0..11 as in the source; when the scale has a class at or below the note's class, the largest such class in the note's octave; never above the note, and, when every class of the scale is non-negative, less than an octave below it |
| Midi.QuantizeUp | software/contrib/midi.py:103-108 | as written, and only when the scale has a class at or above the note's class: the smallest such class in the note's octave, never below the note |
| Midi.QuantizeUpStuckOnMinorPentatonic | software/contrib/midi.py:52-53 | for pitch class 11 and the minor pentatonic scale no class at or above it exists, so the loop of `quantize_up` never ends |
| Midi.QuantizeUpWrapping | software/contrib/midi.py:103-108 | corrected: the first note at or above midi_note whose class is in the scale, less than an octave above |
| Midi.QuantizeNearest | software/contrib/midi.py:111-120 | with the chromatic default scale, the octave base plus the first scale element at the least distance from the note's class; the note itself when no element is closer than 12, as for an empty scale |
| Midi.NearestAlwaysFound | software/contrib/midi.py:111-120 | with a non-empty scale of classes 0..11, the result is in the scale |
| Midi.Quantize | software/contrib/midi.py:123-124 | the same result as `quantize_nearest`, with the same chromatic default scale |
| CalibrationCurve.FirstFault | software/firmware/calibrate.py:158-165 | the first segment whose slope raises, and whether for a missing point or a repeated reading; None when every segment computes |
| CalibrationCurve.Slopes | software/firmware/calibrate.py:157-163 | the k slopes the loop has appended when it reaches index k |
| CalibrationCurve.GradientTable | software/firmware/calibrate.py:156-166 | success exactly when 2 <= readings <= points with no equal consecutive readings; then one entry per reading, entry i the slope of segment i, the last entry a copy of the one before; each failure kind exactly under its condition |
| CalibrationCurve.BuiltIsSlopeTable | software/firmware/calibrate.py:156-166 | a stored table equals the computed one exactly when it has the slope-table shape, stated without the function |
| CalibrationCurve.ReadingSegment | software/firmware/calibrate.py:170-172 | -1 or the index before the first reading at or above the input, and the last index when there is none |
| CalibrationCurve.ClampVoltage | software/firmware/calibrate.py:177 | the result is in [0, 12]: the input when in range, else the nearer bound |
| CalibrationCurve.ReadingToVoltage | software/firmware/calibrate.py:168-177 | always in [0, 12], and 0 for any reading at or below the first one |
| CalibrationCurve.ReadingToVoltageAtCalibrationPoint | software/firmware/calibrate.py:168-177 | with increasing readings, the reading sampled at point k >= 1 converts to that point's voltage (clamped) |
| CalibrationCurve.ReadingToVoltageExtrapolates | software/firmware/calibrate.py:168-176 | above the last reading, the voltage is the last point plus the last gradient times the excess, clamped |
| CalibrationCurve.LastGradientDuplicatesLastSlope | software/firmware/calibrate.py:156-166 | the last gradient is the slope of the last segment (the duplicated entry) |
| CalibrationCurve.ReadingToVoltageMonotonic | software/firmware/calibrate.py:168-177 | a larger reading never gives a lower voltage |
| CalibrationCurve.PointSegment | software/firmware/calibrate.py:181-183 | -1 or the index before the first point at or above cv, and the last index when there is none |
| CalibrationCurve.CvToReading | software/firmware/calibrate.py:179-187 | the first reading for cv at or below the first point; otherwise the exact reading on the segment's line, truncated toward zero |
| CalibrationCurve.MonotoneSlopesPositive | software/firmware/calibrate.py:156-166 | every slope of a curve with increasing points and readings is positive |
| CalibrationCurve.ExactReading | software/firmware/calibrate.py:179-187 | the reading on the segment's line before truncation; `ExactReadingInSegment` bounds it by the segment's readings and `CvToReadingInvertsReadingToVoltage` converts it back to the voltage |
| CalibrationCurve.ExactReadingInSegment | software/firmware/calibrate.py:179-187 | inside the calibrated range, the untruncated reading lies strictly above the segment's lower reading and at most at its upper one |
| CalibrationCurve.CvToReadingInvertsReadingToVoltage | software/firmware/calibrate.py:168-187 | inside the calibrated range, converting a voltage to an untruncated reading and back gives the voltage again |
| CalibrationCurve.CvToReadingWithinSegment | software/firmware/calibrate.py:179-187 | the truncated reading lies between the readings of the two points around the voltage |
| Oversampling.OversampledReading | software/firmware/calibrate.py:63-76 | the rounded mean of the masked readings; `Sample` equates the loop with it, and `SampleWithinMaskedRange`, `SampleInRange` and `SampleOfSteadyInput` bound it |
| Oversampling.Masked | software/firmware/calibrate.py:75 | `& 0xff80` keeps a multiple of 128, at most 65408, at most the raw value and less than 128 below it |
| Oversampling.Sample | software/firmware/calibrate.py:63-76 | the loop returns the rounded mean of the 256 masked readings |
| Oversampling.MaskedSumBounds | software/firmware/calibrate.py:73-75 | the sum lies between n times the least and n times the greatest masked reading |
| Oversampling.SampleWithinMaskedRange | software/firmware/calibrate.py:63-76 | the sample lies between the least and the greatest masked reading |
| Oversampling.SampleInRange | software/firmware/calibrate.py:63-76 | every sample is in 0..65408 |
| Oversampling.SampleOfSteadyInput | software/firmware/calibrate.py:63-76 | 256 equal raw readings give their masked value |
| OutputSearch.StepFor | software/firmware/calibrate.py:224-236 | the increment is 10..1000, and 1000 exactly below ratio 0.5, 10 exactly from 0.99; a wait is taken exactly from ratio 0.95 |
| OutputSearch.StepCoarseToFine | software/firmware/calibrate.py:224-236 | a lower ratio never gives a smaller increment or a longer wait |
| OutputSearch.KeepClimbingIffBelow | software/firmware/calibrate.py:220 | on integer readings the loop condition holds exactly when the reading is below its target |
| OutputSearch.ClimbFrom | software/firmware/calibrate.py:220-240 | when the loop ends the reading has reached the target; the duty is unchanged exactly when it had already reached it, and grows by 10 to 1000 per sample taken |
| OutputSearch.ClimbNeverReaching | software/firmware/calibrate.py:220-240 | while no reading reaches the target the loop does not end |
| OutputSearch.Sweep | software/firmware/calibrate.py:218-246 | one duty per target, none below the starting duty, never decreasing |
| OutputSearch.Targets | software/firmware/calibrate.py:218-219 | ten targets, the i-th `cv_to_reading(1 + i)` |
| OutputSearch.ClimbTo | software/firmware/calibrate.py:220-245 | the while loop ends as the climb specification says |
| OutputSearch.SweepVolts | software/firmware/calibrate.py:208-246 | the duties recorded (0 first, then one per target) are those of the sweep specification, or none when the samples run out |
| OutputSearch.ExecuteOutputsCalibration | software/firmware/calibrate.py:218-219 | the search runs on the targets `cv_to_reading(1..10)` of the curve |
| OutputSearch.OutputDuties | software/firmware/calibrate.py:208-246 | the reading at duty 0 followed by the sweep's duties, None when the samples run out; `SweepVolts` equates the loop with it and `OutputDutiesShape` gives its shape |
| OutputSearch.OutputDutiesShape | software/firmware/calibrate.py:208-246 | a completed search records 11 duties, the first 0, never decreasing |
| FineTune.CalibrationSeriesShape | software/firmware/calibrate.py:37-41 | three series, each starting at 0 V, rising by at least 1 V per point in multiples of 0.5 V, none above 11 V |
| FineTune.ChangeTenthBipolar | software/firmware/calibrate.py:55-56 | the result is n moved by (delta - 5) tenths |
| FineTune.TenthOffsetRange | software/firmware/calibrate.py:55-56 | knob positions 0..9 move the point by -0.5 V to +0.4 V |
| FineTune.ChangeDecimal | software/firmware/calibrate.py:49-52 | the digit at `position` of the magnitude replaced, the sign kept; `ChangeDecimalOnHundredths`, `AdjustedHundredthsDigits`, `ChangeDecimalIdempotent` and `ChangeDecimalOnNegative` state what it does |
| FineTune.ChangeDecimalOnHundredths | software/firmware/calibrate.py:49-52 | on a whole number of hundredths, the hundredths digit of the magnitude is replaced and the sign kept |
| FineTune.AdjustedHundredthsDigits | software/firmware/calibrate.py:49-52 | after the change the last digit is the knob's, the higher digits and the sign are unchanged |
| FineTune.ChangeDecimalIdempotent | software/firmware/calibrate.py:49-52 | setting the same digit twice changes nothing more |
| FineTune.ChangeDecimalOnNegative | software/firmware/calibrate.py:49-52 | -0.10 V with digit 9 becomes -0.19 V |
| FineTune.TenthsStayInWindow | software/firmware/calibrate.py:346-349 | knob 1 keeps a point inside its nominal voltage's fine-tune window |
| FineTune.HundredthsStayInWindow | software/firmware/calibrate.py:351-354 | knob 2 keeps a point inside its window |
| FineTune.WindowsOrdered | software/firmware/calibrate.py:346-354 | fine-tuned points of a series still strictly increase |
| Workflow.Table | software/firmware/calibrate.py:93-123 | the handler each state registers for each event; `TransitionsFollowWorkflow`, `KnobEventsKeepState`, `ErrorIsOnlyLeftByReset` and `ActionStates` state its properties |
| Workflow.NextState | software/firmware/calibrate.py:93-123 | a returned state name wins over the handler's target, an unhandled event keeps the state; `TransitionsFollowWorkflow` shows every step stays put or follows an arrow |
| Workflow.TransitionsFollowWorkflow | software/firmware/calibrate.py:93-123 | every transition of the table stays put or follows an arrow of the workflow diagram |
| Workflow.KnobEventsKeepState | software/firmware/calibrate.py:93-107 | knob and redraw events never change the state |
| Workflow.ErrorOnlyFromFailedCurve | software/firmware/calibrate.py:377-385 | `error` is entered only from `input_done` on B2, when the action returns "error" |
| Workflow.ErrorIsOnlyLeftByReset | software/firmware/calibrate.py:122-123 | `error` handles only B2, by resetting |
| Workflow.ActionStates | software/firmware/calibrate.py:93-123 | the state and target each action is registered with |
| Workflow.RerunKeepsEarlierReadings | software/firmware/calibrate.py:342-344 | readings kept from an interrupted run make the restarted run's gradient computation fail |
| Workflow.Calibrate.constructor | software/firmware/calibrate.py:85-133 | starts in `start` with the saved series (0 when none), its nominal points, no readings |
| Workflow.Calibrate.PointsIncrease | software/firmware/calibrate.py:346-354 | under the invariant the current points strictly increase |
| Workflow.Calibrate.DoSelectSerie | software/firmware/calibrate.py:333-340 | a different, valid position selects that series, copies its points and empties the readings; anything else changes nothing |
| Workflow.Calibrate.DoInitInputCalibration | software/firmware/calibrate.py:342-344 | back to point 0 with reading 0; the readings are kept |
| Workflow.Calibrate.DoAdjust10th | software/firmware/calibrate.py:346-349 | the current point becomes its nominal voltage plus knob 1's offset, dropping earlier hundredths |
| Workflow.Calibrate.DoAdjust100th | software/firmware/calibrate.py:351-354 | the current point gets knob 2's hundredths digit |
| Workflow.Calibrate.DoCalibratePoint | software/firmware/calibrate.py:356-357 | the current reading becomes the oversampled reading |
| Workflow.Calibrate.DoRetry | software/firmware/calibrate.py:359-362 | nothing changes, and `current_point` may be entered again |
| Workflow.Calibrate.DoSelectNextPointOrSave | software/firmware/calibrate.py:364-375 | appends the current reading, advances the point, and returns `input_done` exactly after the last point, else `current_point` |
| Workflow.Calibrate.ComputeAinGradients | software/firmware/calibrate.py:156-166 | the loop leaves the gradient table, or raises with the reason the table gives, having appended the slopes before the fault |
| Workflow.Calibrate.DoPrepareOutputCalibration | software/firmware/calibrate.py:377-385 | returns `start_output` exactly when the gradients compute, with the gradient table stored; returns `error` exactly when they raise, with the slopes before the fault stored |
| Workflow.Calibrate.CurveUsable | software/firmware/calibrate.py:156-187 | a curve that reached `start_output` gives a target for every volt without dividing by zero |
| Workflow.Calibrate.DoCalibrateOutput | software/firmware/calibrate.py:387-388 | the duties written are those of the output search on the input curve; a search that never ends halts the script |
| Workflow.Calibrate.DoReset | software/firmware/calibrate.py:390-393 | the script halts |
| Workflow.Calibrate.Perform | software/firmware/calibrate.py:333-393 | the registered action runs with the data effect its `do_*` method states (`ActionEffect`); what it returns is one of its state names, `start_output` from `do_prepare_output_calibration` exactly when the gradients compute, and the data fits the next state |
| Workflow.Calibrate.PerformInputAction | software/firmware/calibrate.py:333-376 | an action before the output calibration runs with its `do_*` method's data effect, never halts, and leaves data fitting the state it moves to |
| Workflow.Calibrate.PerformOutputAction | software/firmware/calibrate.py:377-393 | the output actions run with their `do_*` methods' data effect; `do_prepare_output_calibration` returns `start_output` exactly when the gradients compute, else `error`; only the search and the reset can halt, and only on B2 in the output states or the error state |
| Workflow.Calibrate.Dispatch | software/firmware/calibrate.py:93-123 | the invariant is kept; a handled event has its action's data effect, an unhandled one changes nothing; the new state is the action's returned state, else the handler's target, else unchanged; B2 in `input_done` leads to `start_output` exactly when the gradients compute |
| Workflow.Calibrate.Step | software/firmware/calibrate.py:93-123 | a handled event: the action's data effect, then the move to its returned state or the handler's target, keeping the invariant; B2 in `input_done` leads to `start_output` exactly when the gradients compute |
| Workflow.KnobStep | software/firmware/calibrate.py:412-420 | K1 exactly when knob 1 moved, else K2 exactly when knob 2 moved, else the redraw tick exactly in `current_point`; the remembered positions follow |
| Workflow.KnobTwoReportedNext | software/firmware/calibrate.py:412-417 | a knob-2 turn made while knob 1 is reported comes out on the next pass |
| Workflow.EnteredThrough | software/firmware/calibrate.py:93-123 | a walk ending in a state it did not start in went through an arrow into that state |
| Workflow.OutputsAfterInputs | software/firmware/calibrate.py:109-117 | every walk from `start` to `all_done` went through `input_done` then `start_output` |
| Workflow.RunMainLoop | software/firmware/calibrate.py:403-420 | the loop keeps the invariant, and the states it visits form a walk of the workflow from `start` |
| Workflow.Handle | software/firmware/calibrate.py:408-420 | one dispatched event extends the walk by the state it leaves |

## Left out

- Hardware set-up and timing are not modelled: `ADC`, `PWM`, `Pin`, `sleep` and `usb.value()`. The raws an action reads and the output samples come in as `Inputs`.
- The display is not modelled: `centered`, `oled` and every `display_*` callback. The table leaves these entries out, so each handler has at most one action.
- File writes are not modelled: `save_on_disk` and the OUTPUT_CALIBRATION_VALUES append. The duties are kept in the `outputDuties` field.
- `save_state` and its 500 ms rate limit depend on `EuroPiScript.last_saved`, which is not part of this model. The series is only restored in the constructor.
- The state-machine engine (`simple_state_machine`) is not part of this model. The rule that a returned state name replaces the handler's target is inferred from how the handlers are registered. Button events queued by the interrupt handlers are taken one per pass, before the knob polling.
- `europi` is not part of this model. Knob positions are assumed to lie in 0..steps-1.
- `KnobStep`: each pass reads each knob once. The source reads a knob again when it updates `k1prev`/`k2prev`, reads knob 1 again inside `do_adjust10th`, and reads knob 2 again inside `do_adjust100th`. The model gives each action the same `k1Tenths` or `k2Hundredths` value.
- Workflow.Calibrate.constructor requires a saved series index in range. The source would raise on an out-of-range index.
- Workflow.Calibrate.DoReset: `reset()` restarts the board. The model only sets `halted`, and the main loop stops there.
- OutputSearch.ClimbFrom: the output search has no iteration cap in the source. The model takes a finite stream of samples and returns None when the stream ends, where the device would keep searching.
- Midi.QuantizeDown and Midi.QuantizeUp require a class that ends their loops. Without one the source loops forever, and the model does not claim termination there.
- Floating point is not modelled: points, gradients, volts and ratios are exact reals. The 0.002 tolerance of the search loop is kept, and `KeepClimbingIffBelow` shows it changes nothing on integer readings.
- FineTune.ChangeDecimal models the string round trip of `change_decimal` as a magnitude rounded to four decimals with its digit replaced and its sign kept. Its properties are proved only on whole numbers of hundredths, which is all the knobs can produce.
- OutputSearch.ExecuteOutputsCalibration computes the ten `cv_to_reading(v)` targets before the loop starts, not at the start of each pass. `cv_to_reading` only reads the curve, which the loop does not change, so the targets are the same.
- CalibrationCurve.CvToReading requires a nonzero gradient on the segment it solves, at least one reading, and at least as many readings and gradients as points. On other curves the source can raise `ZeroDivisionError` or `IndexError`, and the model does not cover them. `Workflow.Calibrate.CurveUsable` shows the workflow only calls it on curves that meet these requirements.
- CalibrationCurve.ReadingToVoltage requires at least as many points and gradients as readings, so every segment index is in range. On a shorter table the source can raise `IndexError`, and the model does not cover it. A curve reaches `start_output` only with one point and one gradient per reading.
- Oversampling.Masked: `& 0xff80` on a 16-bit value is modelled as subtracting the value's remainder modulo 128.

## Findings

| source | as written | input that shows it | evidently intended | confidence | as-written member | corrected member |
|---|---|---|---|---|---|---|
| software/contrib/midi.py:103-108 | `quantize_up` steps the pitch class up only within the octave and never wraps, so it loops forever when no scale class is at or above the note's class | `quantize_up(71, pitch_classes('minor-pentatonic'))`, pitch class 11, scale [0, 3, 5, 7, 10] | the next scale note at or above the input, wrapping into the next octave | not executed | Midi.QuantizeUpStuckOnMinorPentatonic | Midi.QuantizeUpWrapping |
