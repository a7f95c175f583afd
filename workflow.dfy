/** The calibration workflow of the `Calibrate` script: the state table its
    constructor registers with the state machine, the transition actions that
    update the calibration data, and the knob polling of its main loop.

    The display, the ADC, the PWM output, the saved-state file and the
    calibration file are not modelled: what the hardware is read as (knob
    positions, raw ADC readings, output samples) comes in as `Inputs`, and the
    duties written to the calibration file are kept in a field. */
module Workflow {
  import opened Wrappers
  import opened CalibrationCurve
  import opened Oversampling
  import opened OutputSearch
  import opened FineTune

  datatype State =
    | Start | PowerReminder | CurrentPoint | Result
    | InputDone | StartOutput | AllDone | Error

  /** The two buttons, the two knobs, and the idle redraw tick. */
  datatype Event = B1 | B2 | K1 | K2 | RefreshDisplay

  /** The `do_*` transition methods. The display methods registered beside
      them change nothing the model keeps and are left out of the table. */
  datatype Action =
    | SelectSerie | InitInputCalibration | Adjust10th | Adjust100th
    | CalibratePoint | Retry | SelectNextPointOrSave
    | PrepareOutputCalibration | CalibrateOutput | Reset

  /** What a state does on an event: at most one action, and the state the
      handler's `goto` names, if any. */
  datatype Handler = Handler(action: Option<Action>, target: Option<State>)

  /** The table the constructor builds with `state(...).when(...)`; None for
      an event the state does not handle. */
  function Table(s: State, e: Event): Option<Handler>
  {
    match (s, e)
    case (Start, B1) => Some(Handler(None, Some(Start)))
    case (Start, B2) => Some(Handler(Some(InitInputCalibration), Some(PowerReminder)))
    case (Start, K1) => Some(Handler(Some(SelectSerie), None))
    case (PowerReminder, B1) => Some(Handler(None, Some(Start)))
    case (PowerReminder, B2) => Some(Handler(None, Some(CurrentPoint)))
    case (CurrentPoint, B1) => Some(Handler(None, Some(Start)))
    case (CurrentPoint, B2) => Some(Handler(Some(CalibratePoint), Some(Result)))
    case (CurrentPoint, K1) => Some(Handler(Some(Adjust10th), None))
    case (CurrentPoint, K2) => Some(Handler(Some(Adjust100th), None))
    case (CurrentPoint, RefreshDisplay) => Some(Handler(None, None))
    case (Result, B1) => Some(Handler(Some(Retry), Some(CurrentPoint)))
    case (Result, B2) => Some(Handler(Some(SelectNextPointOrSave), None))
    case (InputDone, B2) => Some(Handler(Some(PrepareOutputCalibration), None))
    case (StartOutput, B2) => Some(Handler(Some(CalibrateOutput), Some(AllDone)))
    case (AllDone, B2) => Some(Handler(Some(Reset), None))
    case (Error, B2) => Some(Handler(Some(Reset), None))
    case _ => None
  }

  /** The state names an action can return; the other actions return nothing. */
  predicate MayReturn(a: Option<Action>, returned: Option<State>)
  {
    match returned
    case None => a != Some(SelectNextPointOrSave) && a != Some(PrepareOutputCalibration)
    case Some(t) =>
      || (a == Some(SelectNextPointOrSave) && (t == CurrentPoint || t == InputDone))
      || (a == Some(PrepareOutputCalibration) && (t == StartOutput || t == Error))
  }

  /** The state after handling e in s, given what the action returned: a
      returned state name wins over the handler's target, and with neither the
      state stays; an unhandled event changes nothing. */
  function NextState(s: State, e: Event, returned: Option<State>): State
  {
    match Table(s, e)
    case None => s
    case Some(h) =>
      if returned.Some? then returned.value
      else if h.target.Some? then h.target.value
      else s
  }

  /** The workflow as the operator sees it: choose a series, confirm power,
      then for each point adjust and sample, confirm (or back to resample),
      and after the last point build the curve and calibrate the output, or
      end in the error state. */
  predicate Arrow(s: State, t: State)
  {
    || (s == Start && t == PowerReminder)
    || (s == PowerReminder && (t == Start || t == CurrentPoint))
    || (s == CurrentPoint && (t == Start || t == Result))
    || (s == Result && (t == CurrentPoint || t == InputDone))
    || (s == InputDone && (t == StartOutput || t == Error))
    || (s == StartOutput && t == AllDone)
  }

  /** Every transition of the table, with whatever its action may return,
      either stays or follows an arrow of the workflow. */
  lemma TransitionsFollowWorkflow(s: State, e: Event, returned: Option<State>)
    requires Table(s, e).Some? ==> MayReturn(Table(s, e).value.action, returned)
    ensures NextState(s, e, returned) == s || Arrow(s, NextState(s, e, returned))
  {
  }

  /** The knobs and the redraw tick never change the state. */
  lemma KnobEventsKeepState(s: State, e: Event, returned: Option<State>)
    requires e == K1 || e == K2 || e == RefreshDisplay
    requires Table(s, e).Some? ==> MayReturn(Table(s, e).value.action, returned)
    ensures NextState(s, e, returned) == s
  {
  }

  /** The error state is entered only from `input_done`, when preparing the
      output calibration returns "error"; it is left only by a reset. */
  lemma ErrorOnlyFromFailedCurve(s: State, e: Event, returned: Option<State>)
    requires Table(s, e).Some? ==> MayReturn(Table(s, e).value.action, returned)
    requires s != Error && NextState(s, e, returned) == Error
    ensures s == InputDone && e == B2 && returned == Some(Error)
  {
  }

  lemma ErrorIsOnlyLeftByReset(e: Event, returned: Option<State>)
    requires Table(Error, e).Some? ==> MayReturn(Table(Error, e).value.action, returned)
    ensures NextState(Error, e, returned) == Error
    ensures Table(Error, e).Some? ==> e == B2 && Table(Error, e).value.action == Some(Reset)
  {
  }


  /** Which state and event each action is registered for, and where the
      handler goes. */
  lemma ActionStates(s: State, e: Event)
    requires Table(s, e).Some?
    ensures var h := Table(s, e).value;
            && (h.action == None ==> s == Start || s == PowerReminder || s == CurrentPoint)
            && (h.action == Some(SelectSerie) ==> s == Start && h.target == None)
            && (h.action == Some(InitInputCalibration) ==> s == Start && h.target == Some(PowerReminder))
            && (h.action == Some(Adjust10th) ==> s == CurrentPoint && e == K1 && h.target == None)
            && (h.action == Some(Adjust100th) ==> s == CurrentPoint && e == K2 && h.target == None)
            && (h.action == Some(CalibratePoint) ==> s == CurrentPoint && h.target == Some(Result))
            && (h.action == Some(Retry) ==> s == Result && h.target == Some(CurrentPoint))
            && (h.action == Some(SelectNextPointOrSave) ==> s == Result && h.target == None)
            && (h.action == Some(PrepareOutputCalibration) ==> s == InputDone && h.target == None)
            && (h.action == Some(CalibrateOutput) ==> s == StartOutput && h.target == Some(AllDone))
            && (h.action == Some(Reset) ==> (s == AllDone || s == Error) && e == B2 && h.target == None)
  {
  }

  // ---------------------------------------------------------------------------
  // What the hardware is read as

  /** What the actions read from the hardware when they run: knob 1 read with
      as many positions as there are series, knob 1 and knob 2 read with 10
      positions, the 256 raw ADC readings of one `sample`, and the samples the
      output search takes one after another. */
  datatype Inputs = Inputs(k1Serie: nat, k1Tenths: nat, k2Hundredths: nat, raws: seq<U16>, outputSamples: seq<nat>)

  predicate WellFormed(input: Inputs)
  {
    input.k1Tenths < KnobSteps && input.k2Hundredths < KnobSteps && |input.raws| == SampleCount
  }

  /** The states in which the point index and the readings are in use. */
  predicate Tracking(s: State)
  {
    s != Start && s != Error
  }

  /** What OUTPUT_CALIBRATION_VALUES holds after a completed output
      calibration: the duty for 0 V, which is 0, and one duty per volt 1..10,
      never decreasing. */
  ghost predicate DutyTable(ds: seq<nat>)
  {
    && |ds| == LastVolt - FirstVolt + 2
    && ds[0] == 0
    && forall i, j :: 0 <= i < j < |ds| ==> ds[i] <= ds[j]
  }

  /** The index at which the gradient loop stops: the first faulty segment,
      or 0 when there are too few readings for the loop to run. */
  function FaultIndex(points: seq<real>, readings: seq<int>): nat
  {
    match FirstFault(points, readings, 0)
    case None => 0
    case Some(f) => f.at
  }

  /** What `compute_ain_gradients` leaves behind when it raises: the slopes
      of the segments before the faulty one. */
  ghost predicate GradientsUpToFault(points: seq<real>, readings: seq<int>, gradients: seq<real>)
  {
    && FaultIndex(points, readings) <= |readings|
    && (forall j :: 0 <= j < FaultIndex(points, readings) ==> SlopeDefined(points, readings, j))
    && gradients == Slopes(points, readings, FaultIndex(points, readings))
  }

  /** The fields of the script other than its state name. */
  datatype Data = Data(serie: nat, points: seq<real>, readings: seq<int>, currentPoint: nat,
                       currentReading: int, ainGradients: seq<real>,
                       outputDuties: Option<seq<nat>>, halted: bool)

  // What each action does to the calibration data, from d0 before it runs
  // to d after.

  predicate SeriesKept(d0: Data, d: Data)
  {
    d.serie == d0.serie && d.points == d0.points && d.readings == d0.readings
  }

  predicate PointKept(d0: Data, d: Data)
  {
    d.currentPoint == d0.currentPoint && d.currentReading == d0.currentReading
  }

  predicate OutputKept(d0: Data, d: Data)
  {
    d.ainGradients == d0.ainGradients && d.outputDuties == d0.outputDuties && d.halted == d0.halted
  }

  /** `do_select_serie` with knob 1 at `k1Serie`. */
  predicate SelectSerieEffect(input: Inputs, d0: Data, d: Data)
  {
    && (if input.k1Serie != d0.serie && input.k1Serie < |CalibrationSeries|
        then d.serie == input.k1Serie && d.points == CalibrationSeries[input.k1Serie] && d.readings == []
        else SeriesKept(d0, d))
    && PointKept(d0, d) && OutputKept(d0, d)
  }

  /** `do_init_input_calibration`. */
  predicate InitInputCalibrationEffect(d0: Data, d: Data)
  {
    SeriesKept(d0, d) && d.currentPoint == 0 && d.currentReading == 0 && OutputKept(d0, d)
  }

  /** `do_adjust10th` with knob 1 at `k1Tenths`. */
  predicate Adjust10thEffect(input: Inputs, d0: Data, d: Data)
  {
    && d.serie == d0.serie && d.readings == d0.readings && PointKept(d0, d) && OutputKept(d0, d)
    && d.serie < |CalibrationSeries| && d.currentPoint < |d0.points|
    && d.currentPoint < |CalibrationSeries[d.serie]|
    && d.points == d0.points[d.currentPoint := ChangeTenthBipolar(CalibrationSeries[d.serie][d.currentPoint], input.k1Tenths)]
  }

  /** `do_adjust100th` with knob 2 at `k2Hundredths`. */
  predicate Adjust100thEffect(input: Inputs, d0: Data, d: Data)
  {
    && d.serie == d0.serie && d.readings == d0.readings && PointKept(d0, d) && OutputKept(d0, d)
    && d.currentPoint < |d0.points| && input.k2Hundredths <= 9
    && d.points == d0.points[d.currentPoint := ChangeDecimal(d0.points[d.currentPoint], 2, input.k2Hundredths)]
  }

  /** `do_calibrate_point` on the raw readings `raws`. */
  predicate CalibratePointEffect(input: Inputs, d0: Data, d: Data)
  {
    && SeriesKept(d0, d) && d.currentPoint == d0.currentPoint && OutputKept(d0, d)
    && |input.raws| == SampleCount && d.currentReading == OversampledReading(input.raws)
  }

  /** `do_select_next_point_or_save`. */
  predicate SelectNextPointOrSaveEffect(d0: Data, d: Data)
  {
    && d.serie == d0.serie && d.points == d0.points && OutputKept(d0, d)
    && d.readings == d0.readings + [d0.currentReading]
    && d.currentPoint == d0.currentPoint + 1 && d.currentReading == d0.currentReading
  }

  /** `do_prepare_output_calibration`. */
  ghost predicate PrepareOutputCalibrationEffect(d0: Data, d: Data)
  {
    && SeriesKept(d0, d) && PointKept(d0, d) && d.outputDuties == d0.outputDuties && d.halted == d0.halted
    && (GradientTable(d.points, d.readings).Success? ==> d.ainGradients == GradientTable(d.points, d.readings).value)
    && (GradientTable(d.points, d.readings).Failure? ==> GradientsUpToFault(d.points, d.readings, d.ainGradients))
  }

  /** `do_calibrate_output` with the output samples `outputSamples`. */
  ghost predicate CalibrateOutputEffect(input: Inputs, d0: Data, d: Data)
  {
    var c := Curve(d.points, d.readings, d.ainGradients);
    && SeriesKept(d0, d) && PointKept(d0, d) && d.ainGradients == d0.ainGradients
    && Usable(c)
    && d.outputDuties == OutputDuties(Targets(c), input.outputSamples)
    && (d.halted <==> d.outputDuties.None?)
  }

  /** `do_reset`. */
  predicate ResetEffect(d0: Data, d: Data)
  {
    && SeriesKept(d0, d) && PointKept(d0, d)
    && d.ainGradients == d0.ainGradients && d.outputDuties == d0.outputDuties && d.halted
  }

  /** The effect of action a, run with the hardware read as `input`. */
  ghost predicate Effect(a: Option<Action>, input: Inputs, d0: Data, d: Data)
  {
    match a
    case None => d == d0
    case Some(SelectSerie) => SelectSerieEffect(input, d0, d)
    case Some(InitInputCalibration) => InitInputCalibrationEffect(d0, d)
    case Some(Adjust10th) => Adjust10thEffect(input, d0, d)
    case Some(Adjust100th) => Adjust100thEffect(input, d0, d)
    case Some(CalibratePoint) => CalibratePointEffect(input, d0, d)
    case Some(Retry) => d == d0
    case Some(SelectNextPointOrSave) => SelectNextPointOrSaveEffect(d0, d)
    case Some(PrepareOutputCalibration) => PrepareOutputCalibrationEffect(d0, d)
    case Some(CalibrateOutput) => CalibrateOutputEffect(input, d0, d)
    case Some(Reset) => ResetEffect(d0, d)
  }

  // ---------------------------------------------------------------------------
  // The script object

  class Calibrate {
    var state: State
    var serie: nat
    var points: seq<real>
    var readings: seq<int>
    var currentPoint: nat
    var currentReading: int
    var ainGradients: seq<real>
    /** The values appended to the calibration file as
        OUTPUT_CALIBRATION_VALUES, once written. */
    var outputDuties: Option<seq<nat>>
    /** The script handles no more events: `reset()` was called, or the
        output search never finds its target. */
    var halted: bool

    function CurrentCurve(): Curve
      reads this`points, this`readings, this`ainGradients
    {
      Curve(points, readings, ainGradients)
    }

    /** The calibration data is consistent with being in state s. */
    ghost predicate ValidIn(s: State)
      reads this`serie, this`points, this`readings, this`currentPoint, this`currentReading
      reads this`ainGradients, this`outputDuties
    {
      && serie < |CalibrationSeries|
      && |points| == |CalibrationSeries[serie]|
      && (forall i :: 0 <= i < |points| ==> InWindow(CalibrationSeries[serie][i], points[i]))
      && 0 <= currentReading <= MaxMasked
      && (forall i :: 0 <= i < |readings| ==> 0 <= readings[i] <= MaxMasked)
      && (Tracking(s) ==> currentPoint <= |points| && currentPoint <= |readings|)
      && (s == PowerReminder ==> currentPoint == 0)
      && (s == CurrentPoint || s == Result ==> currentPoint < |points|)
      && (s == InputDone ==> currentPoint == |points|)
      && (s == StartOutput || s == AllDone ==> Built(CurrentCurve()) && |readings| == |points|)
      && (s == AllDone ==> outputDuties.Some? && DutyTable(outputDuties.value))
    }

    ghost predicate Valid()
      reads this
    {
      ValidIn(state)
    }

    /** `__init__` with the series restored from the saved state (0 when
        there is none), and the machine started in `start` as `main` does. */
    constructor (saved: Option<nat>)
      requires saved.Some? ==> saved.value < |CalibrationSeries|
      ensures Valid() && !halted
      ensures state == Start && serie == (if saved.Some? then saved.value else 0)
      ensures points == CalibrationSeries[serie] && readings == []
      ensures currentPoint == 0 && currentReading == 0 && ainGradients == [] && outputDuties == None
    {
      state := Start;
      serie := if saved.Some? then saved.value else 0;
      points := CalibrationSeries[if saved.Some? then saved.value else 0];
      readings := [];
      currentPoint := 0;
      currentReading := 0;
      ainGradients := [];
      outputDuties := None;
      halted := false;
      new;
      CalibrationSeriesShape();
      forall i | 0 <= i < |points| ensures InWindow(CalibrationSeries[serie][i], points[i]) {
        NominalInWindow(points[i]);
      }
    }

    /** The fine-tuned points still increase: each lies in its own window. */
    lemma PointsIncrease()
      requires Valid()
      ensures StrictlyIncreasingReal(points)
    {
      CalibrationSeriesShape();
      forall i, j | 0 <= i < j < |points| ensures points[i] < points[j] {
        WindowsOrdered(CalibrationSeries[serie], i, j, points[i], points[j]);
      }
    }

    /** `do_select_serie`: a knob position that differs from the current
        series and names one selects it, resets the points to its nominal
        voltages and drops the readings; any other position changes nothing. */
    method DoSelectSerie(n: nat)
      requires Valid() && state == Start
      modifies this
      ensures n != old(serie) && n < |CalibrationSeries| ==>
                serie == n && points == CalibrationSeries[n] && readings == []
      ensures !(n != old(serie) && n < |CalibrationSeries|) ==>
                serie == old(serie) && points == old(points) && readings == old(readings)
      ensures state == old(state) && currentPoint == old(currentPoint) && currentReading == old(currentReading)
      ensures ainGradients == old(ainGradients) && outputDuties == old(outputDuties) && halted == old(halted)
      ensures Valid()
    {
      if n != serie && n < |CalibrationSeries| {
        serie := n;
        points := CalibrationSeries[n];
        readings := [];
        CalibrationSeriesShape();
        forall i | 0 <= i < |points| ensures InWindow(CalibrationSeries[serie][i], points[i]) {
          NominalInWindow(points[i]);
        }
      }
    }

    /** `do_init_input_calibration`: back to the first point. The readings of
        an earlier, interrupted run are kept. */
    method DoInitInputCalibration()
      requires Valid()
      modifies this
      ensures currentPoint == 0 && currentReading == 0
      ensures state == old(state) && serie == old(serie) && points == old(points) && readings == old(readings)
      ensures ainGradients == old(ainGradients) && outputDuties == old(outputDuties) && halted == old(halted)
      ensures ValidIn(PowerReminder)
    {
      currentPoint := 0;
      currentReading := 0;
    }

    /** `do_adjust10th`: the current point becomes its nominal voltage moved
        by knob 1's tenths, whatever knob 2 had set before. */
    method DoAdjust10th(k1: nat)
      requires Valid() && state == CurrentPoint && k1 < KnobSteps
      modifies this
      ensures points == old(points[currentPoint := ChangeTenthBipolar(CalibrationSeries[serie][currentPoint], k1)])
      ensures state == old(state) && serie == old(serie) && readings == old(readings)
      ensures currentPoint == old(currentPoint) && currentReading == old(currentReading)
      ensures ainGradients == old(ainGradients) && outputDuties == old(outputDuties) && halted == old(halted)
      ensures Valid()
    {
      var nominal := CalibrationSeries[serie][currentPoint];
      CalibrationSeriesShape();
      TenthsStayInWindow(nominal, k1);
      points := points[currentPoint := ChangeTenthBipolar(nominal, k1)];
    }

    /** `do_adjust100th`: knob 2 sets the hundredths digit of the current point. */
    method DoAdjust100th(k2: nat)
      requires Valid() && state == CurrentPoint && k2 < KnobSteps
      modifies this
      ensures points == old(points[currentPoint := ChangeDecimal(points[currentPoint], 2, k2)])
      ensures state == old(state) && serie == old(serie) && readings == old(readings)
      ensures currentPoint == old(currentPoint) && currentReading == old(currentReading)
      ensures ainGradients == old(ainGradients) && outputDuties == old(outputDuties) && halted == old(halted)
      ensures Valid()
    {
      var nominal := CalibrationSeries[serie][currentPoint];
      CalibrationSeriesShape();
      HundredthsStayInWindow(nominal, points[currentPoint], k2);
      points := points[currentPoint := ChangeDecimal(points[currentPoint], 2, k2)];
    }

    /** `do_calibrate_point`: sample the voltage applied for the current point. */
    method DoCalibratePoint(raws: seq<U16>)
      requires Valid() && state == CurrentPoint && |raws| == SampleCount
      modifies this
      ensures currentReading == OversampledReading(raws)
      ensures state == old(state) && serie == old(serie) && points == old(points) && readings == old(readings)
      ensures currentPoint == old(currentPoint)
      ensures ainGradients == old(ainGradients) && outputDuties == old(outputDuties) && halted == old(halted)
      ensures ValidIn(Result)
    {
      currentReading := Sample(raws);
      SampleInRange(raws);
    }

    /** `do_retry`: nothing is discarded; the same point is sampled again. */
    method DoRetry()
      requires Valid() && state == Result
      ensures ValidIn(CurrentPoint)
    {
    }

    /** `do_select_next_point_or_save`: keep the sampled reading, move to the
        next point, and name the next state: `input_done` after the last point,
        `current_point` before it. */
    method DoSelectNextPointOrSave() returns (next: State)
      requires Valid() && state == Result
      modifies this
      ensures readings == old(readings) + [old(currentReading)]
      ensures currentPoint == old(currentPoint) + 1
      ensures next == InputDone <==> currentPoint == |points|
      ensures next == CurrentPoint <==> currentPoint < |points|
      ensures state == old(state) && serie == old(serie) && points == old(points)
      ensures currentReading == old(currentReading)
      ensures ainGradients == old(ainGradients) && outputDuties == old(outputDuties) && halted == old(halted)
      ensures ValidIn(next)
    {
      readings := readings + [currentReading];
      currentPoint := currentPoint + 1;
      if currentPoint == |points| {
        next := InputDone;
      } else {
        next := CurrentPoint;
      }
    }

    /** `compute_ain_gradients`: None with the slope table of the points and
        readings, or the reason it raises, with the slopes appended before. */
    method ComputeAinGradients() returns (raised: Option<CalibrationError>)
      modifies this
      ensures raised.None? <==> GradientTable(points, readings).Success?
      ensures raised.None? ==> ainGradients == GradientTable(points, readings).value
      ensures raised.Some? ==> GradientTable(points, readings) == Failure(raised.value)
      ensures raised.Some? ==>
                GradientsUpToFault(points, readings, ainGradients)
      ensures state == old(state) && serie == old(serie) && points == old(points) && readings == old(readings)
      ensures currentPoint == old(currentPoint) && currentReading == old(currentReading)
      ensures outputDuties == old(outputDuties) && halted == old(halted)
    {
      ainGradients := [];
      var index := 0;
      while index + 1 < |readings|
        invariant 0 <= index <= |readings|
        invariant index > 0 ==> index < |readings|
        invariant forall j :: 0 <= j < index ==> SlopeDefined(points, readings, j)
        invariant FirstFault(points, readings, 0) == FirstFault(points, readings, index)
        invariant ainGradients == Slopes(points, readings, index)
        invariant state == old(state) && serie == old(serie) && points == old(points) && readings == old(readings)
        invariant currentPoint == old(currentPoint) && currentReading == old(currentReading)
        invariant outputDuties == old(outputDuties) && halted == old(halted)
        decreases |readings| - index
      {
        if index + 1 >= |points| {
          // `points[index + 1]` is out of range
          return Some(MissingPoint);
        }
        if readings[index + 1] == readings[index] {
          // the division by zero, re-raised
          return Some(Degenerate);
        }
        ainGradients := ainGradients + [Slope(points, readings, index)];
        index := index + 1;
      }
      if |ainGradients| == 0 {
        // `ain_gradients[-1]` on an empty list
        return Some(TooFewReadings);
      }
      ainGradients := ainGradients + [ainGradients[|ainGradients| - 1]];
      return None;
    }

    /** `do_prepare_output_calibration`: "start_output" when the gradients can
        be computed, "error" when computing them raises. */
    method DoPrepareOutputCalibration() returns (next: State)
      requires Valid() && state == InputDone
      modifies this
      ensures next == StartOutput <==> GradientTable(points, readings).Success?
      ensures next == Error <==> GradientTable(points, readings).Failure?
      ensures next == StartOutput ==> ainGradients == GradientTable(points, readings).value
      ensures next == Error ==> GradientsUpToFault(points, readings, ainGradients)
      ensures state == old(state) && serie == old(serie) && points == old(points) && readings == old(readings)
      ensures currentPoint == old(currentPoint) && currentReading == old(currentReading)
      ensures outputDuties == old(outputDuties) && halted == old(halted)
      ensures ValidIn(next)
    {
      var raised := ComputeAinGradients();
      if raised.None? {
        next := StartOutput;
      } else {
        next := Error;
      }
    }

    /** A curve that reached `start_output` has a nonzero slope on every
        segment, so the output search can solve for every volt. */
    lemma CurveUsable()
      requires Valid() && (state == StartOutput || state == AllDone)
      ensures Usable(CurrentCurve())
    {
      var c := CurrentCurve();
      BuiltIsSlopeTable(c);
      PointsIncrease();
      forall j | 0 <= j < |c.points| ensures c.gradients[j] != 0.0 {
        GradientNonzero(c, j);
      }
      UsableWhenGradientsNonzero(c);
    }

    /** `do_calibrate_output`: run the output search on the input curve and
        keep the duties it writes to the calibration file; when the samples
        run out before a target is met the search is still running. */
    method DoCalibrateOutput(samples: seq<nat>)
      requires Valid() && state == StartOutput && !halted
      modifies this
      ensures Usable(CurrentCurve())
      ensures outputDuties == OutputDuties(Targets(CurrentCurve()), samples)
      ensures halted <==> outputDuties.None?
      ensures state == old(state) && serie == old(serie) && points == old(points) && readings == old(readings)
      ensures currentPoint == old(currentPoint) && currentReading == old(currentReading)
      ensures ainGradients == old(ainGradients)
      ensures Valid()
      ensures !halted ==> ValidIn(AllDone)
    {
      CurveUsable();
      outputDuties := ExecuteOutputsCalibration(CurrentCurve(), samples);
      if outputDuties.None? {
        halted := true;
      } else {
        OutputDutiesShape(Targets(CurrentCurve()), samples);
      }
    }

    /** `do_reset`: the board restarts. */
    method DoReset()
      modifies this
      ensures halted
      ensures state == old(state) && serie == old(serie) && points == old(points) && readings == old(readings)
      ensures currentPoint == old(currentPoint) && currentReading == old(currentReading)
      ensures ainGradients == old(ainGradients) && outputDuties == old(outputDuties)
    {
      halted := true;
    }

    /** The calibration data: every field but the state name. */
    function Snapshot(): Data
      reads this`serie, this`points, this`readings, this`currentPoint, this`currentReading
      reads this`ainGradients, this`outputDuties, this`halted
    {
      Data(serie, points, readings, currentPoint, currentReading, ainGradients, outputDuties, halted)
    }

    /** Nothing but the state name changes. */
    twostate predicate DataKept()
      reads this`serie, this`points, this`readings, this`currentPoint, this`currentReading
      reads this`ainGradients, this`outputDuties, this`halted
    {
      Snapshot() == old(Snapshot())
    }

    /** Action a, run with the hardware read as `input`, has the effect its
        `do_*` method states. */
    twostate predicate ActionEffect(a: Option<Action>, input: Inputs)
      reads this`serie, this`points, this`readings, this`currentPoint, this`currentReading
      reads this`ainGradients, this`outputDuties, this`halted
    {
      Effect(a, input, old(Snapshot()), Snapshot())
    }

    /** The action the table names for e in the current state, run with what
        it reads from the hardware; returns the state name it returns. */
    method Perform(e: Event, input: Inputs) returns (returned: Option<State>)
      requires Valid() && !halted && WellFormed(input) && Table(state, e).Some?
      modifies this
      ensures state == old(state)
      ensures MayReturn(Table(state, e).value.action, returned)
      ensures !halted ==> ValidIn(NextState(state, e, returned))
      ensures halted ==> Valid() && e == B2 && state in {StartOutput, AllDone, Error}
      ensures ActionEffect(Table(state, e).value.action, input)
      ensures Table(state, e).value.action == Some(PrepareOutputCalibration) ==>
                (returned == Some(StartOutput) <==> GradientTable(points, readings).Success?)
    {
      var a := Table(state, e).value.action;
      if a.Some? && a.value in {PrepareOutputCalibration, CalibrateOutput, Reset} {
        returned := PerformOutputAction(e, input);
      } else {
        returned := PerformInputAction(e, input);
      }
    }

    /** The actions of the input calibration and of the states before it. */
    method PerformInputAction(e: Event, input: Inputs) returns (returned: Option<State>)
      requires Valid() && !halted && WellFormed(input) && Table(state, e).Some?
      requires Table(state, e).value.action !in {Some(PrepareOutputCalibration), Some(CalibrateOutput), Some(Reset)}
      modifies this
      ensures state == old(state) && !halted
      ensures MayReturn(Table(state, e).value.action, returned)
      ensures ValidIn(NextState(state, e, returned))
      ensures ActionEffect(Table(state, e).value.action, input)
    {
      returned := None;
      var s, a := state, Table(state, e).value.action;
      ActionStates(s, e);
      match a {
        case None =>
        case Some(SelectSerie) => DoSelectSerie(input.k1Serie);
        case Some(InitInputCalibration) => DoInitInputCalibration();
        case Some(Adjust10th) => DoAdjust10th(input.k1Tenths);
        case Some(Adjust100th) => DoAdjust100th(input.k2Hundredths);
        case Some(CalibratePoint) => DoCalibratePoint(input.raws);
        case Some(Retry) => DoRetry();
        case Some(SelectNextPointOrSave) =>
          var next := DoSelectNextPointOrSave();
          returned := Some(next);
      }
    }

    /** The actions of the output calibration, and the reset at its end. */
    method PerformOutputAction(e: Event, input: Inputs) returns (returned: Option<State>)
      requires Valid() && !halted && Table(state, e).Some?
      requires Table(state, e).value.action in {Some(PrepareOutputCalibration), Some(CalibrateOutput), Some(Reset)}
      modifies this
      ensures state == old(state)
      ensures MayReturn(Table(state, e).value.action, returned)
      ensures !halted ==> ValidIn(NextState(state, e, returned))
      ensures halted ==> Valid() && e == B2 && state in {StartOutput, AllDone, Error}
      ensures ActionEffect(Table(state, e).value.action, input)
      ensures Table(state, e).value.action == Some(PrepareOutputCalibration) ==>
                (returned == Some(StartOutput) <==> GradientTable(points, readings).Success?)
    {
      returned := None;
      var s, a := state, Table(state, e).value.action;
      ActionStates(s, e);
      match a {
        case Some(PrepareOutputCalibration) =>
          var next := DoPrepareOutputCalibration();
          returned := Some(next);
        case Some(CalibrateOutput) => DoCalibrateOutput(input.outputSamples);
        case Some(Reset) => DoReset();
      }
    }

    /** `do_action(e)`: run the action the table names for e in the current
        state, then move to the state it returns or else to the handler's
        target. An unhandled event changes nothing. */
    method Dispatch(e: Event, input: Inputs) returns (returned: Option<State>)
      requires Valid() && !halted && WellFormed(input)
      modifies this
      ensures Valid()
      ensures Table(old(state), e).None? ==> returned == None && state == old(state) && DataKept()
      ensures Table(old(state), e).Some? ==> ActionEffect(Table(old(state), e).value.action, input)
      ensures Table(old(state), e).Some? ==> MayReturn(Table(old(state), e).value.action, returned)
      ensures !halted ==> state == NextState(old(state), e, returned)
      ensures halted ==> e == B2 && state == old(state) && old(state) in {StartOutput, AllDone, Error}
      ensures old(state) == InputDone && e == B2 ==>
                (state == StartOutput <==> GradientTable(points, readings).Success?)
    {
      if Table(state, e).None? {
        return None;
      }
      returned := Step(e, input);
    }

    /** A handled event: its action runs, then the state moves. */
    method Step(e: Event, input: Inputs) returns (returned: Option<State>)
      requires Valid() && !halted && WellFormed(input) && Table(state, e).Some?
      modifies this
      ensures Valid()
      ensures ActionEffect(Table(old(state), e).value.action, input)
      ensures MayReturn(Table(old(state), e).value.action, returned)
      ensures !halted ==> state == NextState(old(state), e, returned)
      ensures halted ==> e == B2 && state == old(state) && old(state) in {StartOutput, AllDone, Error}
      ensures old(state) == InputDone && e == B2 ==>
                (state == StartOutput <==> GradientTable(points, readings).Success?)
    {
      returned := Perform(e, input);
      if !halted {
        MoveTo(NextState(state, e, returned));
      }
    }

    /** The state transition alone: every data field, and so the curve they
        define, is left as it is. */
    method MoveTo(t: State)
      requires ValidIn(t)
      modifies this`state
      ensures state == t && Valid()
      ensures serie == old(serie) && points == old(points) && readings == old(readings)
      ensures currentPoint == old(currentPoint) && currentReading == old(currentReading)
      ensures ainGradients == old(ainGradients) && outputDuties == old(outputDuties) && halted == old(halted)
      ensures Snapshot() == old(Snapshot())
    {
      state := t;
    }
  }

  // ---------------------------------------------------------------------------
  // The main loop

  /** The event a pass of the main loop synthesises from the knobs, and the
      knob positions it remembers for the next pass. */
  datatype KnobOutcome = KnobOutcome(event: Option<Event>, k1prev: nat, k2prev: nat)

  /** The knob part of one pass of `main`'s loop: at most one event, knob 1
      before knob 2, and the redraw tick only in `current_point`; the
      remembered position is updated only for the knob that is reported. */
  function KnobStep(k1prev: nat, k2prev: nat, k1: nat, k2: nat, s: State): (r: KnobOutcome)
    ensures r.k1prev == k1
    ensures r.event == Some(K1) <==> k1 != k1prev
    ensures r.event == Some(K2) <==> k1 == k1prev && k2 != k2prev
    ensures r.event == Some(RefreshDisplay) <==> k1 == k1prev && k2 == k2prev && s == CurrentPoint
    ensures r.event.None? <==> k1 == k1prev && k2 == k2prev && s != CurrentPoint
    ensures r.k2prev == if r.event == Some(K1) then k2prev else k2
  {
    if k1 != k1prev then KnobOutcome(Some(K1), k1, k2prev)
    else if k2 != k2prev then KnobOutcome(Some(K2), k1prev, k2)
    else if s == CurrentPoint then KnobOutcome(Some(RefreshDisplay), k1prev, k2prev)
    else KnobOutcome(None, k1prev, k2prev)
  }

  /** A turn of knob 2 made while knob 1 is reported is not lost: with the
      knobs left where they are, the next pass reports knob 2, and the pass
      after that reports neither. */
  lemma KnobTwoReportedNext(k1prev: nat, k2prev: nat, k1: nat, k2: nat, s1: State, s2: State, s3: State)
    requires k1 != k1prev && k2 != k2prev
    ensures var t1 := KnobStep(k1prev, k2prev, k1, k2, s1);
            var t2 := KnobStep(t1.k1prev, t1.k2prev, k1, k2, s2);
            var t3 := KnobStep(t2.k1prev, t2.k2prev, k1, k2, s3);
            && t1.event == Some(K1) && t2.event == Some(K2)
            && t3.event != Some(K1) && t3.event != Some(K2)
  {
  }

  /** One pass of `main`'s loop: the button event the interrupt handlers
      queued, if any, and what the actions and the knob polling read. */
  datatype Tick = Tick(button: Option<Event>, input: Inputs)

  predicate WellFormedTick(t: Tick)
  {
    && (t.button.Some? ==> t.button.value == B1 || t.button.value == B2)
    && WellFormed(t.input)
  }

  /** Every consecutive pair of states stays or follows an arrow of the
      workflow. */
  ghost predicate Walk(trace: seq<State>)
  {
    forall i :: 0 <= i < |trace| - 1 ==> trace[i + 1] == trace[i] || Arrow(trace[i], trace[i + 1])
  }

  /** A walk that ends in t without starting there entered t at some point,
      through one of the states with an arrow into t. */
  lemma {:induction false} EnteredThrough(trace: seq<State>, t: State, from: State)
    requires Walk(trace) && |trace| >= 1
    requires trace[0] != t && trace[|trace| - 1] == t
    requires forall s :: Arrow(s, t) ==> s == from
    ensures exists i :: 0 <= i < |trace| - 1 && trace[i] == from && trace[i + 1] == t
  {
    var n := |trace| - 1;
    if trace[n - 1] == t {
      assert Walk(trace[..n]) by {
        forall i | 0 <= i < n - 1
          ensures trace[..n][i + 1] == trace[..n][i] || Arrow(trace[..n][i], trace[..n][i + 1])
        {
          assert trace[i + 1] == trace[i] || Arrow(trace[i], trace[i + 1]);
        }
      }
      EnteredThrough(trace[..n], t, from);
      var i :| 0 <= i < n - 1 && trace[..n][i] == from && trace[..n][i + 1] == t;
      assert trace[i] == from && trace[i + 1] == t;
    } else {
      assert Arrow(trace[n - 1], t);
    }
  }

  /** The outputs are calibrated only with a curve from a completed input
      calibration: every walk from `start` to `all_done` went from
      `input_done` to `start_output` and from there to `all_done`. */
  lemma OutputsAfterInputs(trace: seq<State>)
    requires Walk(trace) && |trace| >= 1
    requires trace[0] == Start && trace[|trace| - 1] == AllDone
    ensures exists i :: 0 <= i < |trace| - 1 && trace[i] == StartOutput && trace[i + 1] == AllDone
    ensures exists i :: 0 <= i < |trace| - 1 && trace[i] == InputDone && trace[i + 1] == StartOutput
  {
    EnteredThrough(trace, AllDone, StartOutput);
    var k :| 0 <= k < |trace| - 1 && trace[k] == StartOutput && trace[k + 1] == AllDone;
    var prefix := trace[..k + 1];
    assert Walk(prefix) by {
      forall i | 0 <= i < k
        ensures prefix[i + 1] == prefix[i] || Arrow(prefix[i], prefix[i + 1])
      {
        assert trace[i + 1] == trace[i] || Arrow(trace[i], trace[i + 1]);
      }
    }
    EnteredThrough(prefix, StartOutput, InputDone);
    var j :| 0 <= j < |prefix| - 1 && prefix[j] == InputDone && prefix[j + 1] == StartOutput;
    assert trace[j] == InputDone && trace[j + 1] == StartOutput;
  }

  /** `main` after the set-up: `start`, then for each pass the queued button
      event and the knob event it synthesises, until the script halts.
      Returns the states the machine went through. */
  method RunMainLoop(script: Calibrate, k1Start: nat, k2Start: nat, ticks: seq<Tick>) returns (trace: seq<State>)
    requires script.Valid() && !script.halted && script.state == Start
    requires forall i :: 0 <= i < |ticks| ==> WellFormedTick(ticks[i])
    modifies script
    ensures script.Valid()
    ensures |trace| >= 1 && trace[0] == Start && trace[|trace| - 1] == script.state
    ensures Walk(trace)
  {
    var k1prev, k2prev := k1Start, k2Start;
    trace := [script.state];
    var i := 0;
    while i < |ticks| && !script.halted
      invariant 0 <= i <= |ticks|
      invariant script.Valid()
      invariant |trace| >= 1 && trace[0] == Start && trace[|trace| - 1] == script.state
      invariant Walk(trace)
    {
      var tick := ticks[i];
      assert WellFormedTick(tick);
      if tick.button.Some? {
        trace := Handle(script, tick.button.value, tick.input, trace);
      }
      if !script.halted {
        var knobs := KnobStep(k1prev, k2prev, tick.input.k1Tenths, tick.input.k2Hundredths, script.state);
        k1prev, k2prev := knobs.k1prev, knobs.k2prev;
        if knobs.event.Some? {
          trace := Handle(script, knobs.event.value, tick.input, trace);
        }
      }
      i := i + 1;
    }
  }

  /** Dispatch one event and record the state it leaves the machine in. */
  method Handle(script: Calibrate, e: Event, input: Inputs, trace0: seq<State>) returns (trace: seq<State>)
    requires script.Valid() && !script.halted && WellFormed(input)
    requires |trace0| >= 1 && trace0[|trace0| - 1] == script.state && Walk(trace0)
    modifies script
    ensures script.Valid()
    ensures trace == trace0 + [script.state]
    ensures Walk(trace)
  {
    ghost var before := script.state;
    var returned := script.Dispatch(e, input);
    if Table(before, e).Some? {
      TransitionsFollowWorkflow(before, e, returned);
    }
    trace := trace0 + [script.state];
    WalkExtends(trace0, script.state);
  }

  /** A walk stays a walk when it is extended by its last state or by a
      state that last state has an arrow to. */
  lemma WalkExtends(trace0: seq<State>, t: State)
    requires |trace0| >= 1 && Walk(trace0)
    requires t == trace0[|trace0| - 1] || Arrow(trace0[|trace0| - 1], t)
    ensures Walk(trace0 + [t])
  {
  }

  /** Restarting from `start` without choosing another series keeps the
      readings of the interrupted run, so the restarted run ends in `error`:
      its readings outnumber its points. */
  lemma RerunKeepsEarlierReadings(points: seq<real>, earlier: seq<int>, again: seq<int>)
    requires |earlier| >= 1 && |again| == |points|
    ensures GradientTable(points, earlier + again).Failure?
  {
  }
}
