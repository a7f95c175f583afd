/** The output calibration of `execute_outputs_calibration`: with CV1 patched
    into the analog input, raise CV1's PWM duty cycle until the oversampled
    input reading reaches the reading the input curve expects for 1 V, then
    for 2 V, ... up to 10 V, recording the duty reached at each volt.

    The PWM output and the ADC are not modelled. The readings `sample` returns
    after each duty change are an input stream, consumed one per `sample`
    call. The source keeps raising the duty for as long as the reading stays
    below its target; when the model's stream ends first, it reports `None`
    where the device would still be searching. */
module OutputSearch {
  import opened Wrappers
  import opened Numeric
  import opened CalibrationCurve

  /** `range(1, 11)`: the volts calibrated, whatever the calibration series. */
  const FirstVolt: nat := 1
  const LastVolt: nat := 10

  /** How much one iteration raises the duty cycle and how long it then lets
      the output settle, in seconds. */
  datatype Step = Step(increment: nat, wait: real)

  /** The step rule: the closer the reading is to its target (the larger
      reading / expected), the smaller the increment and the longer the wait. */
  function StepFor(ratio: real): (s: Step)
    ensures 10 <= s.increment <= 1000
    ensures 0.0 <= s.wait <= 0.2
    ensures ratio < 0.5 <==> s.increment == 1000
    ensures ratio >= 0.99 <==> s.increment == 10
    ensures s.wait > 0.0 <==> ratio >= 0.95
  {
    if ratio < 0.5 then Step(1000, 0.0)
    else if ratio < 0.8 then Step(200, 0.0)
    else if ratio < 0.95 then Step(100, 0.0)
    else if ratio < 0.99 then Step(20, 0.1)
    else Step(10, 0.2)
  }

  /** The further from the target, the coarser the step and the shorter the wait. */
  lemma StepCoarseToFine(r1: real, r2: real)
    requires r1 <= r2
    ensures StepFor(r1).increment >= StepFor(r2).increment
    ensures StepFor(r1).wait <= StepFor(r2).wait
  {
  }

  /** The loop condition `abs(reading - expected) > 0.002 and reading < expected`. */
  predicate KeepClimbing(reading: int, expected: int)
  {
    AbsReal((reading - expected) as real) > 0.002 && reading < expected
  }

  /** Readings and targets are integers, so the tolerance test adds nothing:
      the loop runs exactly while the reading is below its target. */
  lemma KeepClimbingIffBelow(reading: int, expected: int)
    ensures KeepClimbing(reading, expected) <==> reading < expected
  {
    if reading < expected {
      assert (expected - reading) as real >= 1.0;
    }
  }

  /** The state of the search after one volt: the duty reached, the reading
      that ended the loop, and how many samples of the stream were used. */
  datatype Climb = Climb(duty: nat, reading: nat, used: nat)

  /** The inner while loop for one target, from `duty` and `reading`, with
      samples[next..] still to come; None when the stream ends first. */
  function ClimbFrom(duty: nat, reading: nat, expected: int, samples: seq<nat>, next: nat): (r: Option<Climb>)
    requires next <= |samples|
    ensures r.Some? ==> r.value.reading >= expected
    ensures r.Some? ==> next <= r.value.used <= |samples|
    ensures r.Some? ==> (r.value.duty == duty <==> reading >= expected)
    ensures r.Some? ==> duty + 10 * (r.value.used - next) <= r.value.duty <= duty + 1000 * (r.value.used - next)
    ensures r.Some? && reading >= expected ==> r.value == Climb(duty, reading, next)
    decreases |samples| - next
  {
    KeepClimbingIffBelow(reading, expected);
    if !KeepClimbing(reading, expected) then Some(Climb(duty, reading, next))
    else if next == |samples| then None
    else
      var step := StepFor(reading as real / expected as real);
      ClimbFrom(duty + step.increment, samples[next], expected, samples, next + 1)
  }

  /** While the reading stays below its target the source never leaves the
      loop: a stream none of whose readings reaches the target ends the model's
      search without a result. */
  lemma {:induction false} ClimbNeverReaching(duty: nat, reading: nat, expected: int, samples: seq<nat>, next: nat)
    requires next <= |samples|
    requires reading < expected
    requires forall i :: next <= i < |samples| ==> samples[i] < expected
    ensures ClimbFrom(duty, reading, expected, samples, next) == None
    decreases |samples| - next
  {
    KeepClimbingIffBelow(reading, expected);
    if next < |samples| {
      var step := StepFor(reading as real / expected as real);
      ClimbNeverReaching(duty + step.increment, samples[next], expected, samples, next + 1);
    }
  }

  /** The outer for loop over the targets: the duty recorded for each target,
      the duty carried over from one target to the next. */
  function Sweep(targets: seq<int>, duty: nat, reading: nat, samples: seq<nat>, next: nat): (r: Option<seq<nat>>)
    requires next <= |samples|
    ensures r.Some? ==> |r.value| == |targets|
    ensures r.Some? ==> forall i :: 0 <= i < |r.value| ==> duty <= r.value[i]
    ensures r.Some? ==> forall i, j :: 0 <= i < j < |r.value| ==> r.value[i] <= r.value[j]
    decreases |targets|
  {
    if |targets| == 0 then Some([])
    else
      match ClimbFrom(duty, reading, targets[0], samples, next)
      case None => None
      case Some(c) =>
        match Sweep(targets[1..], c.duty, c.reading, samples, c.used)
        case None => None
        case Some(ds) => Some([c.duty] + ds)
  }

  /** What `execute_outputs_calibration` records, given the readings the input
      curve expects for 1 V .. 10 V and the stream of samples: first the
      reading at duty 0, then one duty per volt. */
  function OutputDuties(targets: seq<int>, samples: seq<nat>): Option<seq<nat>>
  {
    if |samples| == 0 then None
    else
      match Sweep(targets, 0, samples[0], samples, 1)
      case None => None
      case Some(ds) => Some([0] + ds)
  }

  /** `cv_to_reading(v)` would not divide by a zero slope. */
  ghost predicate SolvableAt(c: Curve, v: nat)
    requires |c.points| <= |c.gradients|
  {
    PointSegment(c.points, v as real) >= 0 ==> c.gradients[PointSegment(c.points, v as real)] != 0.0
  }

  /** The input curve can give a target for every volt of the sweep. */
  ghost predicate Usable(c: Curve)
  {
    && 1 <= |c.readings|
    && |c.points| <= |c.readings| && |c.points| <= |c.gradients|
    && forall v: nat :: FirstVolt <= v <= LastVolt ==> SolvableAt(c, v)
  }

  /** A curve whose gradients at the points are all nonzero is usable. */
  lemma UsableWhenGradientsNonzero(c: Curve)
    requires 1 <= |c.readings| && |c.points| <= |c.readings| && |c.points| <= |c.gradients|
    requires forall j :: 0 <= j < |c.points| ==> c.gradients[j] != 0.0
    ensures Usable(c)
  {
    forall v: nat | FirstVolt <= v <= LastVolt ensures SolvableAt(c, v) {
    }
  }

  /** `cv_to_reading(v)`, the reading the target for volt v is set to. */
  function TargetFor(c: Curve, v: nat): int
    requires Usable(c) && FirstVolt <= v <= LastVolt
  {
    assert SolvableAt(c, v);
    CvToReading(c, v as real)
  }

  /** `cv_to_reading(v)` for v = 1 .. 10. */
  function Targets(c: Curve): (t: seq<int>)
    requires Usable(c)
    ensures |t| == LastVolt - FirstVolt + 1
    ensures forall i :: 0 <= i < |t| ==> t[i] == TargetFor(c, FirstVolt + i)
  {
    seq(LastVolt - FirstVolt + 1, i requires 0 <= i < LastVolt - FirstVolt + 1 => TargetFor(c, FirstVolt + i))
  }

  /** The duties recorded so far followed by the ones still to come. */
  function Then(done: seq<nat>, rest: Option<seq<nat>>): Option<seq<nat>>
  {
    match rest
    case None => None
    case Some(ds) => Some(done + ds)
  }

  lemma ThenAppends(done: seq<nat>, more: seq<nat>, rest: Option<seq<nat>>)
    ensures Then(done, Then(more, rest)) == Then(done + more, rest)
  {
    if rest.Some? {
      assert done + (more + rest.value) == (done + more) + rest.value;
    }
  }

  /** Before the outer loop: the reading at duty 0 is recorded first. */
  lemma OutputDutiesStart(targets: seq<int>, samples: seq<nat>)
    requires |samples| > 0
    ensures OutputDuties(targets, samples) == Then([0], Sweep(targets, 0, samples[0], samples, 1))
  {
  }

  /** One step of the outer loop: the first target is met at `duty`. */
  lemma SweepUnfold(targets: seq<int>, d0: nat, r0: nat, samples: seq<nat>, n0: nat, duty: nat, reading: nat, next: nat)
    requires n0 <= |samples| && next <= |samples| && |targets| > 0
    requires ClimbFrom(d0, r0, targets[0], samples, n0) == Some(Climb(duty, reading, next))
    ensures Sweep(targets, d0, r0, samples, n0) == Then([duty], Sweep(targets[1..], duty, reading, samples, next))
  {
  }

  /** The inner while loop: raise the duty until the reading reaches
      `expected`, taking the next sample after each change. */
  method ClimbTo(duty0: nat, reading0: nat, expected: int, samples: seq<nat>, next0: nat) returns (r: Option<Climb>)
    requires next0 <= |samples|
    ensures r == ClimbFrom(duty0, reading0, expected, samples, next0)
  {
    var duty: nat, reading: nat, next: nat := duty0, reading0, next0;
    while KeepClimbing(reading, expected)
      invariant next <= |samples|
      invariant ClimbFrom(duty, reading, expected, samples, next) == ClimbFrom(duty0, reading0, expected, samples, next0)
      decreases |samples| - next
    {
      if next == |samples| {
        return None;
      }
      var step := StepFor(reading as real / expected as real);
      duty := duty + step.increment;
      reading := samples[next];
      next := next + 1;
    }
    return Some(Climb(duty, reading, next));
  }

  /** The search of `execute_outputs_calibration` for the curve's targets
      `cv_to_reading(1)` .. `cv_to_reading(10)`; returns the list of output
      duties the source writes out, or None when the stream of samples ends
      before a target is reached. */
  method ExecuteOutputsCalibration(c: Curve, samples: seq<nat>) returns (outputDuties: Option<seq<nat>>)
    requires Usable(c)
    ensures outputDuties == OutputDuties(Targets(c), samples)
  {
    var targets := Targets(c);
    outputDuties := SweepVolts(targets, samples);
  }

  /** The loops of the search, the outer one over the volts' targets: record
      duty 0 and its reading, then climb to each target in turn. */
  method SweepVolts(targets: seq<int>, samples: seq<nat>) returns (outputDuties: Option<seq<nat>>)
    ensures outputDuties == OutputDuties(targets, samples)
  {
    if |samples| == 0 {
      return None;
    }
    var duty: nat := 0;
    var duties: seq<nat> := [duty];
    var reading: nat := samples[0];
    var next: nat := 1;
    var i: nat := 0;
    assert targets[0..] == targets;
    OutputDutiesStart(targets, samples);
    while i < |targets|
      invariant i <= |targets|
      invariant next <= |samples|
      invariant OutputDuties(targets, samples) ==
                  Then(duties, Sweep(targets[i..], duty, reading, samples, next))
    {
      var climb := ClimbTo(duty, reading, targets[i], samples, next);
      if climb.None? {
        SweepStops(targets, i, duty, reading, samples, next);
        return None;
      }
      SweepAdvance(targets, i, duties, duty, reading, samples, next, climb.value);
      duty, reading, next := climb.value.duty, climb.value.reading, climb.value.used;
      duties := duties + [duty];
      i := i + 1;
    }
    assert |targets[i..]| == 0;
    assert duties + [] == duties;
    outputDuties := Some(duties);
  }

  /** The search ends without a result when the climb to target i does. */
  lemma SweepStops(targets: seq<int>, i: nat, duty: nat, reading: nat, samples: seq<nat>, next: nat)
    requires i < |targets| && next <= |samples|
    requires ClimbFrom(duty, reading, targets[i], samples, next) == None
    ensures Sweep(targets[i..], duty, reading, samples, next) == None
  {
    assert targets[i..][0] == targets[i];
  }

  /** One pass of the outer loop moves the duty met for target i from the
      sweep still to come onto the duties recorded. */
  lemma SweepAdvance(targets: seq<int>, i: nat, duties: seq<nat>, duty: nat, reading: nat,
                     samples: seq<nat>, next: nat, climb: Climb)
    requires i < |targets| && next <= |samples|
    requires ClimbFrom(duty, reading, targets[i], samples, next) == Some(climb)
    ensures climb.used <= |samples|
    ensures Then(duties, Sweep(targets[i..], duty, reading, samples, next)) ==
              Then(duties + [climb.duty], Sweep(targets[i + 1..], climb.duty, climb.reading, samples, climb.used))
  {
    assert targets[i..][0] == targets[i];
    assert targets[i..][1..] == targets[i + 1..];
    SweepUnfold(targets[i..], duty, reading, samples, next, climb.duty, climb.reading, climb.used);
    ThenAppends(duties, [climb.duty], Sweep(targets[i + 1..], climb.duty, climb.reading, samples, climb.used));
  }

  /** A completed output calibration records 11 duties: 0 for 0 V and one per
      volt, never decreasing, since the duty is not reset between volts. */
  lemma OutputDutiesShape(targets: seq<int>, samples: seq<nat>)
    requires OutputDuties(targets, samples).Some?
    ensures var ds := OutputDuties(targets, samples).value;
            && |ds| == |targets| + 1
            && ds[0] == 0
            && forall i, j :: 0 <= i < j < |ds| ==> ds[i] <= ds[j]
  {
  }
}
