/** The analog-input calibration curve: a slope table built from the
    calibration points (reference voltages) and the readings sampled at them,
    and the two piecewise-linear conversions it supports, raw reading to
    voltage and voltage to raw reading. */
module CalibrationCurve {
  import opened Wrappers
  import opened Numeric

  /** `reading_to_voltage` never reports more than this. */
  const MaxVoltage: real := 12.0

  /** Why `compute_ain_gradients` raises. */
  datatype CalibrationError =
    | Degenerate      // two equal consecutive readings: the division by zero, re-raised
    | MissingPoint    // more readings than points: `points[index + 1]` is out of range
    | TooFewReadings  // fewer than two readings: `ain_gradients[-1]` on an empty list

  /** The first index at which the gradient loop raises, and what it raises. */
  datatype Fault = Fault(at: nat, kind: CalibrationError)

  /** The three sequences of a built calibration: points, readings, slopes. */
  datatype Curve = Curve(points: seq<real>, readings: seq<int>, gradients: seq<real>)

  /** Segment j can be computed without raising. */
  predicate SlopeDefined(points: seq<real>, readings: seq<int>, j: nat)
  {
    j + 1 < |points| && j + 1 < |readings| && readings[j + 1] != readings[j]
  }

  /** The slope of segment i, in volts per raw unit. */
  function Slope(points: seq<real>, readings: seq<int>, i: nat): real
    requires SlopeDefined(points, readings, i)
  {
    (points[i + 1] - points[i]) / (readings[i + 1] - readings[i]) as real
  }

  /** Segment j is the first that raises, and it raises because its two
      readings are equal. */
  ghost predicate FirstRepeatedReading(points: seq<real>, readings: seq<int>, j: nat)
  {
    && j + 1 < |readings| && j + 1 < |points|
    && readings[j + 1] == readings[j]
    && forall i :: 0 <= i < j ==> SlopeDefined(points, readings, i)
  }

  /** Looking at segments i, i+1, ..., the first whose slope raises. The
      point lookup comes before the division, so a missing point is reported
      before a repeated reading at the same index. */
  function FirstFault(points: seq<real>, readings: seq<int>, i: nat): (f: Option<Fault>)
    ensures f.None? <==>
              forall j :: i <= j < |readings| - 1 ==> SlopeDefined(points, readings, j)
    ensures f.Some? ==>
              && i <= f.value.at < |readings| - 1
              && (forall j :: i <= j < f.value.at ==> SlopeDefined(points, readings, j))
              && (f.value.kind == MissingPoint <==> f.value.at + 1 >= |points|)
              && (f.value.kind == Degenerate <==>
                    f.value.at + 1 < |points| && readings[f.value.at + 1] == readings[f.value.at])
              && f.value.kind != TooFewReadings
    decreases |readings| - i
  {
    if i + 1 >= |readings| then None
    else if !SlopeDefined(points, readings, i) then
      Some(Fault(i, if i + 1 >= |points| then MissingPoint else Degenerate))
    else FirstFault(points, readings, i + 1)
  }

  /** Slopes 0 .. k-1, the list the loop has built when it reaches index k. */
  function Slopes(points: seq<real>, readings: seq<int>, k: nat): (s: seq<real>)
    requires forall j :: 0 <= j < k ==> SlopeDefined(points, readings, j)
    ensures |s| == k
    ensures forall j :: 0 <= j < k ==> s[j] == Slope(points, readings, j)
  {
    seq(k, j requires 0 <= j < k => Slope(points, readings, j))
  }

  /** `compute_ain_gradients`: one slope per pair of consecutive readings, and
      the last slope once more so that readings above the top point can be
      extrapolated; or the reason it raises. */
  function GradientTable(points: seq<real>, readings: seq<int>): (r: Result<seq<real>, CalibrationError>)
    ensures r.Success? <==>
              && 2 <= |readings| <= |points|
              && forall j :: 0 <= j < |readings| - 1 ==> readings[j + 1] != readings[j]
    ensures r.Success? ==>
              && |r.value| == |readings|
              && (forall j :: 0 <= j < |readings| - 1 ==> r.value[j] == Slope(points, readings, j))
              && r.value[|readings| - 1] == r.value[|readings| - 2]
    ensures (r.Failure? && r.error == TooFewReadings) <==> |readings| < 2
    ensures (r.Failure? && r.error == MissingPoint) <==>
              && 2 <= |readings| && |points| < |readings|
              && forall j :: 0 <= j < |points| - 1 ==> readings[j + 1] != readings[j]
    ensures (r.Failure? && r.error == Degenerate) <==>
              exists j :: FirstRepeatedReading(points, readings, j)
  {
    var fault := FirstFault(points, readings, 0);
    if fault.Some? then
      var a := fault.value.at;
      if fault.value.kind == MissingPoint then
        assert forall j :: 0 <= j < |points| - 1 ==> readings[j + 1] != readings[j] by {
          forall j | 0 <= j < |points| - 1 ensures readings[j + 1] != readings[j] {
            assert SlopeDefined(points, readings, j);
          }
        }
        Failure(MissingPoint)
      else
        assert FirstRepeatedReading(points, readings, a);
        Failure(Degenerate)
    else if |readings| < 2 then Failure(TooFewReadings)
    else
      assert SlopeDefined(points, readings, |readings| - 2);
      assert forall j :: 0 <= j < |readings| - 1 ==> readings[j + 1] != readings[j] by {
        forall j | 0 <= j < |readings| - 1 ensures readings[j + 1] != readings[j] {
          assert SlopeDefined(points, readings, j);
        }
      }
      var s := Slopes(points, readings, |readings| - 1);
      Success(s + [s[|readings| - 2]])
  }

  /** What a successful `compute_ain_gradients` leaves behind, stated on its own. */
  ghost predicate SlopeTable(c: Curve)
  {
    && 2 <= |c.readings| <= |c.points|
    && |c.gradients| == |c.readings|
    && (forall j :: 0 <= j < |c.readings| - 1 ==> c.readings[j + 1] != c.readings[j])
    && (forall j :: 0 <= j < |c.readings| - 1 ==> c.gradients[j] == Slope(c.points, c.readings, j))
    && c.gradients[|c.readings| - 1] == c.gradients[|c.readings| - 2]
  }

  /** The curve the calibration produced: its slope table is the one computed
      from its points and readings. */
  ghost predicate Built(c: Curve)
  {
    GradientTable(c.points, c.readings) == Success(c.gradients)
  }

  lemma BuiltIsSlopeTable(c: Curve)
    ensures Built(c) <==> SlopeTable(c)
  {
    var r := GradientTable(c.points, c.readings);
    if SlopeTable(c) {
      assert r.Success?;
      assert r.value == c.gradients;
    }
  }

  ghost predicate StrictlyIncreasing(xs: seq<int>)
  {
    forall i, j :: 0 <= i < j < |xs| ==> xs[i] < xs[j]
  }

  ghost predicate StrictlyIncreasingReal(xs: seq<real>)
  {
    forall i, j :: 0 <= i < j < |xs| ==> xs[i] < xs[j]
  }

  ghost predicate NonDecreasingReal(xs: seq<real>)
  {
    forall i, j :: 0 <= i < j < |xs| ==> xs[i] <= xs[j]
  }

  // ---------------------------------------------------------------------------
  // Raw reading to voltage

  /** The first index i >= from with readings[i] >= reading, or |readings|. */
  function FirstReadingAtLeast(readings: seq<int>, reading: real, from: nat): (k: nat)
    requires from <= |readings|
    ensures from <= k <= |readings|
    ensures forall j :: from <= j < k ==> readings[j] as real < reading
    ensures k < |readings| ==> readings[k] as real >= reading
    decreases |readings| - from
  {
    if from == |readings| || readings[from] as real >= reading then from
    else FirstReadingAtLeast(readings, reading, from + 1)
  }

  /** The segment `reading_to_voltage` interpolates on: one before the first
      reading at or above `reading`, or the last entry when there is none; -1
      when the reading is at or below the first one. */
  function ReadingSegment(readings: seq<int>, reading: real): (k: int)
    ensures -1 <= k < |readings|
    ensures forall j :: 0 <= j <= k ==> readings[j] as real < reading
    ensures k + 1 < |readings| ==> readings[k + 1] as real >= reading
  {
    FirstReadingAtLeast(readings, reading, 0) - 1
  }

  /** `max(min(cv, 12), 0)`. */
  function ClampVoltage(cv: real): (v: real)
    ensures 0.0 <= v <= MaxVoltage
    ensures 0.0 <= cv <= MaxVoltage ==> v == cv
    ensures cv < 0.0 ==> v == 0.0
    ensures MaxVoltage < cv ==> v == MaxVoltage
  {
    var m := if cv < MaxVoltage then cv else MaxVoltage;
    if m < 0.0 then 0.0 else m
  }

  /** The voltage on the segment's line, before clamping. */
  function SegmentVoltage(c: Curve, reading: real): (cv: real)
    requires |c.readings| <= |c.points| && |c.readings| <= |c.gradients|
  {
    var index := ReadingSegment(c.readings, reading);
    if index < 0 then 0.0
    else OnLine(c.points[index], c.gradients[index], c.readings[index], reading)
  }

  /** The voltage at `reading` on the line through (`r0`, `p`) with gradient `g`. */
  function OnLine(p: real, g: real, r0: int, reading: real): real
  {
    p + g * (reading - r0 as real)
  }

  /** `reading_to_voltage`: interpolate on the segment below the reading,
      extrapolate above the last one, report 0 at or below the first one, and
      keep the result within 0..12 V. The raw reading is taken as a real so
      that the inverse of `cv_to_reading` can be stated before truncation. */
  function ReadingToVoltage(c: Curve, reading: real): (v: real)
    requires |c.readings| <= |c.points| && |c.readings| <= |c.gradients|
    ensures 0.0 <= v <= MaxVoltage
    ensures (|c.readings| == 0 || reading <= c.readings[0] as real) ==> v == 0.0
  {
    ClampVoltage(SegmentVoltage(c, reading))
  }

  lemma SegmentOfSorted(readings: seq<int>, reading: real, k: nat)
    requires StrictlyIncreasing(readings) && k < |readings|
    requires readings[k] as real < reading
    requires k + 1 < |readings| ==> reading <= readings[k + 1] as real
    ensures ReadingSegment(readings, reading) == k
  {
  }

  /** g * (b - a) = (q - p) when g is the slope through (a, p) and (b, q). */
  lemma SlopeSpansSegment(p: real, q: real, a: int, b: int)
    requires a != b
    ensures (q - p) / (b - a) as real * (b - a) as real == q - p
  {
  }

  /** The gradient stored for segment j of a slope table. */
  lemma GradientOfSegment(c: Curve, j: nat)
    requires SlopeTable(c) && j + 1 < |c.readings|
    ensures SlopeDefined(c.points, c.readings, j)
    ensures c.gradients[j] ==
              (c.points[j + 1] - c.points[j]) / (c.readings[j + 1] - c.readings[j]) as real
  {
  }

  /** On a built curve with increasing readings, the reading sampled at a
      calibration point above the first one converts to that point's voltage. */
  lemma ReadingToVoltageAtCalibrationPoint(c: Curve, k: nat)
    requires SlopeTable(c) && StrictlyIncreasing(c.readings)
    requires 1 <= k < |c.readings|
    ensures ReadingToVoltage(c, c.readings[k] as real) == ClampVoltage(c.points[k])
  {
    var r := c.readings[k] as real;
    assert c.readings[k - 1] < c.readings[k];
    SegmentOfSorted(c.readings, r, k - 1);
    GradientOfSegment(c, k - 1);
    OnLineAtEnd(c.points[k - 1], c.points[k], c.gradients[k - 1], c.readings[k - 1], c.readings[k]);
    assert SegmentVoltage(c, r) == OnLine(c.points[k - 1], c.gradients[k - 1], c.readings[k - 1], r);
  }

  /** The line through (a, p) with the slope towards (b, q) reaches q at b. */
  lemma OnLineAtEnd(p: real, q: real, g: real, a: int, b: int)
    requires a != b && g == (q - p) / (b - a) as real
    ensures OnLine(p, g, a, b as real) == q
  {
    SlopeSpansSegment(p, q, a, b);
    assert (b - a) as real == b as real - a as real;
  }

  /** Above the last reading the curve extrapolates along the last gradient. */
  lemma ReadingToVoltageExtrapolates(c: Curve, reading: real)
    requires 1 <= |c.readings| <= |c.points| && |c.readings| <= |c.gradients|
    requires StrictlyIncreasing(c.readings)
    requires reading > c.readings[|c.readings| - 1] as real
    ensures ReadingToVoltage(c, reading) ==
              ClampVoltage(OnLine(c.points[|c.readings| - 1], c.gradients[|c.readings| - 1],
                                  c.readings[|c.readings| - 1], reading))
  {
    SegmentOfSorted(c.readings, reading, |c.readings| - 1);
  }

  /** The last gradient, used above the last reading, duplicates the slope of
      the last segment. */
  lemma LastGradientDuplicatesLastSlope(c: Curve)
    requires SlopeTable(c)
    ensures c.gradients[|c.readings| - 1] == Slope(c.points, c.readings, |c.readings| - 2)
  {
    assert c.gradients[|c.readings| - 2] == Slope(c.points, c.readings, |c.readings| - 2);
  }

  /** The unclamped voltage of a reading on segment k. */
  lemma SegmentVoltageOn(c: Curve, r: real, k: nat)
    requires |c.readings| <= |c.points| && |c.readings| <= |c.gradients|
    requires ReadingSegment(c.readings, r) == k
    ensures SegmentVoltage(c, r) == c.points[k] + c.gradients[k] * (r - c.readings[k] as real)
  {
  }

  lemma ClampVoltageMonotonic(x: real, y: real)
    requires x <= y
    ensures ClampVoltage(x) <= ClampVoltage(y)
  {
  }

  lemma ScaleMonotonic(g: real, x: real, y: real)
    requires 0.0 <= g && x <= y
    ensures g * x <= g * y
  {
    assert g * y - g * x == g * (y - x);
  }

  /** Each stored gradient is non-negative when the readings increase and the
      points do not decrease. */
  lemma GradientsNonNegative(c: Curve, j: nat)
    requires SlopeTable(c) && StrictlyIncreasing(c.readings) && NonDecreasingReal(c.points)
    requires j < |c.readings|
    ensures c.gradients[j] >= 0.0
  {
    var i := if j == |c.readings| - 1 then |c.readings| - 2 else j;
    GradientOfSegment(c, i);
    assert c.gradients[j] == c.gradients[i];
    assert c.readings[i] < c.readings[i + 1] && c.points[i] <= c.points[i + 1];
  }

  /** With strictly increasing points no gradient is zero. */
  lemma GradientNonzero(c: Curve, j: nat)
    requires SlopeTable(c) && StrictlyIncreasingReal(c.points)
    requires j < |c.readings|
    ensures c.gradients[j] != 0.0
  {
    var i := if j == |c.readings| - 1 then |c.readings| - 2 else j;
    GradientOfSegment(c, i);
    assert c.gradients[j] == c.gradients[i];
    assert c.points[i] < c.points[i + 1];
    NonzeroQuotient(c.points[i + 1] - c.points[i], (c.readings[i + 1] - c.readings[i]) as real);
  }

  lemma NonzeroQuotient(p: real, q: real)
    requires p != 0.0 && q != 0.0
    ensures p / q != 0.0
  {
    assert p / q * q == p;
  }

  lemma LineAboveBase(p: real, g: real, d: real)
    requires 0.0 <= g && 0.0 <= d
    ensures p <= p + g * d
  {
    ScaleMonotonic(g, 0.0, d);
  }

  /** On segment k the unclamped voltage stays at or above the segment's
      lower point when the segment's gradient is non-negative... */
  lemma SegmentVoltageAboveBase(c: Curve, r: real, k: nat)
    requires |c.readings| <= |c.points| && |c.readings| <= |c.gradients|
    requires ReadingSegment(c.readings, r) == k && c.gradients[k] >= 0.0
    ensures SegmentVoltage(c, r) >= c.points[k]
  {
    SegmentVoltageOn(c, r, k);
    LineAboveBase(c.points[k], c.gradients[k], r - c.readings[k] as real);
  }

  /** The line through (a, p) and (b, q) with a non-negative slope stays at or
      below q up to b. */
  lemma LineBelowEnd(p: real, q: real, a: int, b: int, r: real)
    requires a < b && p <= q && r <= b as real
    ensures p + (q - p) / (b - a) as real * (r - a as real) <= q
  {
    var g := (q - p) / (b - a) as real;
    OnLineAtEnd(p, q, g, a, b);
    ScaleMonotonic(g, r - a as real, b as real - a as real);
  }

  /** ... and at or below its upper point, when the gradient is the slope of
      the segment. */
  lemma SegmentVoltageBelowTop(c: Curve, r: real, k: nat)
    requires |c.readings| <= |c.points| && |c.readings| <= |c.gradients|
    requires ReadingSegment(c.readings, r) == k && k + 1 < |c.readings|
    requires c.readings[k] < c.readings[k + 1] && c.points[k] <= c.points[k + 1]
    requires c.gradients[k] == (c.points[k + 1] - c.points[k]) / (c.readings[k + 1] - c.readings[k]) as real
    ensures SegmentVoltage(c, r) <= c.points[k + 1]
  {
    SegmentVoltageOn(c, r, k);
    LineBelowEnd(c.points[k], c.points[k + 1], c.readings[k], c.readings[k + 1], r);
  }

  /** Two readings on the same segment keep their order when its gradient is
      non-negative. */
  lemma SameSegmentMonotonic(c: Curve, r1: real, r2: real, k: nat)
    requires |c.readings| <= |c.points| && |c.readings| <= |c.gradients|
    requires r1 <= r2 && ReadingSegment(c.readings, r1) == k && ReadingSegment(c.readings, r2) == k
    requires c.gradients[k] >= 0.0
    ensures SegmentVoltage(c, r1) <= SegmentVoltage(c, r2)
  {
    SegmentVoltageOn(c, r1, k);
    SegmentVoltageOn(c, r2, k);
    ScaleMonotonic(c.gradients[k], r1 - c.readings[k] as real, r2 - c.readings[k] as real);
  }

  /** A reading on a later segment is at or above the readings of earlier ones. */
  lemma LaterSegmentMonotonic(c: Curve, r1: real, r2: real)
    requires SlopeTable(c) && StrictlyIncreasing(c.readings) && NonDecreasingReal(c.points)
    requires 0 <= ReadingSegment(c.readings, r1) < ReadingSegment(c.readings, r2)
    ensures SegmentVoltage(c, r1) <= SegmentVoltage(c, r2)
  {
    var k1: nat := ReadingSegment(c.readings, r1);
    var k2: nat := ReadingSegment(c.readings, r2);
    GradientOfSegment(c, k1);
    assert c.readings[k1] < c.readings[k1 + 1] && c.points[k1] <= c.points[k1 + 1];
    SegmentVoltageBelowTop(c, r1, k1);
    GradientsNonNegative(c, k2);
    SegmentVoltageAboveBase(c, r2, k2);
    assert c.points[k1 + 1] <= c.points[k2];
  }

  /** A larger reading never gives a lower voltage, when the readings increase
      and the points do not decrease. */
  lemma ReadingToVoltageMonotonic(c: Curve, r1: real, r2: real)
    requires SlopeTable(c) && StrictlyIncreasing(c.readings) && NonDecreasingReal(c.points)
    requires r1 <= r2
    ensures ReadingToVoltage(c, r1) <= ReadingToVoltage(c, r2)
  {
    var k1 := ReadingSegment(c.readings, r1);
    var k2 := ReadingSegment(c.readings, r2);
    assert k1 <= k2;
    if k1 >= 0 {
      if k1 == k2 {
        GradientsNonNegative(c, k1);
        SameSegmentMonotonic(c, r1, r2, k1);
      } else {
        LaterSegmentMonotonic(c, r1, r2);
      }
      ClampVoltageMonotonic(SegmentVoltage(c, r1), SegmentVoltage(c, r2));
    }
  }

  // ---------------------------------------------------------------------------
  // Voltage to raw reading

  /** The first index i >= from with points[i] >= cv, or |points|. */
  function FirstPointAtLeast(points: seq<real>, cv: real, from: nat): (k: nat)
    requires from <= |points|
    ensures from <= k <= |points|
    ensures forall j :: from <= j < k ==> points[j] < cv
    ensures k < |points| ==> points[k] >= cv
    decreases |points| - from
  {
    if from == |points| || points[from] >= cv then from
    else FirstPointAtLeast(points, cv, from + 1)
  }

  /** The segment `cv_to_reading` interpolates on, found by the same scan over the points. */
  function PointSegment(points: seq<real>, cv: real): (k: int)
    ensures -1 <= k < |points|
    ensures forall j :: 0 <= j <= k ==> points[j] < cv
    ensures k + 1 < |points| ==> points[k + 1] >= cv
  {
    FirstPointAtLeast(points, cv, 0) - 1
  }

  /** The reading on the segment's line for `cv`, before `int()` truncates it. */
  function ExactReading(c: Curve, cv: real): real
    requires 1 <= |c.readings|
    requires |c.points| <= |c.readings| && |c.points| <= |c.gradients|
    requires PointSegment(c.points, cv) >= 0 ==> c.gradients[PointSegment(c.points, cv)] != 0.0
  {
    var index := PointSegment(c.points, cv);
    if index < 0 then c.readings[0] as real
    else c.readings[index] as real + (cv - c.points[index]) / c.gradients[index]
  }

  /** `cv_to_reading`: the first reading for voltages at or below the first
      point, otherwise the segment's line solved for the reading and
      truncated toward zero. The caller must not ask for a segment of slope 0,
      which the source would divide by. */
  function CvToReading(c: Curve, cv: real): (r: int)
    requires 1 <= |c.readings|
    requires |c.points| <= |c.readings| && |c.points| <= |c.gradients|
    requires PointSegment(c.points, cv) >= 0 ==> c.gradients[PointSegment(c.points, cv)] != 0.0
    ensures (|c.points| == 0 || cv <= c.points[0]) ==> r == c.readings[0]
    ensures PointSegment(c.points, cv) >= 0 ==>
              AbsReal(r as real - ExactReading(c, cv)) < 1.0 &&
              AbsReal(r as real) <= AbsReal(ExactReading(c, cv))
  {
    var index := PointSegment(c.points, cv);
    if index < 0 then c.readings[0]
    else TruncateTowardZero(ExactReading(c, cv))
  }

  /** A curve usable by both conversions: built, one reading per point, and
      both sequences increasing. */
  ghost predicate Monotone(c: Curve)
  {
    && SlopeTable(c)
    && |c.points| == |c.readings|
    && StrictlyIncreasing(c.readings)
    && StrictlyIncreasingReal(c.points)
  }

  /** Every slope of a monotone curve is positive. */
  lemma MonotoneSlopesPositive(c: Curve)
    requires Monotone(c)
    ensures forall j :: 0 <= j < |c.gradients| ==> c.gradients[j] > 0.0
  {
    var n := |c.readings|;
    forall j | 0 <= j < n
      ensures c.gradients[j] > 0.0
    {
      var i := if j == n - 1 then n - 2 else j;
      assert c.gradients[j] == Slope(c.points, c.readings, i);
      assert c.readings[i] < c.readings[i + 1] && c.points[i] < c.points[i + 1];
    }
  }

  /** For a voltage inside the calibrated range, the segment `cv_to_reading`
      picks and the exact reading it solves for: strictly above the segment's
      lower reading and at most its upper one. */
  lemma ExactReadingInSegment(c: Curve, cv: real) returns (j: nat)
    requires Monotone(c)
    requires c.points[0] < cv <= c.points[|c.points| - 1]
    ensures j + 1 < |c.points| && PointSegment(c.points, cv) == j
    ensures c.points[j] < cv <= c.points[j + 1]
    ensures c.gradients[j] == Slope(c.points, c.readings, j) > 0.0
    ensures c.readings[j] as real < ExactReading(c, cv) <= c.readings[j + 1] as real
  {
    var k := PointSegment(c.points, cv);
    assert k >= 0;
    assert k + 1 < |c.points|;
    j := k;
    GradientOfSegment(c, j);
    assert c.readings[j] < c.readings[j + 1];
    SolveOnSegment(c.points[j], c.points[j + 1], c.readings[j], c.readings[j + 1], cv);
    assert ExactReading(c, cv) == c.readings[j] as real + (cv - c.points[j]) / c.gradients[j];
  }

  /** Solving the line through (a, p) and (b, q) for a level strictly above p
      and at most q lands strictly after a and at most at b. */
  lemma SolveOnSegment(p: real, q: real, a: int, b: int, cv: real)
    requires a < b && p < cv <= q
    ensures (q - p) / (b - a) as real > 0.0
    ensures var x := (cv - p) / ((q - p) / (b - a) as real);
            0.0 < x <= (b - a) as real
  {
    var d := (b - a) as real;
    var g := (q - p) / d;
    assert g * d == q - p;
    assert g > 0.0;
    var x := (cv - p) / g;
    assert x * g == cv - p;
    assert x > 0.0;
    if x > d {
      ScaleMonotonic(g, d, x);
      assert false;
    }
  }

  /** The core property of the curve: inside the calibrated range, converting
      a voltage to a reading and back gives the voltage again (in exact
      arithmetic, before the final truncation and clamping). */
  lemma CvToReadingInvertsReadingToVoltage(c: Curve, cv: real)
    requires Monotone(c)
    requires c.points[0] < cv <= c.points[|c.points| - 1]
    ensures SegmentVoltage(c, ExactReading(c, cv)) == cv
  {
    var j := ExactReadingInSegment(c, cv);
    var u := ExactReading(c, cv);
    SegmentOfSorted(c.readings, u, j);
    var g := c.gradients[j];
    assert u - c.readings[j] as real == (cv - c.points[j]) / g;
    assert g * ((cv - c.points[j]) / g) == cv - c.points[j];
  }

  /** Inside the calibrated range the reading `cv_to_reading` returns lies
      between the readings of the two points around the voltage. */
  lemma CvToReadingWithinSegment(c: Curve, cv: real) returns (j: nat)
    requires Monotone(c)
    requires c.points[0] < cv <= c.points[|c.points| - 1]
    ensures j + 1 < |c.points| && c.points[j] < cv <= c.points[j + 1]
    ensures c.readings[j] <= CvToReading(c, cv) <= c.readings[j + 1]
  {
    j := ExactReadingInSegment(c, cv);
    var u := ExactReading(c, cv);
    var r := CvToReading(c, cv);
    assert r == TruncateTowardZero(u);
    if u >= 0.0 {
      assert r as real <= u < r as real + 1.0;
      assert c.readings[j] as real < r as real + 1.0;
    } else {
      assert r as real - 1.0 < u <= r as real;
      assert r as real - 1.0 < c.readings[j + 1] as real;
    }
  }
}
