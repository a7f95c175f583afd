/** The calibration series and the two knob-driven fine-tune operations on a
    calibration point: `change_10th_bipolar` (knob 1, tenths) and
    `change_decimal` (knob 2, hundredths). */
module FineTune {
  import opened Numeric

  /** `CALIBRATION_SERIES`: the reference voltages of each calibration run. */
  const CalibrationSeries: seq<seq<real>> := [
    [0.0, 10.0],
    [0.0, 2.5, 5.0, 7.5, 10.0],
    [0.0, 1.0, 2.0, 3.0, 4.0, 5.0, 6.0, 7.0, 8.0, 9.0, 10.0, 11.0]
  ]

  /** How many positions knob 1 and knob 2 are read with when fine-tuning. */
  const KnobSteps: nat := 10

  // ---------------------------------------------------------------------------
  // Hundredths

  /** The voltage in hundredths of a volt, rounded down. */
  function Hundredths(p: real): int
  {
    (p * 100.0).Floor
  }

  /** The voltage is a whole number of hundredths. */
  predicate IsHundredths(p: real)
  {
    Hundredths(p) as real == p * 100.0
  }

  lemma HundredthsOf(h: int)
    ensures IsHundredths(h as real / 100.0) && Hundredths(h as real / 100.0) == h
  {
    assert h as real / 100.0 * 100.0 == h as real;
  }

  /** A reference voltage of a series: a non-negative multiple of 0.5 V. */
  predicate Nominal(v: real)
  {
    v >= 0.0 && IsHundredths(v) && Hundredths(v) % 50 == 0
  }

  /** Every series starts at 0 V, increases by at least 1 V per point, and
      consists of nominal voltages. */
  ghost predicate SeriesShape(s: seq<real>)
  {
    && |s| >= 2
    && s[0] == 0.0
    && (forall i :: 0 <= i < |s| ==> Nominal(s[i]))
    && (forall i :: 0 <= i < |s| - 1 ==> s[i] + 1.0 <= s[i + 1])
  }

  /** A series given by its voltages in hundredths has the shape of a series
      when those are multiples of 50 from 0 up, at least 100 apart. */
  lemma SeriesOfHundredths(s: seq<real>, hs: seq<int>)
    requires |s| == |hs| >= 2 && hs[0] == 0
    requires forall i :: 0 <= i < |s| ==> s[i] == hs[i] as real / 100.0
    requires forall i :: 0 <= i < |hs| ==> 0 <= hs[i] <= 1100 && hs[i] % 50 == 0
    requires forall i :: 0 <= i < |hs| - 1 ==> hs[i] + 100 <= hs[i + 1]
    ensures SeriesShape(s)
    ensures forall i :: 0 <= i < |s| ==> s[i] <= 11.0
  {
    forall i | 0 <= i < |s| ensures Nominal(s[i]) {
      HundredthsOf(hs[i]);
    }
    forall i | 0 <= i < |s| - 1 ensures s[i] + 1.0 <= s[i + 1] {
      assert s[i] == hs[i] as real / 100.0 && s[i + 1] == hs[i + 1] as real / 100.0;
    }
  }

  lemma CalibrationSeriesShape()
    ensures |CalibrationSeries| == 3
    ensures forall k :: 0 <= k < |CalibrationSeries| ==> SeriesShape(CalibrationSeries[k])
    ensures forall k, i :: 0 <= k < |CalibrationSeries| && 0 <= i < |CalibrationSeries[k]| ==>
              CalibrationSeries[k][i] <= 11.0
  {
    SeriesOfHundredths(CalibrationSeries[0], [0, 1000]);
    SeriesOfHundredths(CalibrationSeries[1], [0, 250, 500, 750, 1000]);
    SeriesOfHundredths(CalibrationSeries[2], [0, 100, 200, 300, 400, 500, 600, 700, 800, 900, 1000, 1100]);
  }

  // ---------------------------------------------------------------------------
  // Tenths: knob 1

  /** `change_10th_bipolar`: add (delta - 5) tenths of a volt. */
  function ChangeTenthBipolar(n: real, delta: int): (r: real)
    ensures (r - n) * 10.0 + 5.0 == delta as real
  {
    n + (delta - 5) as real / 10.0
  }

  /** A knob position 0..9 moves the nominal by -0.5 V .. +0.4 V. */
  lemma TenthOffsetRange(n: real, delta: int)
    requires 0 <= delta < KnobSteps
    ensures -0.5 <= ChangeTenthBipolar(n, delta) - n <= 0.4
  {
  }

  // ---------------------------------------------------------------------------
  // Hundredths: knob 2

  function Pow10(k: nat): (p: real)
    ensures p >= 1.0
  {
    if k == 0 then 1.0 else 10.0 * Pow10(k - 1)
  }

  /** `change_decimal(n, position, digit)`: format n * 10^position with four
      decimals, overwrite the digit left of the point (the string's sixth
      character from the end) with `digit`, parse, and divide by 10^position
      again. The formatting rounds the magnitude to four decimals and keeps
      the minus sign of a negative n. `str(digit)` is one character only for
      a digit 0..9, which is all the knob can give. */
  function ChangeDecimal(n: real, position: nat, digit: nat): real
    requires digit <= 9
  {
    var scale := Pow10(position);
    var shown := RoundHalfEven(AbsReal(n * scale) * 10000.0);
    var units := (shown / 10000) % 10;
    var replaced := shown - units * 10000 + digit * 10000;
    var magnitude := replaced as real / 10000.0 / scale;
    if n < 0.0 then -magnitude else magnitude
  }

  lemma RoundOfInteger(k: int)
    ensures RoundHalfEven(k as real) == k
  {
  }

  /** The sign and the magnitude of a whole number of hundredths. */
  function Sign(h: int): int
  {
    if h < 0 then -1 else 1
  }

  /** On a whole number of hundredths, `change_decimal(p, 2, d)` replaces the
      last digit of the magnitude in hundredths by d and keeps the sign. */
  lemma ChangeDecimalOnHundredths(h: int, d: nat)
    requires d <= 9
    ensures ChangeDecimal(h as real / 100.0, 2, d) ==
              (Sign(h) * (Abs(h) - Abs(h) % 10 + d)) as real / 100.0
  {
    var n := h as real / 100.0;
    assert Pow10(2) == 100.0;
    assert n * 100.0 == h as real;
    assert AbsReal(n * 100.0) * 10000.0 == (Abs(h) * 10000) as real;
    RoundOfInteger(Abs(h) * 10000);
    var shown := Abs(h) * 10000;
    assert shown / 10000 == Abs(h);
    var units := Abs(h) % 10;
    var replaced := shown - units * 10000 + d * 10000;
    assert replaced == (Abs(h) - units + d) * 10000;
    assert replaced as real / 10000.0 / 100.0 == (Abs(h) - units + d) as real / 100.0;
  }

  /** The same, on hundredths: the new value in hundredths. */
  function AdjustedHundredths(h: int, d: nat): int
  {
    Sign(h) * (Abs(h) - Abs(h) % 10 + d)
  }

  /** After the change the hundredths digit of the magnitude is d, the rest of
      the magnitude is as before, and the sign is kept (or the value is 0). */
  lemma AdjustedHundredthsDigits(h: int, d: nat)
    requires d <= 9
    ensures Abs(AdjustedHundredths(h, d)) % 10 == d
    ensures Abs(AdjustedHundredths(h, d)) / 10 == Abs(h) / 10
    ensures h >= 0 ==> AdjustedHundredths(h, d) >= 0
    ensures h < 0 ==> AdjustedHundredths(h, d) <= 0
  {
    var m := Abs(h) - Abs(h) % 10 + d;
    assert Abs(h) - Abs(h) % 10 == 10 * (Abs(h) / 10);
    assert m == 10 * (Abs(h) / 10) + d;
  }

  /** Turning knob 2 to the same position twice changes nothing more. */
  lemma ChangeDecimalIdempotent(h: int, d: nat)
    requires d <= 9
    ensures var p := ChangeDecimal(h as real / 100.0, 2, d);
            ChangeDecimal(p, 2, d) == p
  {
    var h1 := AdjustedHundredths(h, d);
    ChangeDecimalOnHundredths(h, d);
    AdjustedHundredthsDigits(h, d);
    ChangeDecimalOnHundredths(h1, d);
    if h1 != 0 {
      assert Sign(h1) == Sign(h);
    }
    assert AdjustedHundredths(h1, d) == h1;
  }

  /** On a negative value the digit is written into the magnitude, so a larger
      knob position moves the point further down: -0.10 V becomes -0.19 V. */
  lemma ChangeDecimalOnNegative()
    ensures ChangeDecimal(-0.1, 2, 9) == -0.19
  {
    ChangeDecimalOnHundredths(-10, 9);
    assert -0.1 == (-10) as real / 100.0;
  }

  // ---------------------------------------------------------------------------
  // The fine-tune window

  /** Where the fine-tune knobs can put a point whose nominal voltage is
      `nominal`: hundredths from nominal - 0.50 V to nominal + 0.49 V, but
      from -0.59 V to +0.49 V for the 0 V point, whose negative settings take
      the hundredths digit in their magnitude. */
  predicate InWindow(nominal: real, p: real)
  {
    IsHundredths(p) && HundredthsWindow(nominal == 0.0, Hundredths(nominal), Hundredths(p))
  }

  /** The window in hundredths, around c hundredths. */
  predicate HundredthsWindow(atZero: bool, c: int, h: int)
  {
    if atZero then -60 < h < 50 else c - 50 <= h < c + 50
  }

  /** The knob-2 change, on hundredths, stays in the window when the window's
      ends are multiples of ten hundredths. */
  lemma AdjustedStaysInWindow(atZero: bool, c: int, h: int, d: nat)
    requires d <= 9 && HundredthsWindow(atZero, c, h)
    requires !atZero ==> c >= 50 && c % 10 == 0
    ensures HundredthsWindow(atZero, c, AdjustedHundredths(h, d))
  {
    AdjustedHundredthsDigits(h, d);
    var h1 := AdjustedHundredths(h, d);
    var a := Abs(h);
    var a1 := Abs(h1);
    var low := 10 * (a / 10);
    assert a1 == 10 * (a1 / 10) + a1 % 10;
    assert a1 == low + d;
    if !atZero {
      assert h >= 0 && a == h && h1 >= 0;
      RoundDownToTen(a, c - 50, c + 50);
    } else if h >= 0 {
      assert h1 >= 0;
      RoundDownToTen(a, 0, 50);
    } else {
      assert h1 <= 0 && 0 <= a < 60;
      RoundDownToTen(a, 0, 60);
    }
  }

  /** Rounding down to a multiple of ten stays within a range whose ends are
      multiples of ten, with room for any last digit. */
  lemma RoundDownToTen(x: int, lo: int, hi: int)
    requires 0 <= lo <= x < hi && lo % 10 == 0 && hi % 10 == 0
    ensures lo <= 10 * (x / 10) && 10 * (x / 10) + 9 < hi
  {
    var q := x / 10;
    var a := lo / 10;
    var b := hi / 10;
    assert lo == 10 * a && hi == 10 * b;
    assert 10 * q <= x < 10 * q + 10;
    assert a <= q;
    assert q + 1 <= b;
    assert 10 * (q + 1) <= 10 * b;
  }

  lemma NominalInWindow(nominal: real)
    requires Nominal(nominal)
    ensures InWindow(nominal, nominal)
  {
  }

  /** `do_adjust10th` keeps the point in its window. */
  lemma TenthsStayInWindow(nominal: real, delta: int)
    requires Nominal(nominal) && 0 <= delta < KnobSteps
    ensures InWindow(nominal, ChangeTenthBipolar(nominal, delta))
  {
    var c := Hundredths(nominal);
    var h := c + 10 * (delta - 5);
    assert nominal == c as real / 100.0;
    assert ChangeTenthBipolar(nominal, delta) == h as real / 100.0;
    HundredthsOf(h);
  }

  /** A nominal voltage in hundredths: a non-negative multiple of ten, zero
      exactly for 0 V, and at least 50 otherwise. */
  lemma NominalHundredths(nominal: real)
    requires Nominal(nominal)
    ensures var c := Hundredths(nominal);
            c >= 0 && c % 10 == 0 && (nominal == 0.0 <==> c == 0) && (c != 0 ==> c >= 50)
  {
    var c := Hundredths(nominal);
    assert c as real == nominal * 100.0;
    MultipleOfFifty(c);
  }

  lemma MultipleOfFifty(c: int)
    requires c >= 0 && c % 50 == 0
    ensures c % 10 == 0 && (c != 0 ==> c >= 50)
  {
    var q := c / 50;
    assert c == 50 * q;
    assert c == 10 * (5 * q);
  }

  lemma HundredthsValue(p: real)
    requires IsHundredths(p)
    ensures p == Hundredths(p) as real / 100.0
  {
  }

  /** `do_adjust100th` keeps the point in its window. */
  lemma HundredthsStayInWindow(nominal: real, p: real, d: nat)
    requires Nominal(nominal) && InWindow(nominal, p) && d <= 9
    ensures InWindow(nominal, ChangeDecimal(p, 2, d))
  {
    var h := Hundredths(p);
    var c := Hundredths(nominal);
    var p1 := ChangeDecimal(p, 2, d);
    HundredthsValue(p);
    ChangeDecimalOnHundredths(h, d);
    var h1 := AdjustedHundredths(h, d);
    assert p1 == h1 as real / 100.0;
    NominalHundredths(nominal);
    AdjustedStaysInWindow(nominal == 0.0, c, h, d);
    WindowOfHundredths(nominal, p1, h1);
  }

  lemma WindowOfHundredths(nominal: real, p: real, h: int)
    requires p == h as real / 100.0
    requires HundredthsWindow(nominal == 0.0, Hundredths(nominal), h)
    ensures InWindow(nominal, p)
  {
    HundredthsOf(h);
  }

  /** The windows of a series are disjoint and in order: a fine-tuned series
      is still strictly increasing. */
  lemma WindowsOrdered(s: seq<real>, i: nat, j: nat, p: real, q: real)
    requires SeriesShape(s) && i < j < |s|
    requires InWindow(s[i], p) && InWindow(s[j], q)
    ensures p < q
  {
    var k := i;
    while k < j - 1
      invariant i <= k < j
      invariant s[i] + (k - i) as real <= s[k]
    {
      k := k + 1;
    }
    assert s[i] + 1.0 <= s[j] by {
      assert s[k] + 1.0 <= s[k + 1];
    }
    var ci := Hundredths(s[i]);
    var cj := Hundredths(s[j]);
    assert ci + 100 <= cj;
    assert p == Hundredths(p) as real / 100.0;
    assert q == Hundredths(q) as real / 100.0;
    assert Hundredths(p) < Hundredths(q);
  }
}
