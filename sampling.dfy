/** `sample`: the analog input read 256 times in a row, the seven low bits of
    each 16-bit reading dropped as noise, and the mean rounded the way Python's
    `round` does. The ADC is not modelled: its 256 successive raw readings are
    the input. */
module Oversampling {
  import opened Numeric

  /** How many raw readings one sample averages. */
  const SampleCount: nat := 256

  /** A raw 16-bit ADC reading. */
  type U16 = x: int | 0 <= x < 0x1_0000

  /** The weight of the lowest bit the mask 0xFF80 keeps, 2^7. */
  const NoiseStep: nat := 0x80

  /** The largest value a masked reading can take, the mask itself. */
  const MaxMasked: nat := 0xFF80

  /** `read_u16() & 0xff80`. On a 16-bit value the mask keeps bits 7..15 and
      clears bits 0..6, which is subtracting the value's remainder modulo 128. */
  function Masked(raw: U16): (m: nat)
    ensures m <= MaxMasked
    ensures m % NoiseStep == 0
    ensures m <= raw < m + NoiseStep
  {
    raw - raw % NoiseStep
  }

  /** The accumulator after adding the masked readings, first to last. */
  function MaskedSum(raws: seq<U16>): (total: nat)
  {
    if |raws| == 0 then 0 else MaskedSum(raws[..|raws| - 1]) + Masked(raws[|raws| - 1])
  }

  /** What `sample` returns for these 256 raw readings. */
  function OversampledReading(raws: seq<U16>): int
    requires |raws| == SampleCount
  {
    RoundHalfEven(MaskedSum(raws) as real / SampleCount as real)
  }

  /** `sample`, step by step: the loop over the 256 readings. */
  method Sample(raws: seq<U16>) returns (reading: int)
    requires |raws| == SampleCount
    ensures reading == OversampledReading(raws)
  {
    var value: nat := 0;
    var i := 0;
    while i < SampleCount
      invariant 0 <= i <= SampleCount
      invariant value == MaskedSum(raws[..i])
    {
      assert raws[..i + 1][..i] == raws[..i];
      value := value + Masked(raws[i]);
      i := i + 1;
    }
    assert raws[..SampleCount] == raws;
    reading := RoundHalfEven(value as real / SampleCount as real);
  }

  /** `lo` and `hi` bound every masked reading. */
  ghost predicate MaskedWithin(raws: seq<U16>, lo: int, hi: int)
  {
    forall i :: 0 <= i < |raws| ==> lo <= Masked(raws[i]) <= hi
  }

  /** The accumulator lies between |raws| times the least and |raws| times the
      greatest masked reading. */
  lemma {:induction false} MaskedSumBounds(raws: seq<U16>, lo: int, hi: int)
    requires MaskedWithin(raws, lo, hi)
    ensures |raws| * lo <= MaskedSum(raws) <= |raws| * hi
  {
    if |raws| > 0 {
      var n := |raws| - 1;
      assert MaskedWithin(raws[..n], lo, hi) by {
        forall i | 0 <= i < n ensures lo <= Masked(raws[..n][i]) <= hi {
          assert raws[..n][i] == raws[i];
        }
      }
      MaskedSumBounds(raws[..n], lo, hi);
      var m := Masked(raws[n]);
      assert lo <= m <= hi;
      assert MaskedSum(raws) == MaskedSum(raws[..n]) + m;
      MulStep(n, lo);
      MulStep(n, hi);
    }
  }

  lemma MulStep(n: int, x: int)
    ensures (n + 1) * x == n * x + x
  {
  }

  /** When every masked reading is v, the accumulator is |raws| times v. */
  lemma {:induction false} MaskedSumConstant(raws: seq<U16>, v: int)
    requires MaskedWithin(raws, v, v)
    ensures MaskedSum(raws) == |raws| * v
  {
    MaskedSumBounds(raws, v, v);
  }

  /** The rounded mean of integers lying between lo and hi lies between them too. */
  lemma RoundedMeanWithin(total: int, lo: int, hi: int)
    requires SampleCount * lo <= total <= SampleCount * hi
    ensures lo <= RoundHalfEven(total as real / SampleCount as real) <= hi
  {
    var x := total as real / SampleCount as real;
    assert lo as real <= x <= hi as real;
  }

  /** The sample never leaves the range of the masked readings it averages
      (and so never leaves 0 .. 65408). */
  lemma SampleWithinMaskedRange(raws: seq<U16>, lo: int, hi: int)
    requires |raws| == SampleCount
    requires MaskedWithin(raws, lo, hi)
    ensures lo <= OversampledReading(raws) <= hi
  {
    MaskedSumBounds(raws, lo, hi);
    RoundedMeanWithin(MaskedSum(raws), lo, hi);
  }

  /** Every sample is between 0 and 65408. */
  lemma SampleInRange(raws: seq<U16>)
    requires |raws| == SampleCount
    ensures 0 <= OversampledReading(raws) <= MaxMasked
  {
    assert MaskedWithin(raws, 0, MaxMasked);
    SampleWithinMaskedRange(raws, 0, MaxMasked);
  }

  /** When the input is steady, the sample is its masked value. */
  lemma SampleOfSteadyInput(raws: seq<U16>, raw: U16)
    requires |raws| == SampleCount
    requires forall i :: 0 <= i < |raws| ==> raws[i] == raw
    ensures OversampledReading(raws) == Masked(raw)
  {
    var v := Masked(raw);
    assert MaskedWithin(raws, v, v);
    MaskedSumConstant(raws, v);
    assert MaskedSum(raws) as real / SampleCount as real == v as real;
  }
}
