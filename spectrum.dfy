/**
 * The spectrum band aggregator of the visualizer: it turns the byte spectrum
 * delivered by the audio analyser into the mean energy, in [0, 1], of a
 * frequency band.
 */
module Spectrum {
  import opened Wrappers
  import opened Bytes

  /** Sample rate assumed for the audio input, in Hz. */
  const SampleRate: int := 48000
  /** Half the sample rate: the frequency of the last spectrum bin. */
  const Nyquist: int := SampleRate / 2
  /** Transform size handed to the analyser. */
  const FftSize: int := 2048
  /** Number of bins the analyser returns: half of the transform size. */
  const SpectrumLength: int := FftSize / 2

  /** A frequency range in Hz, both ends used as given. */
  datatype Band = Band(lowHz: int, highHz: int)

  const Bass := Band(20, 140)
  const LowMid := Band(140, 400)
  const Mid := Band(400, 2600)
  const HighMid := Band(2600, 5200)
  const Treble := Band(5200, 14000)

  /** The five predefined bands. */
  const FixedBands: seq<Band> := [Bass, LowMid, Mid, HighMid, Treble]

  /** Why the aggregator cannot produce a number (JavaScript yields NaN in both cases). */
  datatype EnergyError =
    | EmptyRange        // highIndex < lowIndex: no sample is read and 0 / 0 is taken
    | IndexOutOfBounds  // some index in the range lies outside the spectrum: the read is `undefined`

  /** `Math.round`: the nearest integer, halves rounded up. */
  function Round(x: real): (r: int)
    ensures x - 0.5 < r as real <= x + 0.5
  {
    (x + 0.5).Floor
  }

  /** The spectrum index of a frequency: `round(hz / nyquist * len)`. */
  function FrequencyIndex(hz: int, len: nat): (k: int)
    ensures var x := hz as real / Nyquist as real * len as real; x - 0.5 < k as real <= x + 0.5
    ensures hz >= 0 ==> k >= 0
  {
    var scaled := hz as real / Nyquist as real;
    assert hz >= 0 ==> scaled * len as real >= 0.0 by {
      if hz >= 0 { NonNegativeProduct(scaled, len as real); }
    }
    Round(scaled * len as real)
  }

  lemma NonNegativeProduct(a: real, b: real)
    requires 0.0 <= a && 0.0 <= b
    ensures 0.0 <= a * b
  {
  }

  function LowIndex(band: Band, len: nat): int { FrequencyIndex(band.lowHz, len) }
  function HighIndex(band: Band, len: nat): int { FrequencyIndex(band.highHz, len) }

  /** The total of a run of samples. */
  function Sum(s: seq<Byte>): (total: int)
    ensures 0 <= total <= 255 * |s|
  {
    if s == [] then 0 else Sum(s[..|s| - 1]) + s[|s| - 1]
  }

  /**
   * Mean energy of the samples from LowIndex to HighIndex inclusive, divided
   * by 255; an error where the source's arithmetic gives NaN.
   */
  function BandEnergy(spectrum: seq<Byte>, band: Band): (r: Result<real, EnergyError>)
    ensures r == Failure(EmptyRange) <==> HighIndex(band, |spectrum|) < LowIndex(band, |spectrum|)
    ensures r == Failure(IndexOutOfBounds) <==>
      LowIndex(band, |spectrum|) <= HighIndex(band, |spectrum|) &&
      (LowIndex(band, |spectrum|) < 0 || |spectrum| <= HighIndex(band, |spectrum|))
    ensures r.Success? ==> 0.0 <= r.value <= 1.0
  {
    var lo, hi := LowIndex(band, |spectrum|), HighIndex(band, |spectrum|);
    if hi < lo then Failure(EmptyRange)
    else if lo < 0 || |spectrum| <= hi then Failure(IndexOutOfBounds)
    else
      var run := spectrum[lo..hi + 1];
      MeanInUnitRange(Sum(run), |run|);
      Success(Sum(run) as real / |run| as real / 255.0)
  }

  /** A total of at most 255 per sample, averaged and scaled by 255, lies in [0, 1]. */
  lemma MeanInUnitRange(total: int, count: int)
    requires 0 < count && 0 <= total <= 255 * count
    ensures 0.0 <= total as real / count as real / 255.0 <= 1.0
  {
  }

  /**
   * `getFrequencyRangeValue`: walks the index range of the band, adding up the
   * samples and counting them, then divides the total by the count and by 255.
   */
  method FrequencyRangeValue(spectrum: array<Byte>, band: Band) returns (r: Result<real, EnergyError>)
    ensures r == BandEnergy(spectrum[..], band)
  {
    ghost var samples := spectrum[..];
    var lo := LowIndex(band, spectrum.Length);
    var hi := HighIndex(band, spectrum.Length);
    var total: int, count: int := 0, 0;
    var undefinedRead := false;  // once set, the JavaScript total is NaN
    var i := lo;
    while i <= hi
      invariant lo <= i && (i <= hi + 1 || i == lo)
      invariant count == i - lo
      invariant undefinedRead <==> lo < i && (lo < 0 || spectrum.Length < i)
      invariant i == lo ==> total == 0
      invariant !undefinedRead && lo < i ==> total == Sum(samples[lo..i])
      decreases hi - i
    {
      if 0 <= i < spectrum.Length {
        if !undefinedRead {
          assert i == lo ==> samples[lo..i] == [];
          SumSnoc(samples, lo, i);
        }
        total := total + spectrum[i];
      } else {
        undefinedRead := true;
      }
      count := count + 1;
      i := i + 1;
    }
    if count == 0 {
      r := Failure(EmptyRange);
    } else if undefinedRead {
      r := Failure(IndexOutOfBounds);
    } else {
      r := Success(total as real / count as real / 255.0);
    }
  }

  /** Extending a run by the next sample adds that sample to its total. */
  lemma SumSnoc(s: seq<Byte>, lo: int, i: int)
    requires 0 <= lo <= i < |s|
    ensures Sum(s[lo..i + 1]) == Sum(s[lo..i]) + s[i]
  {
    var run := s[lo..i + 1];
    assert run[..|run| - 1] == s[lo..i];
  }

  /** A run of equal samples adds up to that sample times the run's length. */
  lemma {:induction false} SumOfConstant(s: seq<Byte>, c: Byte)
    requires forall k :: 0 <= k < |s| ==> s[k] == c
    ensures Sum(s) == c * |s|
  {
    if s != [] {
      SumOfConstant(s[..|s| - 1], c);
    }
  }

  /** The index ranges of the five predefined bands over a 1024-sample spectrum. */
  lemma FixedBandIndices()
    ensures LowIndex(Bass, SpectrumLength) == 1 && HighIndex(Bass, SpectrumLength) == 6
    ensures LowIndex(LowMid, SpectrumLength) == 6 && HighIndex(LowMid, SpectrumLength) == 17
    ensures LowIndex(Mid, SpectrumLength) == 17 && HighIndex(Mid, SpectrumLength) == 111
    ensures LowIndex(HighMid, SpectrumLength) == 111 && HighIndex(HighMid, SpectrumLength) == 222
    ensures LowIndex(Treble, SpectrumLength) == 222 && HighIndex(Treble, SpectrumLength) == 597
  {
    IndexOf(20, 1, 0.8);
    IndexOf(140, 6, 5.9);
    IndexOf(400, 17, 17.0);
    IndexOf(2600, 111, 110.9);
    IndexOf(5200, 222, 221.8);
    IndexOf(14000, 597, 597.3);
  }

  /** A frequency whose scaled position lies within a tenth above `near` maps to index `k`. */
  lemma IndexOf(hz: int, k: int, near: real)
    requires near <= hz as real * 1024.0 / 24000.0 < near + 0.1
    requires k as real - 0.5 < near && near + 0.1 <= k as real + 0.5
    ensures FrequencyIndex(hz, SpectrumLength) == k
  {
    assert Nyquist == 24000 && SpectrumLength == 1024;
    var x := hz as real / Nyquist as real * SpectrumLength as real;
    assert x == hz as real * 1024.0 / 24000.0;
  }

  /**
   * Every predefined band reads a non-empty range of in-bounds samples of a
   * 1024-sample spectrum, so the aggregator always yields a number in [0, 1].
   */
  lemma FixedBandsAreReadable(spectrum: seq<Byte>, band: Band)
    requires |spectrum| == SpectrumLength && band in FixedBands
    ensures 0 <= LowIndex(band, |spectrum|) <= HighIndex(band, |spectrum|) < |spectrum|
    ensures BandEnergy(spectrum, band).Success?
    ensures 0.0 <= BandEnergy(spectrum, band).value <= 1.0
  {
    FixedBandIndices();
  }

  /** Silence (every sample 0) gives energy 0 for every readable band. */
  lemma SilenceHasNoEnergy(spectrum: seq<Byte>, band: Band)
    requires forall k :: 0 <= k < |spectrum| ==> spectrum[k] == 0
    requires 0 <= LowIndex(band, |spectrum|) <= HighIndex(band, |spectrum|) < |spectrum|
    ensures BandEnergy(spectrum, band) == Success(0.0)
  {
    var run := spectrum[LowIndex(band, |spectrum|)..HighIndex(band, |spectrum|) + 1];
    assert BandEnergy(spectrum, band) == Success(Sum(run) as real / |run| as real / 255.0);
    SumOfConstant(run, 0);
  }

  /** A full-scale spectrum (every sample 255) gives energy 1 for every readable band. */
  lemma FullScaleHasFullEnergy(spectrum: seq<Byte>, band: Band)
    requires forall k :: 0 <= k < |spectrum| ==> spectrum[k] == 255
    requires 0 <= LowIndex(band, |spectrum|) <= HighIndex(band, |spectrum|) < |spectrum|
    ensures BandEnergy(spectrum, band) == Success(1.0)
  {
    var run := spectrum[LowIndex(band, |spectrum|)..HighIndex(band, |spectrum|) + 1];
    assert BandEnergy(spectrum, band) == Success(Sum(run) as real / |run| as real / 255.0);
    SumOfConstant(run, 255);
    FullScaleMean(|run|);
  }

  /** A total of 255 per sample averages and scales to exactly 1. */
  lemma FullScaleMean(n: int)
    requires 0 < n
    ensures (255 * n) as real / n as real / 255.0 == 1.0
  {
    var c := n as real;
    assert (255 * n) as real == 255.0 * c;
    assert 255.0 * c / c == 255.0;
  }
}
