/**
 * The per-frame audio levels (r, g, b) taken from the bass, mid and treble
 * bands, and the particle material's colour derived from them.
 */
module Colour {
  import opened Wrappers
  import opened Bytes
  import opened Spectrum

  /** The band energies a frame uses: bass, mid and treble. */
  datatype Levels = Levels(bass: real, mid: real, treble: real)

  /** A material colour, one channel per component. */
  datatype Rgb = Rgb(r: real, g: real, b: real)

  /** The levels used when there is no audio analyser: all zero. */
  const Silent := Levels(0.0, 0.0, 0.0)

  const White := Rgb(1.0, 1.0, 1.0)

  ghost predicate InUnitRange(x: real) { 0.0 <= x <= 1.0 }

  ghost predicate LevelsInUnitRange(l: Levels)
  {
    InUnitRange(l.bass) && InUnitRange(l.mid) && InUnitRange(l.treble)
  }

  /**
   * The levels of a frame: the bass, mid and treble energies of the analyser's
   * spectrum, or all zero when there is no analyser.
   */
  function AudioLevels(spectrum: Option<seq<Byte>>): (l: Levels)
    requires spectrum.Some? ==> |spectrum.value| == SpectrumLength
    ensures LevelsInUnitRange(l)
    ensures spectrum.None? ==> l == Silent
    ensures spectrum.Some? ==>
      Success(l.bass) == BandEnergy(spectrum.value, Bass) &&
      Success(l.mid) == BandEnergy(spectrum.value, Mid) &&
      Success(l.treble) == BandEnergy(spectrum.value, Treble)
  {
    match spectrum
    case None => Silent
    case Some(s) =>
      FixedBandsAreReadable(s, Bass);
      FixedBandsAreReadable(s, Mid);
      FixedBandsAreReadable(s, Treble);
      Levels(BandEnergy(s, Bass).value, BandEnergy(s, Mid).value, BandEnergy(s, Treble).value)
  }

  /** The material colour for the given levels: each channel is one minus its level. */
  function Tint(l: Levels): (c: Rgb)
    ensures LevelsInUnitRange(l) ==> InUnitRange(c.r) && InUnitRange(c.g) && InUnitRange(c.b)
  {
    Rgb(1.0 - l.bass, 1.0 - l.mid, 1.0 - l.treble)
  }

  /** The levels can be read back from the colour, channel by channel. */
  function LevelsOfTint(c: Rgb): Levels
  {
    Levels(1.0 - c.r, 1.0 - c.g, 1.0 - c.b)
  }

  /** Colour and levels determine each other. */
  lemma TintRoundTrip(l: Levels)
    ensures LevelsOfTint(Tint(l)) == l
  {
  }

  /** Levels in [0, 1] give a colour in the unit cube. */
  lemma TintInUnitCube(l: Levels)
    requires LevelsInUnitRange(l)
    ensures InUnitRange(Tint(l).r) && InUnitRange(Tint(l).g) && InUnitRange(Tint(l).b)
  {
  }

  /** Without an analyser the particles are white. */
  lemma NoAnalyserIsWhite()
    ensures Tint(AudioLevels(None)) == White
  {
  }

  /** Louder bands darken their channel: the colour is antitone in the levels. */
  lemma TintAntitone(l: Levels, l': Levels)
    requires l.bass <= l'.bass && l.mid <= l'.mid && l.treble <= l'.treble
    ensures Tint(l').r <= Tint(l).r && Tint(l').g <= Tint(l).g && Tint(l').b <= Tint(l).b
  {
  }

  /** Silence on the analyser leaves the particles white, full scale makes them black. */
  lemma TintOfConstantSpectrum(s: seq<Byte>)
    requires |s| == SpectrumLength
    ensures (forall k :: 0 <= k < |s| ==> s[k] == 0) ==> Tint(AudioLevels(Some(s))) == White
    ensures (forall k :: 0 <= k < |s| ==> s[k] == 255) ==> Tint(AudioLevels(Some(s))) == Rgb(0.0, 0.0, 0.0)
  {
    FixedBandsAreReadable(s, Bass);
    FixedBandsAreReadable(s, Mid);
    FixedBandsAreReadable(s, Treble);
    if forall k :: 0 <= k < |s| ==> s[k] == 0 {
      SilenceHasNoEnergy(s, Bass);
      SilenceHasNoEnergy(s, Mid);
      SilenceHasNoEnergy(s, Treble);
    }
    if forall k :: 0 <= k < |s| ==> s[k] == 255 {
      FullScaleHasFullEnergy(s, Bass);
      FullScaleHasFullEnergy(s, Mid);
      FullScaleHasFullEnergy(s, Treble);
    }
  }
}
