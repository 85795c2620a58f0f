/**
 * The particle depth mapper: the z coordinate of each particle, from the grey
 * level of its pixel in the current video frame and the frame's audio levels,
 * written in place into the flat (x, y, z) position buffer.
 */
module Depth {
  import opened Wrappers
  import opened Bytes
  import opened Colour

  /** Far plane of the camera, used as the "hidden" depth. */
  const CameraFar: real := 10000.0
  /** Only every `Density`-th particle follows the video; the others are sent far away. */
  const Density: int := 2
  /** Grey levels at or above this send a particle far away (no grey level reaches it). */
  const BouncingThreshold: real := 300.0
  /** Scale from grey level times audio level to depth. */
  const BounceScale: real := 5.0

  /**
   * Grey level of pixel `i` of an RGBA buffer: the mean of its red, green and
   * blue bytes. `None` stands for JavaScript's NaN, the result of reading past
   * the end of the buffer.
   */
  function Gray(pixels: seq<Byte>, i: nat): (g: Option<real>)
    ensures g.Some? <==> 4 * i + 2 < |pixels|
    ensures g.Some? ==> 0.0 <= g.value <= 255.0
  {
    var idx := 4 * i;
    if idx + 2 < |pixels| then
      Some((pixels[idx] as int + pixels[idx + 1] + pixels[idx + 2]) as real / 3.0)
    else
      None
  }

  /**
   * The depth for a grey level: the bass, mid or treble level, chosen by
   * comparing the grey level with a third and a half of the threshold, times
   * the grey level times 5; the far plane when the grey level is not below the
   * threshold, which a NaN grey level never is.
   */
  function Bounce(gray: Option<real>, l: Levels): (z: real)
    ensures gray.None? ==> z == CameraFar
    ensures gray.Some? && 0.0 <= gray.value <= 255.0 && LevelsInUnitRange(l) ==> 0.0 <= z <= 1275.0
  {
    match gray
    case None => CameraFar
    case Some(g) =>
      if g < BouncingThreshold then
        var level :=
          if g < BouncingThreshold / 3.0 then l.bass
          else if g < BouncingThreshold / 2.0 then l.mid
          else l.treble;
        ScaledGrayBounded(g, level);
        g * level * BounceScale
      else CameraFar
  }

  /** A grey level in [0, 255] times a level in [0, 1] times 5 lies in [0, 1275]. */
  lemma ScaledGrayBounded(g: real, level: real)
    ensures 0.0 <= g <= 255.0 && InUnitRange(level) ==> 0.0 <= g * level * BounceScale <= 1275.0
  {
    if 0.0 <= g <= 255.0 && InUnitRange(level) {
      assert 0.0 <= g * level <= g * 1.0;
    }
  }

  /**
   * The depth of particle `i` in a frame: the far plane when the density skips
   * it or its pixel lies past the end of the frame, otherwise in [0, 1275]
   * for levels in [0, 1].
   */
  function ParticleDepth(i: nat, pixels: seq<Byte>, l: Levels): (z: real)
    ensures i % Density != 0 || |pixels| <= 4 * i + 2 ==> z == CameraFar
    ensures i % Density == 0 && 4 * i + 2 < |pixels| && LevelsInUnitRange(l) ==> 0.0 <= z <= 1275.0
  {
    if i % Density != 0 then CameraFar else Bounce(Gray(pixels, i), l)
  }

  /** The position buffer after a frame: every third entry (z) replaced by its particle's depth. */
  function ApplyDepths(positions: seq<real>, pixels: seq<Byte>, l: Levels): (r: seq<real>)
    ensures |r| == |positions|
    ensures forall k :: 0 <= k < |r| && k % 3 != 2 ==> r[k] == positions[k]
    ensures forall k :: 0 <= k < |r| && k % 3 == 2 ==> r[k] == ParticleDepth(k / 3, pixels, l)
  {
    seq(|positions|, k requires 0 <= k < |positions| =>
      if k % 3 == 2 then ParticleDepth(k / 3, pixels, l) else positions[k])
  }

  /**
   * The loop of `draw`: for each of the `count` particles, in order, sets its z
   * coordinate, skipping to the far plane for the particles the density leaves out.
   */
  method MapDepths(positions: array<real>, count: nat, pixels: seq<Byte>, l: Levels)
    requires positions.Length == 3 * count
    modifies positions
    ensures positions[..] == ApplyDepths(old(positions[..]), pixels, l)
  {
    var i := 0;
    while i < count
      invariant 0 <= i <= count
      invariant forall k :: 0 <= k < positions.Length ==>
        positions[k] == if k % 3 == 2 && k / 3 < i then ParticleDepth(k / 3, pixels, l) else old(positions[k])
    {
      if i % Density != 0 {
        positions[3 * i + 2] := CameraFar;
        i := i + 1;
        continue;
      }
      var gray := Gray(pixels, i);
      positions[3 * i + 2] := Bounce(gray, l);
      i := i + 1;
    }
  }

  /** Particles the density leaves out are at the far plane, whatever the frame. */
  lemma SkippedParticlesAreFar(i: nat, pixels: seq<Byte>, l: Levels)
    requires i % Density != 0
    ensures ParticleDepth(i, pixels, l) == CameraFar
  {
  }

  /** A grey level never reaches the threshold: the far branch of `Bounce` needs a NaN. */
  lemma GrayBelowThreshold(pixels: seq<Byte>, i: nat)
    requires 4 * i + 2 < |pixels|
    ensures Gray(pixels, i).value < BouncingThreshold
  {
  }

  /** Which level scales the depth of a followed particle, by grey level. */
  lemma DepthByGrayLevel(i: nat, pixels: seq<Byte>, l: Levels)
    requires i % Density == 0 && 4 * i + 2 < |pixels|
    ensures var g := Gray(pixels, i).value;
      && (g < 100.0 ==> ParticleDepth(i, pixels, l) == g * l.bass * 5.0)
      && (100.0 <= g < 150.0 ==> ParticleDepth(i, pixels, l) == g * l.mid * 5.0)
      && (150.0 <= g ==> ParticleDepth(i, pixels, l) == g * l.treble * 5.0)
  {
  }

  /** With levels in [0, 1], a followed particle with a readable pixel lies in [0, 1275]. */
  lemma FollowedDepthBounded(i: nat, pixels: seq<Byte>, l: Levels)
    requires LevelsInUnitRange(l)
    requires i % Density == 0 && 4 * i + 2 < |pixels|
    ensures 0.0 <= ParticleDepth(i, pixels, l) <= 1275.0
  {
    var g := Gray(pixels, i).value;
    var level := if g < 100.0 then l.bass else if g < 150.0 then l.mid else l.treble;
    assert ParticleDepth(i, pixels, l) == g * level * 5.0;
    assert 0.0 <= g * level <= g * 1.0;
  }

  /**
   * With levels in [0, 1], a particle is at the far plane exactly when the
   * density leaves it out or its pixel lies past the end of the frame.
   */
  lemma FarExactlyWhenSkippedOrUnread(i: nat, pixels: seq<Byte>, l: Levels)
    requires LevelsInUnitRange(l)
    ensures ParticleDepth(i, pixels, l) == CameraFar <==> i % Density != 0 || |pixels| <= 4 * i + 2
  {
    if i % Density == 0 && 4 * i + 2 < |pixels| {
      FollowedDepthBounded(i, pixels, l);
    }
  }

  /**
   * A frame that covers every particle (four bytes each): every z of the new
   * buffer is the far plane for a skipped particle and lies in [0, 1275] for
   * a followed one; x and y are untouched.
   */
  lemma FrameDepthsBounded(positions: seq<real>, pixels: seq<Byte>, l: Levels)
    requires LevelsInUnitRange(l)
    requires |positions| % 3 == 0 && 4 * (|positions| / 3) <= |pixels|
    ensures forall k :: 0 <= k < |positions| && k % 3 == 2 ==>
      var z := ApplyDepths(positions, pixels, l)[k];
      if (k / 3) % Density != 0 then z == CameraFar else 0.0 <= z <= 1275.0
  {
    var r := ApplyDepths(positions, pixels, l);
    forall k | 0 <= k < |positions| && k % 3 == 2
      ensures if (k / 3) % Density != 0 then r[k] == CameraFar else 0.0 <= r[k] <= 1275.0
    {
      if (k / 3) % Density == 0 {
        FollowedDepthBounded(k / 3, pixels, l);
      }
    }
  }
}
