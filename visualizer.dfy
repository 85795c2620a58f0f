/**
 * The state `src/main.ts` keeps in module globals (the particle list, the
 * particle mesh's position buffer and colour, the frame cache) and the two
 * operations that change it: building the particles from the first frame and
 * drawing one animation frame.
 */
module Visualizer {
  import opened Wrappers
  import opened Bytes
  import opened Spectrum
  import opened Colour
  import opened Depth
  import opened Particles
  import opened ImageCache

  /** The analyser's spectrum as a value, when there is an analyser. */
  function Samples(spectrum: Option<array<Byte>>): Option<seq<Byte>>
    reads if spectrum.Some? then {spectrum.value} else {}
  {
    match spectrum
    case None => None
    case Some(a) => Some(a[..])
  }

  /** A well-formed frame has a pixel for every particle built from it. */
  lemma FrameCoversItsParticles(f: ImageFrame)
    requires WellFormed(f)
    ensures |FrameVertices(f.width, f.height)| % 3 == 0
    ensures 4 * (|FrameVertices(f.width, f.height)| / 3) <= |f.data|
  {
    GridVerticesLength(f.width, f.height, f.height);
    assert |FrameVertices(f.width, f.height)| == 3 * (f.width * f.height);
  }

  /** `new Float32BufferAttribute(list, 3)`: a fresh buffer holding a copy of the list. */
  method PositionBuffer(vertices: seq<real>) returns (buffer: array<real>)
    ensures fresh(buffer) && buffer[..] == vertices
  {
    buffer := new real[|vertices|];
    var k := 0;
    while k < buffer.Length
      invariant 0 <= k <= buffer.Length
      invariant buffer[..k] == vertices[..k]
    {
      buffer[k] := vertices[k];
      k := k + 1;
    }
  }

  /**
   * Drawing over particles built from a well-formed frame of the same size:
   * every skipped particle goes to the far plane and every followed one gets a
   * depth in [0, 1275], whatever the spectrum.
   */
  lemma DrawnDepthsBounded(positions: seq<real>, image: ImageFrame, spectrum: Option<seq<Byte>>)
    requires spectrum.Some? ==> |spectrum.value| == SpectrumLength
    requires WellFormed(image) && |positions| == |FrameVertices(image.width, image.height)|
    ensures forall k :: 0 <= k < |positions| && k % 3 == 2 ==>
      var z := ApplyDepths(positions, image.data, AudioLevels(spectrum))[k];
      if (k / 3) % Density != 0 then z == CameraFar else 0.0 <= z <= 1275.0
  {
    FrameCoversItsParticles(image);
    FrameDepthsBounded(positions, image.data, AudioLevels(spectrum));
  }

  class VisualizerState {
    /** `particlesVertices`: the flat (x, y, z) list, only ever appended to. */
    var particlesVertices: seq<real>
    /** Position buffer of the particle mesh; null while there is no mesh. */
    var positions: array?<real>
    /** Colour of the particle mesh's material. */
    var tint: Rgb
    /** `imageCache`. */
    const cache: FrameCache

    ghost predicate Valid()
      reads this, positions
    {
      |particlesVertices| % 3 == 0 &&
      (positions != null ==> positions.Length == |particlesVertices|)
    }

    /** The state before the first frame arrives: no particles, no mesh, an empty cache. */
    constructor ()
      ensures Valid() && fresh(cache)
      ensures particlesVertices == [] && positions == null && cache.stored == None
    {
      particlesVertices := [];
      positions := null;
      tint := White;
      cache := new FrameCache();
    }

    /**
     * `createParticles`: takes the frame the cache serves (caching on), appends
     * one triple per pixel in raster order, and makes a new mesh whose position
     * buffer is a copy of the whole list and whose colour is white.
     */
    method CreateParticles(capture: ImageFrame)
      requires Valid()
      modifies this, cache
      ensures Valid()
      ensures var image := Served(old(cache.stored), capture, true);
        && cache.stored == Some(image)
        && particlesVertices == old(particlesVertices) + FrameVertices(image.width, image.height)
      ensures positions != null && fresh(positions) && positions[..] == particlesVertices
      ensures tint == White
    {
      var imageData := cache.GetImageData(capture, true);
      PushVertices(imageData.width, imageData.height);
      GridVerticesLength(imageData.width, imageData.height, imageData.height);
      assert |particlesVertices| == |old(particlesVertices)| + 3 * (imageData.width * imageData.height);
      positions := PositionBuffer(particlesVertices);
      tint := White;
    }

    /** The nested loop of `createParticles`: pushes x, y and z of every pixel, row by row. */
    method PushVertices(width: nat, height: nat)
      modifies this
      ensures particlesVertices == old(particlesVertices) + FrameVertices(width, height)
      ensures positions == old(positions) && tint == old(tint)
    {
      var y := 0;
      while y < height
        invariant 0 <= y <= height
        invariant particlesVertices == old(particlesVertices) + GridVertices(width, height, y)
        invariant positions == old(positions) && tint == old(tint)
      {
        var x := 0;
        while x < width
          invariant 0 <= x <= width
          invariant particlesVertices == old(particlesVertices) + GridVertices(width, height, y) + RowVertices(width, height, y, x)
          invariant positions == old(positions) && tint == old(tint)
        {
          particlesVertices := particlesVertices + Vertex(width, height, x, y);
          x := x + 1;
        }
        y := y + 1;
      }
    }
    /**
     * `draw` for one frame: computes the bass, mid and treble levels (zero
     * without an analyser); when the mesh exists, sets its colour to one minus
     * each level, fetches the frame (reusing the cache when the integer part of
     * the frame time is even) and maps every particle's depth.
     */
    method Draw(spectrum: Option<array<Byte>>, timestamp: real, capture: ImageFrame)
      requires Valid()
      requires spectrum.Some? ==> spectrum.value.Length == SpectrumLength
      requires 0.0 <= timestamp
      modifies this, positions, cache
      ensures Valid()
      ensures particlesVertices == old(particlesVertices) && positions == old(positions)
      ensures positions == null ==> tint == old(tint) && cache.stored == old(cache.stored)
      ensures positions != null ==>
        var levels := AudioLevels(Samples(spectrum));
        var image := Served(old(cache.stored), capture, CacheRequested(timestamp));
        && tint == Tint(levels)
        && cache.stored == Some(image)
        && positions[..] == ApplyDepths(old(positions[..]), image.data, levels)
    {
      var r, g, b := 0.0, 0.0, 0.0;
      if spectrum.Some? {
        var data := spectrum.value;
        FixedBandsAreReadable(data[..], Bass);
        FixedBandsAreReadable(data[..], Mid);
        FixedBandsAreReadable(data[..], Treble);
        var bass := FrequencyRangeValue(data, Bass);
        var mid := FrequencyRangeValue(data, Mid);
        var treble := FrequencyRangeValue(data, Treble);
        r, g, b := bass.value, mid.value, treble.value;
      }
      assert Levels(r, g, b) == AudioLevels(Samples(spectrum));

      if positions != null {
        tint := Rgb(1.0 - r, 1.0 - g, 1.0 - b);
        var useCache := CacheRequested(timestamp);
        var imageData := cache.GetImageData(capture, useCache);
        MapDepths(positions, |particlesVertices| / 3, imageData.data, Levels(r, g, b));
      }
    }
  }
}
