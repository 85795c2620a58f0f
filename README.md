# Audio/video particle visualizer — per-frame data mapping

A model of the data-mapping core of a browser visualizer (`src/main.ts`). Each animation frame it
reads the audio analyser's byte spectrum and averages three frequency bands (bass, mid, treble)
into levels in [0, 1]. It tints the particle material with one minus each level. It then takes a
video frame from a one-slot cache, reusing the cached frame when the integer part of the frame
time in ms is even and capturing a new one otherwise. Last, it sets the depth (z) of every
even-indexed particle from the grey level of that particle's pixel and the band levels, and sends
the odd-indexed ones to the far plane. The particles themselves, one per pixel in raster order,
are built once from the first frame.

Modules, one per piece of the core:

- `Spectrum`: the band aggregator `getFrequencyRangeValue`. It has a specification function
  (`BandEnergy`) and the loop itself (`FrequencyRangeValue`, over the analyser's byte array).
  JavaScript gives NaN when the index range is empty (0 / 0) or reaches past the spectrum
  (`undefined` is added to the total). The model gives a `Failure` for these two cases.
- `Colour`: the levels of a frame (`AudioLevels`, zero without an analyser) and the tint.
- `Depth`: the grey level, the threshold rule, the depth of a particle, and the in-place loop
  over the flat position buffer (`MapDepths`).
- `Particles`: the (x, y, z) list that `createParticles` builds, as recursive functions over rows.
- `ImageCache`: the one-slot frame cache (class `FrameCache`) and the frame-parity rule.
- `Visualizer`: the module globals (`particlesVertices`, the mesh's position buffer and colour,
  the cache) as the class `VisualizerState`, with `CreateParticles` and `Draw` for one frame.

Arithmetic is on exact reals. `Math.round` is `Floor(x + 0.5)`.

Three places where the model keeps the code's behaviour as written:

- The aggregator's index range is inclusive at both ends.
- The aggregator has no guard for an empty or out-of-range index range. JavaScript yields NaN
  in both cases, and the model reports both as errors.
- The "far" branch for bright pixels (grey level at or above 300) cannot be reached with a real
  grey level. But a pixel read past the end of the frame gives NaN, `NaN < 300` is false, and the
  particle goes to the far plane. `Depth.FarExactlyWhenSkippedOrUnread` states exactly when this happens.

## Model

| member | source | states |
|---|---|---|
| Spectrum.Round | src/main.ts:226-227 | `Math.round` gives the integer within half a unit of its argument, halves rounded up |
| Spectrum.FrequencyIndex | src/main.ts:223-227 | a frequency maps to the nearest integer to hz / 24000 * len; non-negative frequencies give non-negative indices |
| Spectrum.Sum | src/main.ts:231-233 | the total of a run of bytes lies between 0 and 255 times its length |
| Spectrum.BandEnergy | src/main.ts:222-237 | the band energy is an error exactly when highIndex < lowIndex (empty range, 0/0) or, the range being non-empty, it reaches below 0 or past the spectrum; otherwise it is the mean of the inclusive range divided by 255, and it lies in [0, 1] |
| Spectrum.FrequencyRangeValue | src/main.ts:222-237 | the summing loop (total and count over lowIndex..highIndex, NaN on an undefined read) returns exactly `BandEnergy` of the spectrum |
| Spectrum.FixedBandIndices | src/main.ts:50-57 | over 1024 samples the five bands map to index ranges 1..6, 6..17, 17..111, 111..222 and 222..597 |
| Spectrum.FixedBandsAreReadable | src/main.ts:50-57 | with a 1024-sample spectrum every predefined band has 0 <= lowIndex <= highIndex <= 1023, so the loop reads only in-range samples, the count is positive and the energy is a number in [0, 1] |
| Spectrum.SilenceHasNoEnergy | src/main.ts:229-236 | an all-zero spectrum gives energy 0 for every band with a readable range |
| Spectrum.FullScaleHasFullEnergy | src/main.ts:229-236 | an all-255 spectrum gives energy 1 for every band with a readable range |
| Colour.AudioLevels | src/main.ts:244-258 | the levels are all zero without an analyser, and otherwise the bass, mid and treble band energies of the 1024-sample spectrum; each lies in [0, 1] |
| Colour.Tint | src/main.ts:262-265 | the material colour is one minus each level, channel by channel; levels in [0, 1] give channels in [0, 1] |
| Colour.TintRoundTrip | src/main.ts:262-265 | the levels can be read back from the tint, so tint and levels determine each other |
| Colour.TintInUnitCube | src/main.ts:262-265 | levels in [0, 1] give tint channels in [0, 1] |
| Colour.NoAnalyserIsWhite | src/main.ts:244-265 | without an analyser r = g = b = 0 and the tint is (1, 1, 1) |
| Colour.TintAntitone | src/main.ts:262-265 | a louder band never brightens its channel |
| Colour.TintOfConstantSpectrum | src/main.ts:244-265 | a silent spectrum leaves the particles white and a full-scale one makes them black |
| Depth.Gray | src/main.ts:283-284 | the grey level of pixel i is defined exactly when bytes 4i..4i+2 lie in the buffer (NaN otherwise) and then lies in [0, 255] |
| Depth.Bounce | src/main.ts:285-297 | the grey level times bass, mid or treble times 5, chosen by the cut-offs 100 and 150; the far plane when the grey level is not below 300, which only a NaN grey level reaches; a grey level in [0, 255] with levels in [0, 1] gives a depth in [0, 1275] |
| Depth.ParticleDepth | src/main.ts:276-297 | the depth of particle i is the far plane when i is odd or its pixel lies past the end of the frame, and otherwise lies in [0, 1275] for levels in [0, 1] |
| Depth.ApplyDepths | src/main.ts:273-300 | after a frame the buffer has the same length, the x and y entries are unchanged, and entry 3i+2 is the depth of particle i |
| Depth.MapDepths | src/main.ts:271-300 | the in-place loop over the particles leaves the position buffer equal to `ApplyDepths` of its old contents |
| Depth.SkippedParticlesAreFar | src/main.ts:271-279 | a particle with an odd index gets z = cameraFar (10000), whatever the pixels |
| Depth.GrayBelowThreshold | src/main.ts:284-287 | a readable grey level is always below the threshold 300 |
| Depth.DepthByGrayLevel | src/main.ts:283-294 | for an even particle with grey level g, z is g·bass·5 when g < 100, g·mid·5 when 100 <= g < 150, and g·treble·5 otherwise |
| Depth.FollowedDepthBounded | src/main.ts:283-297 | with levels in [0, 1] an even particle with a readable pixel gets z in [0, 1275] |
| Depth.FarExactlyWhenSkippedOrUnread | src/main.ts:276-297 | with levels in [0, 1] a particle is at the far plane if and only if its index is odd or its pixel lies past the end of the frame |
| Depth.FrameDepthsBounded | src/main.ts:273-300 | when the frame has four bytes for every particle, every odd particle's z is the far plane and every even one's lies in [0, 1275] |
| Particles.Vertex | src/main.ts:177-178 | pixel (x, y) gives three numbers, the last 0, from which x and y are recovered: the first plus width/2 is x, height/2 minus the second is y |
| Particles.FrameVertices | src/main.ts:175-180 | the vertex list of a whole frame holds 3·width·height numbers |
| Particles.RowVerticesAt | src/main.ts:176-179 | a row prefix of n pixels holds 3n numbers, pixel x's triple at offset 3x |
| Particles.GridVerticesLength | src/main.ts:175-180 | the loops push exactly 3·width·rows numbers |
| Particles.GridVerticesAt | src/main.ts:175-180 | pixel (x, y) becomes particle y·width + x with position (x - width/2, height/2 - y, 0) |
| Particles.FrameVerticesShape | src/main.ts:175-180 | a width by height frame yields 3·width·height numbers, pixel (x, y) at particle y·width + x |
| ImageCache.CacheRequested | src/main.ts:269 | the frame time asks for the cached frame exactly when it lies in [2k, 2k + 1) for some whole k, that is when its integer part is even |
| ImageCache.Served | src/main.ts:194-212 | with caching asked for and a frame stored, the served frame is the stored one; with caching off or nothing stored, it is the new capture |
| ImageCache.FrameCache.constructor | src/main.ts:44 | the cache starts empty |
| ImageCache.FrameCache.GetImageData | src/main.ts:193-212 | returns the stored frame and leaves the cache unchanged when caching is asked for and a frame is stored; otherwise stores and returns the new capture; afterwards the cache always holds the returned frame |
| ImageCache.CacheHit | src/main.ts:194-196 | a hit hands out the stored frame and keeps it |
| ImageCache.CacheMiss | src/main.ts:198-212 | a miss (caching off, or nothing stored) hands out the new capture |
| ImageCache.ServedAgain | src/main.ts:193-212 | asking again with caching on returns the frame just handed out, whatever is captured then |
| ImageCache.CacheRequestedByIntegerPart | src/main.ts:269 | caching is asked for exactly when the integer part of the frame time is even |
| ImageCache.CacheRequestAlternates | src/main.ts:269 | of two frame times one millisecond apart, exactly one asks for the cache |
| Visualizer.PositionBuffer | src/main.ts:183 | the position buffer is a fresh array holding a copy of the vertex list |
| Visualizer.FrameCoversItsParticles | src/main.ts:175-184 | a well-formed frame (four bytes per pixel) has a pixel for every particle built from it |
| Visualizer.DrawnDepthsBounded | src/main.ts:242-300 | drawing over particles built from a well-formed frame of the same size sends every odd particle to the far plane and puts every even one in [0, 1275], for any spectrum |
| Visualizer.VisualizerState.constructor | src/main.ts:39-48 | before the first frame there are no particles, no mesh and an empty cache |
| Visualizer.VisualizerState.PushVertices | src/main.ts:175-180 | the nested loops append exactly the frame's vertex list to `particlesVertices` and change nothing else |
| Visualizer.VisualizerState.CreateParticles | src/main.ts:165-187 | takes the frame the cache serves with caching on, appends its vertex list, builds a fresh position buffer equal to the whole list and a white material |
| Visualizer.VisualizerState.Draw | src/main.ts:242-304 | keeps the particle list and buffer (the count never changes); without a mesh it changes nothing; with one it sets the tint to one minus the levels, serves the frame by the parity rule and rewrites only the z entries, as `ApplyDepths` |

## Left out

- Scene, renderer, camera, `Points`/`BufferGeometry`, `handleResize` and `renderer.render`: rendering-library calls. The mesh is its position buffer and its colour.
- The `needsUpdate` flag on the position attribute: a signal to the rendering backend only.
- `getUserMedia`, its vendor-prefixed fallback and the permission message: browser I/O.
- Audio loading, playback, the click-to-pause handler and the transform inside `AudioAnalyser`: external. The spectrum is an input byte array.
- Visualizer.VisualizerState.Draw: requires a 1024-byte spectrum when there is an analyser, because an analyser built with `fftSize` 2048 always returns 1024 bins. So NaN levels never reach the tint or the depths.
- Canvas drawing in `getImageDataFromVideo` (flip, `drawImage`, `getImageData`): browser API. The capture is an opaque frame passed in on every call, and it is used only on a miss.
- `requestAnimationFrame` rescheduling: host scheduling. The model has one call per frame.
- Float32 storage in `Float32BufferAttribute` and double-precision rounding: the model uses exact reals. No predefined band lies near a rounding boundary (`FixedBandIndices`).
- `parseInt` on the frame time: the time is a non-negative real and its integer part is its floor. The exponent notation `parseInt` would mis-read for tiny or huge values is not modelled.
- The lowMid and highMid bands are defined but not used when drawing. They appear only in `FixedBandIndices` and `FixedBandsAreReadable`.
