/**
 * The one-slot cache of captured video frames, and the frame-parity rule that
 * decides when the cached frame may be reused.
 */
module ImageCache {
  import opened Wrappers
  import opened Bytes

  /** A captured RGBA frame: four bytes per pixel, row by row. */
  datatype ImageFrame = ImageFrame(width: nat, height: nat, data: seq<Byte>)

  /** Whether a frame holds exactly four bytes per pixel, as a canvas capture does. */
  predicate WellFormed(f: ImageFrame)
  {
    |f.data| == 4 * f.width * f.height
  }

  /**
   * The frame time (non-negative, in ms) asks for the cached frame when its
   * integer part is even, that is when it lies in [2k, 2k + 1) for some k.
   */
  function CacheRequested(timestamp: real): (r: bool)
    requires 0.0 <= timestamp
    ensures r <==> var k := timestamp.Floor / 2; 2.0 * k as real <= timestamp < 2.0 * k as real + 1.0
  {
    timestamp.Floor % 2 == 0
  }

  /**
   * The frame handed out for a request: the stored one when caching is asked
   * for and a frame is stored, otherwise the newly captured one.
   */
  function Served(stored: Option<ImageFrame>, capture: ImageFrame, useCache: bool): (img: ImageFrame)
    ensures useCache && stored.Some? ==> Some(img) == stored
    ensures !useCache || stored.None? ==> img == capture
  {
    if useCache && stored.Some? then stored.value else capture
  }

  /** The cache slot of `getImageDataFromVideo`. */
  class FrameCache {
    var stored: Option<ImageFrame>

    constructor ()
      ensures stored == None
    {
      stored := None;
    }

    /**
     * Returns the stored frame when `useCache` is set and a frame is stored;
     * otherwise stores `capture` (the frame the canvas would capture now) and
     * returns it. Either way the slot afterwards holds the returned frame.
     */
    method GetImageData(capture: ImageFrame, useCache: bool) returns (img: ImageFrame)
      modifies this
      ensures img == Served(old(stored), capture, useCache)
      ensures stored == Some(img)
      ensures useCache && old(stored).Some? ==> stored == old(stored)
    {
      if useCache && stored.Some? {
        return stored.value;
      }
      stored := Some(capture);
      img := capture;
    }
  }

  /** A hit: the stored frame is handed out and the slot keeps it. */
  lemma CacheHit(stored: Option<ImageFrame>, capture: ImageFrame)
    requires stored.Some?
    ensures Served(stored, capture, true) == stored.value
    ensures Some(Served(stored, capture, true)) == stored
  {
  }

  /** A miss (caching not asked for, or nothing stored): the new capture is handed out. */
  lemma CacheMiss(stored: Option<ImageFrame>, capture: ImageFrame, useCache: bool)
    requires !useCache || stored.None?
    ensures Served(stored, capture, useCache) == capture
  {
  }

  /** Asking again with caching on returns the frame just handed out, whatever is captured then. */
  lemma ServedAgain(stored: Option<ImageFrame>, capture: ImageFrame, useCache: bool, later: ImageFrame)
    ensures Served(Some(Served(stored, capture, useCache)), later, true) == Served(stored, capture, useCache)
  {
  }

  /** Frame times whose integer part is k ask for the cache exactly when k is even. */
  lemma CacheRequestedByIntegerPart(timestamp: real, k: nat)
    requires k as real <= timestamp < k as real + 1.0
    ensures CacheRequested(timestamp) <==> k % 2 == 0
  {
    assert timestamp.Floor == k;
  }

  /** Of two frame times one millisecond apart, exactly one asks for the cache. */
  lemma CacheRequestAlternates(timestamp: real)
    requires 0.0 <= timestamp
    ensures CacheRequested(timestamp) != CacheRequested(timestamp + 1.0)
  {
    var k := timestamp.Floor;
    assert (timestamp + 1.0).Floor == k + 1;
  }
}
