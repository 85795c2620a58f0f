/**
 * The particle grid built from the first video frame: one particle per pixel,
 * in raster order, centred on the origin with y pointing up and z = 0, stored
 * as a flat list of (x, y, z) triples.
 */
module Particles {

  /** The (x, y, z) triple of pixel (x, y) of a `width` by `height` frame. */
  function Vertex(width: nat, height: nat, x: nat, y: nat): (v: seq<real>)
    ensures |v| == 3 && v[2] == 0.0
    ensures v[0] + width as real / 2.0 == x as real && height as real / 2.0 - v[1] == y as real
  {
    [x as real - width as real / 2.0, -(y as real) + height as real / 2.0, 0.0]
  }

  /** The triples of the first `n` pixels of row `y`. */
  function RowVertices(width: nat, height: nat, y: nat, n: nat): seq<real>
  {
    if n == 0 then [] else RowVertices(width, height, y, n - 1) + Vertex(width, height, n - 1, y)
  }

  /** The triples of the first `rows` rows, each `width` pixels long. */
  function GridVertices(width: nat, height: nat, rows: nat): seq<real>
  {
    if rows == 0 then [] else GridVertices(width, height, rows - 1) + RowVertices(width, height, rows - 1, width)
  }

  /** The triples of a whole frame. */
  function FrameVertices(width: nat, height: nat): (r: seq<real>)
    ensures |r| == 3 * width * height
  {
    GridVerticesLength(width, height, height);
    GridVertices(width, height, height)
  }

  /** Raster index of pixel (x, y). */
  function ParticleIndex(width: nat, x: nat, y: nat): nat
  {
    y * width + x
  }

  /** A row prefix of `n` pixels holds 3n numbers, pixel x's triple at 3x. */
  lemma {:induction false} RowVerticesAt(width: nat, height: nat, y: nat, n: nat, x: nat, c: nat)
    requires x < n && c < 3
    ensures |RowVertices(width, height, y, n)| == 3 * n
    ensures RowVertices(width, height, y, n)[3 * x + c] == Vertex(width, height, x, y)[c]
  {
    RowVerticesLength(width, height, y, n - 1);
    if x < n - 1 {
      RowVerticesAt(width, height, y, n - 1, x, c);
    }
  }

  lemma {:induction false} RowVerticesLength(width: nat, height: nat, y: nat, n: nat)
    ensures |RowVertices(width, height, y, n)| == 3 * n
  {
    if n > 0 {
      RowVerticesLength(width, height, y, n - 1);
    }
  }

  /** The first `rows` rows hold exactly 3 * width * rows numbers. */
  lemma {:induction false} GridVerticesLength(width: nat, height: nat, rows: nat)
    ensures |GridVertices(width, height, rows)| == 3 * width * rows
  {
    if rows > 0 {
      GridVerticesLength(width, height, rows - 1);
      RowVerticesLength(width, height, rows - 1, width);
      OneMoreRow(width, rows - 1);
    }
  }

  lemma OneMoreRow(width: nat, rows: nat)
    ensures 3 * width * (rows + 1) == 3 * width * rows + 3 * width
  {
  }

  /**
   * Pixel (x, y) becomes particle y * width + x: its triple starts at three
   * times that index and is (x - width / 2, height / 2 - y, 0).
   */
  lemma {:induction false} GridVerticesAt(width: nat, height: nat, rows: nat, x: nat, y: nat, c: nat)
    requires x < width && y < rows && c < 3
    ensures 3 * ParticleIndex(width, x, y) + c < |GridVertices(width, height, rows)|
    ensures GridVertices(width, height, rows)[3 * ParticleIndex(width, x, y) + c] == Vertex(width, height, x, y)[c]
  {
    GridVerticesLength(width, height, rows - 1);
    RowVerticesLength(width, height, rows - 1, width);
    if y < rows - 1 {
      GridVerticesAt(width, height, rows - 1, x, y, c);
      AppendKeepsPrefix(GridVertices(width, height, rows - 1), RowVertices(width, height, rows - 1, width),
        3 * ParticleIndex(width, x, y) + c);
    } else {
      LastRowOffset(width, rows, x, c);
      RowVerticesAt(width, height, y, width, x, c);
      AppendReachesSuffix(GridVertices(width, height, rows - 1), RowVertices(width, height, rows - 1, width), 3 * x + c);
    }
  }

  /** In the last of `rows` rows, pixel x's entries sit 3x past the earlier rows' 3 * width * (rows - 1). */
  lemma LastRowOffset(width: nat, rows: nat, x: nat, c: nat)
    requires 0 < rows
    ensures 3 * ParticleIndex(width, x, rows - 1) + c == 3 * width * (rows - 1) + 3 * x + c
  {
    assert (rows - 1) * width == width * (rows - 1);
  }

  lemma AppendKeepsPrefix(a: seq<real>, b: seq<real>, k: nat)
    requires k < |a|
    ensures k < |a + b| && (a + b)[k] == a[k]
  {
  }

  lemma AppendReachesSuffix(a: seq<real>, b: seq<real>, k: nat)
    requires k < |b|
    ensures |a| + k < |a + b| && (a + b)[|a| + k] == b[k]
  {
  }

  /** A `width` by `height` frame yields 3 * width * height numbers, one triple per pixel. */
  lemma FrameVerticesShape(width: nat, height: nat)
    ensures |FrameVertices(width, height)| == 3 * width * height
    ensures forall x: nat, y: nat, c: nat | x < width && y < height && c < 3 ::
      && 3 * ParticleIndex(width, x, y) + c < |FrameVertices(width, height)|
      && FrameVertices(width, height)[3 * ParticleIndex(width, x, y) + c] == Vertex(width, height, x, y)[c]
  {
    GridVerticesLength(width, height, height);
    forall x: nat, y: nat, c: nat | x < width && y < height && c < 3
      ensures && 3 * ParticleIndex(width, x, y) + c < |FrameVertices(width, height)|
              && FrameVertices(width, height)[3 * ParticleIndex(width, x, y) + c] == Vertex(width, height, x, y)[c]
    {
      GridVerticesAt(width, height, height, x, y, c);
    }
  }
}
