/**
 * Pixel values and 2-D frames of a 16-bit image stack.
 *
 * A frame is indexed `frame[x][y]`: the first index runs along X (the
 * width), the second along Y (the height), as in a Java `short[][]` passed
 * to `addImage`. A slice handed back by `getPixelData` is the same frame
 * laid out in one dimension, row by row, X varying fastest.
 */
module Pixels {

  /** The number of distinct 16-bit values. */
  const ShortValues: int := 0x1_0000

  /** A Java `short`: a signed 16-bit two's-complement value. */
  newtype Short = v: int | -ShortValues / 2 <= v < ShortValues / 2

  /** Two to the power `n`. */
  function Pow2(n: nat): (p: nat)
  {
    if n == 0 then 1 else 2 * Pow2(n - 1)
  }

  /**
   * The Java narrowing cast `(short) v`: keep the low 16 bits of `v` and
   * read them as a two's-complement number. The result is the one 16-bit
   * value congruent to `v` modulo 2^16 (see `ShortCongruenceUnique`).
   */
  function TruncateToShort(v: int): (s: Short)
    ensures (v - s as int) % ShortValues == 0
  {
    var low := v % ShortValues;
    if low < 0x8000 then low as Short else (low - ShortValues) as Short
  }

  /** Two 16-bit values that agree modulo 2^16 are equal. */
  lemma ShortCongruenceUnique(a: Short, b: Short)
    requires (a as int - b as int) % ShortValues == 0
    ensures a == b
  {
  }

  /** The cast leaves a value that already fits in 16 bits unchanged. */
  lemma TruncateKeepsShorts(v: int)
    requires -0x8000 <= v < 0x8000
    ensures TruncateToShort(v) as int == v
  {
  }

  /** The cast only depends on `v` modulo 2^16. */
  lemma TruncatePeriodic(v: int, k: int)
    ensures TruncateToShort(v + k * ShortValues) == TruncateToShort(v)
  {
  }

  /** A 2-D frame of 16-bit pixels, indexed `frame[x][y]`. */
  type Frame = seq<seq<Short>>

  /**
   * `f` is a rectangular grid of `width` columns (X) of `height` pixels (Y)
   * each. A ragged array has no shape.
   */
  predicate HasShape<T>(f: seq<seq<T>>, width: int, height: int)
  {
    |f| == width && forall x :: 0 <= x < |f| ==> |f[x]| == height
  }

  /**
   * The `int[][]` form of an image with every pixel cast to a Java `short`;
   * the grid keeps its shape.
   */
  function TruncateFrame(image: seq<seq<int>>): (f: Frame)
    ensures |f| == |image|
    ensures forall x :: 0 <= x < |image| ==> |f[x]| == |image[x]|
    ensures forall width, height :: HasShape(f, width, height) <==> HasShape(image, width, height)
    ensures forall x, y :: 0 <= x < |image| && 0 <= y < |image[x]| ==>
      (image[x][y] - f[x][y] as int) % ShortValues == 0
  {
    seq(|image|, x requires 0 <= x < |image| =>
      seq(|image[x]|, y requires 0 <= y < |image[x]| => TruncateToShort(image[x][y])))
  }

  /** Position of pixel (x, y) in the one-dimensional layout of a frame. */
  function Offset(x: nat, y: nat, width: nat, height: nat): (k: nat)
    requires x < width && y < height
    ensures k < width * height
    ensures k % width == x && k / width == y
  {
    OffsetBound(x, y, width, height);
    OffsetDivMod(x, y, width);
    y * width + x
  }

  lemma OffsetBound(x: nat, y: nat, width: nat, height: nat)
    requires x < width && y < height
    ensures y * width + x < width * height
  {
    assert (y + 1) * width <= height * width by {
      MulMonotone(y + 1, height, width);
    }
  }

  lemma MulMonotone(a: nat, b: nat, c: nat)
    requires a <= b
    ensures a * c <= b * c
  {
  }

  lemma OffsetDivMod(x: nat, y: nat, width: nat)
    requires x < width
    ensures (y * width + x) % width == x && (y * width + x) / width == y
  {
    var k := y * width + x;
    var q, r := k / width, k % width;
    assert k == q * width + r && 0 <= r < width;
    assert (q - y) * width == x - r;
    if q > y {
      MulMonotone(1, q - y, width);
    } else if q < y {
      MulMonotone(1, y - q, width);
    }
  }

  /** Row `y` of a frame: the pixels (0, y), (1, y), ..., (width - 1, y). */
  function Row(f: Frame, width: nat, height: nat, y: nat): (r: seq<Short>)
    requires HasShape(f, width, height) && y < height
  {
    seq(width, x requires 0 <= x < width => f[x][y])
  }

  /** The first `rows` rows of a frame, one after the other. */
  function FlattenRows(f: Frame, width: nat, height: nat, rows: nat): (p: seq<Short>)
    requires HasShape(f, width, height) && rows <= height
    decreases rows
  {
    if rows == 0 then [] else FlattenRows(f, width, height, rows - 1) + Row(f, width, height, rows - 1)
  }

  /** The first `rows` rows of a frame hold `rows * width` pixels. */
  lemma {:induction false} FlattenRowsLength(f: Frame, width: nat, height: nat, rows: nat)
    requires HasShape(f, width, height) && rows <= height
    ensures |FlattenRows(f, width, height, rows)| == rows * width
  {
    if rows > 0 {
      FlattenRowsLength(f, width, height, rows - 1);
      assert (rows - 1) * width + width == rows * width;
    }
  }

  /** Pixel (x, y) of one of the first `rows` rows lands at its offset in the flattened sequence. */
  lemma {:induction false} FlattenRowsAt(f: Frame, width: nat, height: nat, rows: nat, x: nat, y: nat)
    requires HasShape(f, width, height) && rows <= height
    requires x < width && y < rows
    ensures Offset(x, y, width, height) < |FlattenRows(f, width, height, rows)|
    ensures FlattenRows(f, width, height, rows)[Offset(x, y, width, height)] == f[x][y]
  {
    FlattenRowsLength(f, width, height, rows - 1);
    var prev := FlattenRows(f, width, height, rows - 1);
    if y < rows - 1 {
      FlattenRowsAt(f, width, height, rows - 1, x, y);
    } else {
      assert Offset(x, y, width, height) == |prev| + x;
    }
  }

  /** The whole frame as one sequence, row by row, X varying fastest. */
  function Flatten(f: Frame, width: nat, height: nat): (p: seq<Short>)
    requires HasShape(f, width, height)
    ensures |p| == width * height
    ensures forall x, y :: 0 <= x < width && 0 <= y < height ==> p[Offset(x, y, width, height)] == f[x][y]
  {
    FlattenRowsLength(f, width, height, height);
    assert forall x, y :: 0 <= x < width && 0 <= y < height ==>
      FlattenRows(f, width, height, height)[Offset(x, y, width, height)] == f[x][y] by {
      forall x, y | 0 <= x < width && 0 <= y < height
        ensures FlattenRows(f, width, height, height)[Offset(x, y, width, height)] == f[x][y]
      {
        FlattenRowsAt(f, width, height, height, x, y);
      }
    }
    FlattenRows(f, width, height, height)
  }

  /** Rebuilds a `width` by `height` frame from its one-dimensional layout. */
  function Unflatten(p: seq<Short>, width: nat, height: nat): (f: Frame)
    requires |p| == width * height
    ensures HasShape(f, width, height)
  {
    seq(width, x requires 0 <= x < width =>
      seq(height, y requires 0 <= y < height => p[Offset(x, y, width, height)]))
  }

  /** Flattening loses nothing: the frame can be read back from its layout. */
  lemma UnflattenFlatten(f: Frame, width: nat, height: nat)
    requires HasShape(f, width, height)
    ensures Unflatten(Flatten(f, width, height), width, height) == f
  {
    var g := Unflatten(Flatten(f, width, height), width, height);
    forall x | 0 <= x < width ensures g[x] == f[x] {
      assert forall y :: 0 <= y < height ==> g[x][y] == f[x][y];
    }
  }

  /** Every sequence of the right length is the layout of exactly one frame. */
  lemma FlattenUnflatten(p: seq<Short>, width: nat, height: nat)
    requires |p| == width * height
    ensures Flatten(Unflatten(p, width, height), width, height) == p
  {
    var f := Unflatten(p, width, height);
    var q := Flatten(f, width, height);
    forall k | 0 <= k < |p| ensures q[k] == p[k] {
      if width == 0 {
        assert false;
      }
      var x, y := k % width, k / width;
      assert k == y * width + x;
      if y >= height {
        MulMonotone(height, y, width);
        assert false;
      }
      assert Offset(x, y, width, height) == k;
    }
  }
}
