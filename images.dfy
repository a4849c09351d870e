/**
 * The image dataset of the simulator: an append-only stack of 16-bit frames
 * of one common width and height, with a title and an active slice.
 *
 * The dataset is specified by an interface whose implementations are
 * backends (an ImageJ stack, for one); this class is the abstract state
 * those backends share, with each operation's effect on it.
 */
module Images {
  import opened Pixels

  /** What an operation that may raise `ImageShapeException` ends with. */
  datatype Outcome = Pass | ImageShapeException

  /** The number of bits of every pixel in a dataset. */
  const BitDepth: nat := 16

  class ImageS {
    var images: seq<Frame>
    var width: nat
    var height: nat
    var slice: int
    var title: string

    /** Every frame of the stack has the dataset's width and height. */
    ghost predicate Valid()
      reads this
    {
      forall i :: 0 <= i < |images| ==> HasShape(images[i], width, height)
    }

    /** An empty dataset of `width` by `height` pixel frames. */
    constructor (width: nat, height: nat, title: string)
      ensures Valid()
      ensures images == [] && this.width == width && this.height == height
      ensures slice == 0 && this.title == title
    {
      images := [];
      this.width := width;
      this.height := height;
      slice := 0;
      this.title := title;
    }

    /** The dataset's title, as last set. */
    function GetTitle(): (t: string)
      reads this
      ensures t == title
    {
      title
    }

    method SetTitle(title: string)
      modifies this
      ensures GetTitle() == title
      ensures images == old(images) && width == old(width) && height == old(height) && slice == old(slice)
    {
      this.title := title;
    }

    /** The number of bits per pixel: a pixel takes one of 2^bits values. */
    function GetBitDepth(): (bits: nat)
      ensures Pow2(bits) == ShortValues
    {
      assert Pow2(8) == 0x100;
      BitDepth
    }

    /** The width every frame of a valid dataset has. */
    function GetWidth(): (w: nat)
      reads this
      ensures Valid() ==> forall i :: 0 <= i < |images| ==> |images[i]| == w
    {
      width
    }

    /** The height every column of every frame of a valid dataset has. */
    function GetHeight(): (h: nat)
      reads this
      ensures Valid() ==> forall i, x :: 0 <= i < |images| && 0 <= x < |images[i]| ==> |images[i][x]| == h
    {
      height
    }

    /** The number of frames; `0 <= index < GetSize()` are the slices `GetPixelData` accepts. */
    function GetSize(): (n: nat)
      reads this
      ensures n == |images|
    {
      |images|
    }

    /** The active slice (0-indexed), as last set. */
    function GetSlice(): (s: int)
      reads this
      ensures s == slice
    {
      slice
    }

    /** Makes slice `index` (0-indexed) the active one. */
    method SetSlice(index: int)
      modifies this
      ensures GetSlice() == index
      ensures images == old(images) && width == old(width) && height == old(height) && title == old(title)
    {
      slice := index;
    }

    /**
     * Appends `image` at the end of the stack when it is `GetWidth()` by
     * `GetHeight()` pixels; otherwise raises `ImageShapeException` and leaves
     * the dataset as it was.
     */
    method AddImage(image: Frame) returns (r: Outcome)
      requires Valid()
      modifies this
      ensures Valid()
      ensures r == Pass <==> HasShape(image, width, height)
      ensures width == old(width) && height == old(height)
      ensures slice == old(slice) && title == old(title)
      ensures r == Pass ==> GetSize() == old(GetSize()) + 1 && images[GetSize() - 1] == image
      ensures images == if r == Pass then old(images) + [image] else old(images)
    {
      if HasShape(image, width, height) {
        images := images + [image];
        r := Pass;
      } else {
        r := ImageShapeException;
      }
    }

    /**
     * The `int[][]` form of `AddImage`: every pixel is cast to a 16-bit
     * value before the image is appended.
     */
    method AddIntImage(image: seq<seq<int>>) returns (r: Outcome)
      requires Valid()
      modifies this
      ensures Valid()
      ensures r == Pass <==> HasShape(image, width, height)
      ensures width == old(width) && height == old(height)
      ensures slice == old(slice) && title == old(title)
      ensures images == if r == Pass then old(images) + [TruncateFrame(image)] else old(images)
    {
      r := AddImage(TruncateFrame(image));
    }

    /**
     * Appends the frames of `dataset`, in order, after this one's when both
     * have the same width and height; otherwise raises
     * `ImageShapeException` and leaves this dataset as it was. A dataset may
     * be concatenated with itself.
     */
    method Concatenate(dataset: ImageS) returns (r: Outcome)
      requires Valid() && dataset.Valid()
      modifies this
      ensures Valid()
      ensures r == Pass <==> old(dataset.width) == old(width) && old(dataset.height) == old(height)
      ensures width == old(width) && height == old(height)
      ensures slice == old(slice) && title == old(title)
      ensures r == Pass ==> GetSize() == old(GetSize()) + old(dataset.GetSize())
      ensures images == if r == Pass then old(images) + old(dataset.images) else old(images)
    {
      if dataset.width == width && dataset.height == height {
        images := images + dataset.images;
        r := Pass;
      } else {
        r := ImageShapeException;
      }
    }

    /**
     * The pixels of slice `index` in one dimension: pixel (x, y) sits at
     * `Offset(x, y, ...)`, and the frame can be rebuilt from the result.
     */
    method GetPixelData(index: int) returns (pixels: seq<Short>)
      requires Valid() && 0 <= index < |images|
      ensures |pixels| == width * height
      ensures forall x, y :: 0 <= x < width && 0 <= y < height ==>
        pixels[Offset(x, y, width, height)] == images[index][x][y]
      ensures Unflatten(pixels, width, height) == images[index]
    {
      pixels := Flatten(images[index], width, height);
      UnflattenFlatten(images[index], width, height);
    }
  }
}
