/**
 * The quad the renderer draws and the texture coordinates that map the frame onto it.
 * Both buffers hold four (x, y) pairs, one per corner of the triangle strip, in the order
 * top-right, top-left, bottom-right, bottom-left of the quad. Coordinates are exact reals
 * here; the source stores them as 32-bit floats.
 */
module Geometry {

  /** Vertex positions of the full-viewport quad in normalized device coordinates. */
  const QuadPositions: seq<real> := [1.0, 1.0, -1.0, 1.0, 1.0, -1.0, -1.0, -1.0]

  /** Texture coordinates used when no crop is requested: the whole frame, flipped vertically. */
  const DefaultTexCoords: seq<real> := [1.0, 0.0, 0.0, 0.0, 1.0, 1.0, 0.0, 1.0]

  /** A crop rectangle in pixels of the uncropped frame. */
  datatype CropRect = CropRect(top: int, left: int, width: int, height: int)

  /**
   * Four (u, v) corners of an axis-aligned rectangle in strip order: corners 0 and 2 share
   * the first u, corners 1 and 3 the second, corners 0 and 1 the first v, corners 2 and 3
   * the second.
   */
  predicate IsRectangle(c: seq<real>)
  {
    |c| == 8 && c[0] == c[4] && c[2] == c[6] && c[1] == c[3] && c[5] == c[7]
  }

  /**
   * The texture coordinates drawNextOuptutPictureGL uploads for a crop, with
   * tTop = top/H, tLeft = left/W, tBottom = crop height/H and tRight = crop width/W,
   * in the corner order (tRight,tTop), (tLeft,tTop), (tRight,tBottom), (tLeft,tBottom).
   */
  function CropTexCoords(crop: CropRect, width: int, height: int): (c: seq<real>)
    requires width != 0 && height != 0
    ensures IsRectangle(c)
  {
    var tTop := crop.top as real / height as real;
    var tLeft := crop.left as real / width as real;
    var tBottom := crop.height as real / height as real;
    var tRight := crop.width as real / width as real;
    [tRight, tTop, tLeft, tTop, tRight, tBottom, tLeft, tBottom]
  }

  /** The crop lies inside a width x height frame. */
  predicate InsideFrame(crop: CropRect, width: int, height: int)
  {
    0 <= crop.top && 0 <= crop.left && 0 <= crop.width && 0 <= crop.height &&
    crop.top + crop.height <= height && crop.left + crop.width <= width
  }

  /** For a crop inside the frame every texture coordinate lies in [0, 1]. */
  lemma CropTexCoordsInUnit(crop: CropRect, width: int, height: int)
    requires width > 0 && height > 0 && InsideFrame(crop, width, height)
    ensures forall i :: 0 <= i < 8 ==> 0.0 <= CropTexCoords(crop, width, height)[i] <= 1.0
  {
  }

  /**
   * The sampled region spans (crop width - left)/W horizontally and (crop height - top)/H
   * vertically, so it spans crop width/W exactly when left is 0, and crop height/H exactly
   * when top is 0.
   */
  lemma CropTexCoordsSpan(crop: CropRect, width: int, height: int)
    requires width != 0 && height != 0
    ensures var c := CropTexCoords(crop, width, height);
      c[0] - c[2] == (crop.width - crop.left) as real / width as real &&
      c[5] - c[1] == (crop.height - crop.top) as real / height as real &&
      (c[0] - c[2] == crop.width as real / width as real <==> crop.left == 0) &&
      (c[5] - c[1] == crop.height as real / height as real <==> crop.top == 0)
  {
  }

  /** Cropping to the whole frame reproduces the default texture coordinates. */
  lemma WholeFrameCropIsDefault(width: int, height: int)
    requires width > 0 && height > 0
    ensures CropTexCoords(CropRect(0, 0, width, height), width, height) == DefaultTexCoords
    ensures IsRectangle(DefaultTexCoords)
  {
    assert width as real / width as real == 1.0;
    assert height as real / height as real == 1.0;
  }

  /** A 320 x 240 crop at the origin of a 640 x 480 frame samples its top-left quarter. */
  lemma QuarterCrop()
    ensures CropTexCoords(CropRect(0, 0, 320, 240), 640, 480) == [0.5, 0.0, 0.0, 0.0, 0.5, 0.5, 0.0, 0.5]
  {
  }
}
