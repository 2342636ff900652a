/**
 * Layout of a planar YUV 4:2:0 (I420) frame buffer: a full-resolution luma plane Y
 * followed, without padding, by the Cb and Cr chroma planes, each subsampled by two
 * in both dimensions.
 */
module I420 {
  import opened Bytes

  /** The chroma planes are only whole when both dimensions are even. */
  predicate EvenDims(w: nat, h: nat)
  {
    w % 2 == 0 && h % 2 == 0
  }

  /** Number of luma bytes: one per pixel. */
  function LumaLength(w: nat, h: nat): nat
  {
    w * h
  }

  /** Number of bytes in each chroma plane: (w/2) x (h/2). */
  function ChromaLength(w: nat, h: nat): nat
    requires EvenDims(w, h)
  {
    (w / 2) * (h / 2)
  }

  /** Offset of the Cb plane (the end of Y). */
  function CbOffset(w: nat, h: nat): nat
  {
    LumaLength(w, h)
  }

  /** Offset of the Cr plane (the end of Cb). */
  function CrOffset(w: nat, h: nat): nat
    requires EvenDims(w, h)
  {
    LumaLength(w, h) + ChromaLength(w, h)
  }

  /** Number of bytes of one I420 frame: the end of Cr. */
  function FrameLength(w: nat, h: nat): nat
    requires EvenDims(w, h)
  {
    LumaLength(w, h) + 2 * ChromaLength(w, h)
  }

  /** Each chroma plane is a quarter of the luma plane, and a frame is 1.5 bytes per pixel. */
  lemma ChromaIsQuarter(w: nat, h: nat)
    requires EvenDims(w, h)
    ensures 4 * ChromaLength(w, h) == LumaLength(w, h)
    ensures 2 * FrameLength(w, h) == 3 * (w * h)
  {
  }

  /** The three planes of one frame. */
  datatype Planes = Planes(y: seq<Byte>, cb: seq<Byte>, cr: seq<Byte>)

  /** The planes have the sizes a w x h I420 frame gives them. */
  predicate Sized(p: Planes, w: nat, h: nat)
    requires EvenDims(w, h)
  {
    |p.y| == LumaLength(w, h) && |p.cb| == ChromaLength(w, h) && |p.cr| == ChromaLength(w, h)
  }

  /** The planes laid out one after the other, Y then Cb then Cr. */
  function Join(p: Planes): seq<Byte>
  {
    p.y + p.cb + p.cr
  }

  /**
   * Cuts the three planes out of a frame buffer as renderer.js does with `subarray`:
   * Y = [0, w*h), Cb = the next (w/2)*(h/2) bytes, Cr = the (w/2)*(h/2) bytes after those.
   * Bytes past the end of the frame are ignored.
   */
  function Slice(data: seq<Byte>, w: nat, h: nat): (p: Planes)
    requires EvenDims(w, h) && FrameLength(w, h) <= |data|
    ensures Sized(p, w, h)
    ensures 4 * |p.cb| == |p.y| && |p.cr| == |p.cb|
    ensures 2 * (|p.y| + |p.cb| + |p.cr|) == 3 * (w * h)
    ensures Join(p) == data[..FrameLength(w, h)]
  {
    ChromaIsQuarter(w, h);
    var cb, cr, end := CbOffset(w, h), CrOffset(w, h), FrameLength(w, h);
    var p := Planes(data[..cb], data[cb..cr], data[cr..end]);
    assert Join(p) == data[..end] by {
      assert data[..end] == data[..cb] + data[cb..cr] + data[cr..end];
    }
    p
  }

  /** Slicing a buffer that is exactly the planes laid out in order gives back those planes. */
  lemma SliceJoin(p: Planes, w: nat, h: nat)
    requires EvenDims(w, h) && Sized(p, w, h)
    ensures |Join(p)| == FrameLength(w, h)
    ensures Slice(Join(p), w, h) == p
  {
  }

  /**
   * Every byte of the frame lands in exactly one plane, at its offset within that plane:
   * the planes are contiguous, do not overlap and come in the order Y, Cb, Cr.
   */
  lemma ByteInOnePlane(data: seq<Byte>, w: nat, h: nat, i: nat)
    requires EvenDims(w, h) && FrameLength(w, h) <= |data| && i < FrameLength(w, h)
    ensures var p := Slice(data, w, h);
      (i < CbOffset(w, h) ==> data[i] == p.y[i]) &&
      (CbOffset(w, h) <= i < CrOffset(w, h) ==> data[i] == p.cb[i - CbOffset(w, h)]) &&
      (CrOffset(w, h) <= i ==> data[i] == p.cr[i - CrOffset(w, h)])
  {
  }

  /** A 640 x 480 frame takes 460800 bytes, of which 307200 are luma. */
  lemma VgaFrameLength()
    ensures LumaLength(640, 480) == 307200
    ensures ChromaLength(640, 480) == 76800
    ensures FrameLength(640, 480) == 460800
  {
  }
}
