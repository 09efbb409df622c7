/** Frames, the clip of a placed surface, and the blit that draws one surface's visible part. */
module Blit {
  import opened Basics
  import opened Geometry
  import opened Raster

  /** The `bpp` bytes of the pixel at column `x`, row `y`. */
  ghost function PixelAt(bytes: seq<byte>, stride: nat, bpp: nat, x: nat, y: nat): seq<byte>
    requires y * stride + x * bpp + bpp <= |bytes|
  {
    bytes[y * stride + x * bpp..y * stride + x * bpp + bpp]
  }

  /** Rows of `width` pixels with nothing between them. */
  ghost predicate Tight(bytes: seq<byte>, size: Size, bpp: nat) {
    |bytes| == size.width * bpp * size.height
  }

  lemma PixelInside(width: nat, height: nat, stride: nat, bpp: nat, x: nat, y: nat)
    requires x < width && y < height && width * bpp <= stride
    ensures x * bpp + bpp <= width * bpp
    ensures y * stride + x * bpp + bpp <= (height - 1) * stride + width * bpp
  {
    MulMonotone(x + 1, width, bpp);
    MulMonotone(y, height - 1, stride);
  }

  lemma TightPixelInside(size: Size, bpp: nat, x: nat, y: nat)
    requires x < size.width && y < size.height
    ensures y * (size.width * bpp) + x * bpp + bpp <= size.width * bpp * size.height
    ensures x * bpp + bpp <= size.width * bpp
  {
    PixelInside(size.width, size.height, size.width * bpp, bpp, x, y);
  }

  lemma PixelColumn(bpp: nat, L: nat, W: nat, x: nat)
    requires bpp > 0
    ensures L <= x < L + W ==> L * bpp <= x * bpp && x * bpp + bpp <= L * bpp + W * bpp
    ensures x < L ==> x * bpp + bpp <= L * bpp
    ensures L + W <= x ==> L * bpp + W * bpp <= x * bpp
  {
    if x < L {
      MulMonotone(x + 1, L, bpp);
    } else if x < L + W {
      MulMonotone(L, x, bpp);
      MulMonotone(x + 1, L + W, bpp);
    } else {
      MulMonotone(L + W, x, bpp);
    }
  }

  lemma PastedOne(before: seq<byte>, after: seq<byte>, stride: nat, top: nat, left: nat, rows: nat,
                  width: nat, source: seq<byte>, sStride: nat, sTop: nat, sLeft: nat, y: nat, k: nat)
    requires Pasted(before, after, stride, top, left, rows, width, source, sStride, sTop, sLeft)
    requires k < stride && y * stride + k < |before|
    ensures if top <= y < top + rows && left <= k < left + width
            then (y - top + sTop) * sStride + (k - left + sLeft) < |source|
                 && after[y * stride + k] == source[(y - top + sTop) * sStride + (k - left + sLeft)]
            else after[y * stride + k] == before[y * stride + k]
  {
    assert PastedByte(before, after, stride, top, left, rows, width, source, sStride, sTop, sLeft, y, k);
  }

  /** The bytes of one pixel inside a paste whose columns are given in bytes. */
  lemma PastedBytesInside(before: seq<byte>, after: seq<byte>, stride: nat, top: nat, left: nat, rows: nat,
                          width: nat, source: seq<byte>, sStride: nat, sTop: nat, sLeft: nat,
                          y: nat, xb: nat, bpp: nat, at: nat, from: nat)
    requires Pasted(before, after, stride, top, left, rows, width, source, sStride, sTop, sLeft)
    requires bpp > 0 && xb + bpp <= stride && at == y * stride + xb && at + bpp <= |before|
    requires top <= y < top + rows && left <= xb && xb + bpp <= left + width
    requires from == (y - top + sTop) * sStride + (xb - left + sLeft)
    ensures from + bpp <= |source| && after[at..at + bpp] == source[from..from + bpp]
  {
    PastedOne(before, after, stride, top, left, rows, width, source, sStride, sTop, sLeft, y, xb + (bpp - 1));
    var found, wanted := after[at..at + bpp], source[from..from + bpp];
    forall j | 0 <= j < bpp ensures found[j] == wanted[j] {
      PastedOne(before, after, stride, top, left, rows, width, source, sStride, sTop, sLeft, y, xb + j);
    }
  }

  /** The bytes of one pixel outside it. */
  lemma PastedBytesOutside(before: seq<byte>, after: seq<byte>, stride: nat, top: nat, left: nat, rows: nat,
                           width: nat, source: seq<byte>, sStride: nat, sTop: nat, sLeft: nat,
                           y: nat, xb: nat, bpp: nat, at: nat)
    requires Pasted(before, after, stride, top, left, rows, width, source, sStride, sTop, sLeft)
    requires bpp > 0 && xb + bpp <= stride && at == y * stride + xb && at + bpp <= |before|
    requires !(top <= y < top + rows) || xb + bpp <= left || left + width <= xb
    ensures after[at..at + bpp] == before[at..at + bpp]
  {
    var found, wanted := after[at..at + bpp], before[at..at + bpp];
    forall j | 0 <= j < bpp ensures found[j] == wanted[j] {
      PastedOne(before, after, stride, top, left, rows, width, source, sStride, sTop, sLeft, y, xb + j);
    }
  }

  /** A rectangle pasted at whole pixels moves whole pixels. */
  lemma PastedPixel(before: seq<byte>, after: seq<byte>, stride: nat, bpp: nat, top: nat, L: nat, rows: nat,
                    W: nat, source: seq<byte>, sStride: nat, sTop: nat, SL: nat, x: nat, y: nat)
    requires Pasted(before, after, stride, top, L * bpp, rows, W * bpp, source, sStride, sTop, SL * bpp)
    requires bpp > 0 && x * bpp + bpp <= stride && y * stride + x * bpp + bpp <= |before|
    ensures if top <= y < top + rows && L <= x < L + W
            then (y - top + sTop) * sStride + (x - L + SL) * bpp + bpp <= |source|
                 && PixelAt(after, stride, bpp, x, y)
                    == PixelAt(source, sStride, bpp, x - L + SL, y - top + sTop)
            else PixelAt(after, stride, bpp, x, y) == PixelAt(before, stride, bpp, x, y)
  {
    if top <= y < top + rows && L <= x < L + W {
      PastedPixelInside(before, after, stride, bpp, top, L, rows, W, source, sStride, sTop, SL, x, y);
    } else {
      PixelColumn(bpp, L, W, x);
      PastedBytesOutside(before, after, stride, top, L * bpp, rows, W * bpp, source, sStride, sTop, SL * bpp,
                         y, x * bpp, bpp, y * stride + x * bpp);
    }
  }

  lemma ShiftedColumn(bpp: nat, L: nat, SL: nat, x: nat)
    requires L <= x
    ensures x * bpp - L * bpp + SL * bpp == (x - L + SL) * bpp
  {
  }

  lemma PastedPixelInside(before: seq<byte>, after: seq<byte>, stride: nat, bpp: nat, top: nat, L: nat, rows: nat,
                          W: nat, source: seq<byte>, sStride: nat, sTop: nat, SL: nat, x: nat, y: nat)
    requires Pasted(before, after, stride, top, L * bpp, rows, W * bpp, source, sStride, sTop, SL * bpp)
    requires bpp > 0 && x * bpp + bpp <= stride && y * stride + x * bpp + bpp <= |before|
    requires top <= y < top + rows && L <= x < L + W
    ensures (y - top + sTop) * sStride + (x - L + SL) * bpp + bpp <= |source|
            && PixelAt(after, stride, bpp, x, y) == PixelAt(source, sStride, bpp, x - L + SL, y - top + sTop)
  {
    var xb, left, width, sLeft := x * bpp, L * bpp, W * bpp, SL * bpp;
    PixelColumn(bpp, L, W, x);
    ShiftedColumn(bpp, L, SL, x);
    PastedBytesInside(before, after, stride, top, left, rows, width, source, sStride, sTop, sLeft,
                      y, xb, bpp, y * stride + xb, (y - top + sTop) * sStride + (xb - left + sLeft));
  }

  /** A frame: `stride` is the byte length of a row, rows follow one another with no gap. */
  class Frame {
    const size: Size
    const stride: u32
    const bpp: u8
    const bytes: array<byte>

    ghost predicate Valid()
      reads this
    {
      && size.width > 0 && size.height > 0 && bpp > 0
      && stride == size.width * bpp
      && bytes.Length == stride * size.height
      && bytes.Length <= I64_MAX
    }

    constructor (size: Size, bpp: u8)
      requires FrameGeometry(size, bpp)
      ensures Valid() && fresh(bytes) && this.size == size && this.bpp == bpp
      ensures forall i | 0 <= i < bytes.Length :: bytes[i] == 0
    {
      this.size := size;
      this.bpp := bpp;
      stride := size.width * bpp;
      bytes := new byte[size.width * bpp * size.height](_ => 0);
    }

    /** `Frame::clear`. */
    method Clear()
      requires Valid()
      modifies bytes
      ensures forall i | 0 <= i < bytes.Length :: bytes[i] == 0
    {
      var i := 0;
      while i < bytes.Length
        invariant 0 <= i <= bytes.Length
        invariant forall j | 0 <= j < i :: bytes[j] == 0
      {
        bytes[i] := 0;
        i := i + 1;
      }
    }

    /** The pixel at column `x`, row `y`. */
    ghost function Pixel(x: nat, y: nat): seq<byte>
      requires Valid() && x < size.width && y < size.height
      reads this, bytes
    {
      ImagePixel(size, bytes[..], bpp, x, y)
    }
  }

  /** The checks of `Frame::new`: area, row length in `u32`, total length in `isize`. */
  predicate FrameGeometry(size: Size, bpp: u8) {
    && size.width > 0 && size.height > 0 && bpp > 0
    && size.width * bpp <= U32_MAX
    && size.width * bpp * size.height <= I64_MAX
  }

  /** The visible part of one axis in the surface's own coordinates, as `blit_surface` clips it. */
  function Span(origin: int, extent: u32, limit: u32): Option<(int, int)> {
    if -origin > I64_MAX || limit - origin > I64_MAX then None
    else Some((Clamp(-origin, 0, extent), Clamp(limit - origin, 0, extent)))
  }

  /** Whether a surface of this size at this origin has a pixel at column `px`, row `py`. */
  predicate Covers(size: Size, originX: int, originY: int, px: int, py: int) {
    0 <= px - originX < size.width && 0 <= py - originY < size.height
  }

  /** `blit_surface`: draw the visible part of a kept image. It never fails for an image whose
      bytes match its size, and afterwards each pixel of the frame is the image's wherever the
      surface covers it and unchanged everywhere else. */
  method BlitSurface(size: Size, image: seq<byte>, originX: int, originY: int, frame: Frame)
    returns (ok: bool)
    requires frame.Valid() && |image| <= I64_MAX
    requires Tight(image, size, frame.bpp)
    requires -0x1_0000_0000 <= originX <= 0x1_0000_0000
    requires -0x1_0000_0000 <= originY <= 0x1_0000_0000
    modifies frame.bytes
    ensures ok
    ensures forall x: nat, y: nat | x < frame.size.width && y < frame.size.height ::
              frame.Pixel(x, y) == if Covers(size, originX, originY, x, y)
                                   then ImagePixel(size, image, frame.bpp, x - originX, y - originY)
                                   else old(frame.Pixel(x, y))
  {
    var bpp := frame.bpp;
    var xs := Span(originX, size.width, frame.size.width);
    var ys := Span(originY, size.height, frame.size.height);
    if xs.None? || ys.None? {
      return false;
    }
    var (xFirst, xLast) := xs.value;
    var (yFirst, yLast) := ys.value;
    if xFirst >= xLast || yFirst >= yLast {
      return true;
    }
    ghost var before := frame.bytes[..];
    BlitRows(size, image, originX, originY, frame, xFirst, xLast, yFirst, yLast);
    BlitPixels(size, image, originX, originY, frame.size, bpp, before, frame.bytes[..], xFirst, xLast, yFirst, yLast);
    return true;
  }

  /** The row loop of `blit_surface`, over the visible part it clipped once. */
  method BlitRows(size: Size, image: seq<byte>, originX: int, originY: int, frame: Frame,
                  xFirst: int, xLast: int, yFirst: int, yLast: int)
    requires frame.Valid() && |image| <= I64_MAX && Tight(image, size, frame.bpp)
    requires 0 <= xFirst < xLast <= size.width && 0 <= yFirst < yLast <= size.height
    requires 0 <= originX + xFirst && originX + xLast <= frame.size.width
    requires 0 <= originY + yFirst && originY + yLast <= frame.size.height
    modifies frame.bytes
    ensures Pasted(old(frame.bytes[..]), frame.bytes[..], frame.stride, originY + yFirst,
                   (originX + xFirst) * frame.bpp, yLast - yFirst, (xLast - xFirst) * frame.bpp,
                   image, size.width * frame.bpp, yFirst, xFirst * frame.bpp)
  {
    var bpp := frame.bpp;
    var sourceStride: nat := size.width * bpp;
    var rowBytes: nat := (xLast - xFirst) * bpp;
    var sourceX: nat := xFirst * bpp;
    var destinationX: nat := (originX + xFirst) * bpp;
    var row := yFirst;
    while row < yLast
      invariant yFirst <= row <= yLast
      invariant Pasted(old(frame.bytes[..]), frame.bytes[..], frame.stride, originY + yFirst, destinationX,
                       row - yFirst, rowBytes, image, sourceStride, yFirst, sourceX)
    {
      RowsInside(size, bpp, xFirst, xLast, row);
      RowsInside(frame.size, bpp, originX + xFirst, originX + xLast, originY + row);
      var sourceStart := CheckedStart(row, sourceStride, xFirst, bpp);
      var destinationStart := CheckedStart(originY + row, frame.stride, originX + xFirst, bpp);
      ghost var middle := frame.bytes[..];
      var copied := CopyRange(image, sourceStart.value, frame.bytes, destinationStart.value, rowBytes);
      PasteRow(old(frame.bytes[..]), middle, frame.stride, originY + yFirst, destinationX, row - yFirst,
               rowBytes, image, sourceStride, yFirst, sourceX, destinationStart.value, sourceStart.value);
      row := row + 1;
    }
  }

  /** The clip of `blit_surface` is the coverage of the surface, pixel for pixel. */
  lemma BlitPixels(size: Size, image: seq<byte>, originX: int, originY: int, target: Size, bpp: u8,
                   before: seq<byte>, after: seq<byte>, xFirst: int, xLast: int, yFirst: int, yLast: int)
    requires FrameGeometry(target, bpp) && Tight(image, size, bpp)
    requires Tight(before, target, bpp) && Tight(after, target, bpp)
    requires xFirst == Clamp(-originX, 0, size.width) && xLast == Clamp(target.width - originX, 0, size.width)
    requires yFirst == Clamp(-originY, 0, size.height) && yLast == Clamp(target.height - originY, 0, size.height)
    requires xFirst < xLast && yFirst < yLast
    requires Pasted(before, after, target.width * bpp, originY + yFirst, (originX + xFirst) * bpp,
                    yLast - yFirst, (xLast - xFirst) * bpp, image, size.width * bpp, yFirst, xFirst * bpp)
    ensures forall x: nat, y: nat | x < target.width && y < target.height ::
              ImagePixel(target, after, bpp, x, y) == if Covers(size, originX, originY, x, y)
                                   then ImagePixel(size, image, bpp, x - originX, y - originY)
                                   else ImagePixel(target, before, bpp, x, y)
  {
    forall x: nat, y: nat | x < target.width && y < target.height
      ensures ImagePixel(target, after, bpp, x, y) == if Covers(size, originX, originY, x, y)
                                   then ImagePixel(size, image, bpp, x - originX, y - originY)
                                   else ImagePixel(target, before, bpp, x, y)
    {
      TightPixelInside(target, bpp, x, y);
      PastedPixel(before, after, target.width * bpp, bpp, originY + yFirst, originX + xFirst, yLast - yFirst,
                  xLast - xFirst, image, size.width * bpp, yFirst, xFirst, x, y);
    }
  }

  /** The pixel of a tight image. */
  ghost function ImagePixel(size: Size, bytes: seq<byte>, bpp: nat, x: nat, y: nat): seq<byte>
    requires Tight(bytes, size, bpp) && x < size.width && y < size.height
  {
    TightPixelInside(size, bpp, x, y);
    PixelAt(bytes, size.width * bpp, bpp, x, y)
  }

  lemma RowsInside(size: Size, bpp: nat, first: int, last: int, row: int)
    requires 0 <= first < last <= size.width && 0 <= row < size.height
    ensures row * (size.width * bpp) + first * bpp + (last - first) * bpp <= size.width * bpp * size.height
    ensures first * bpp + (last - first) * bpp <= size.width * bpp
  {
    TightPixelInside(size, bpp, last - 1, row);
    assert first * bpp + (last - first) * bpp == last * bpp == (last - 1) * bpp + bpp;
  }
}
