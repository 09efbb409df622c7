/** Rows of bytes inside a flat buffer, and the two routines that move rectangles of them:
    `copy_rect` (client buffer into kept image) and `blit_surface` (kept image into frame). */
module Raster {
  import opened Basics
  import opened Geometry

  /** Byte `k` of row `r` of a buffer whose rows are `stride` bytes apart. */
  ghost function ByteAt(bytes: seq<byte>, stride: nat, r: nat, k: nat): byte
    requires r * stride + k < |bytes|
  {
    bytes[r * stride + k]
  }

  /** What byte `k` of row `r` holds after a rectangle of `rows` by `width` bytes was pasted at
      row `top`, byte `left`, taken from row `sTop`, byte `sLeft` of `source`: inside the
      rectangle the source's byte, elsewhere what was there before. */
  ghost predicate PastedByte(before: seq<byte>, after: seq<byte>, stride: nat, top: nat, left: nat, rows: nat,
                             width: nat, source: seq<byte>, sStride: nat, sTop: nat, sLeft: nat, r: nat, k: nat)
    requires |after| == |before| && r * stride + k < |before|
  {
    if top <= r < top + rows && left <= k < left + width
    then (r - top + sTop) * sStride + (k - left + sLeft) < |source|
         && ByteAt(after, stride, r, k) == ByteAt(source, sStride, r - top + sTop, k - left + sLeft)
    else ByteAt(after, stride, r, k) == ByteAt(before, stride, r, k)
  }

  ghost predicate Pasted(before: seq<byte>, after: seq<byte>, stride: nat, top: nat, left: nat, rows: nat,
                         width: nat, source: seq<byte>, sStride: nat, sTop: nat, sLeft: nat)
  {
    && |after| == |before|
    && (forall r: nat, k: nat | k < stride && r * stride + k < |before| ::
          PastedByte(before, after, stride, top, left, rows, width, source, sStride, sTop, sLeft, r, k))
  }

  function Splice(before: seq<byte>, at: nat, piece: seq<byte>): (after: seq<byte>)
    requires at + |piece| <= |before|
    ensures |after| == |before|
    ensures forall i | 0 <= i < |before| ::
              after[i] == if at <= i < at + |piece| then piece[i - at] else before[i]
  {
    before[..at] + piece + before[at + |piece|..]
  }

  /** A byte of row `r` lies in the piece of row `R` between byte columns `a` and `b` exactly
      when it is in that row and between those columns: rows do not overlap. */
  lemma RowPiece(stride: nat, r: nat, k: nat, R: nat, a: nat, b: nat)
    requires k < stride && a <= b <= stride
    ensures R * stride + a <= r * stride + k < R * stride + b <==> r == R && a <= k < b
  {
    if r < R {
      MulMonotone(r + 1, R, stride);
    } else if r > R {
      MulMonotone(R + 1, r, stride);
    }
  }

  lemma PasteRowByte(before: seq<byte>, middle: seq<byte>, stride: nat, top: nat, left: nat, rows: nat,
                     width: nat, source: seq<byte>, sStride: nat, sTop: nat, sLeft: nat, at: nat, s: nat,
                     r: nat, k: nat)
    requires |middle| == |before| && k < stride && r * stride + k < |before|
    requires PastedByte(before, middle, stride, top, left, rows, width, source, sStride, sTop, sLeft, r, k)
    requires left + width <= stride
    requires at == (top + rows) * stride + left && at + width <= |middle|
    requires s == (sTop + rows) * sStride + sLeft && s + width <= |source|
    ensures PastedByte(before, Splice(middle, at, source[s..s + width]), stride, top, left, rows + 1, width,
                       source, sStride, sTop, sLeft, r, k)
  {
    RowPiece(stride, r, k, top + rows, left, left + width);
    var after := Splice(middle, at, source[s..s + width]);
    if r == top + rows && left <= k < left + width {
      SplicedByte(middle, at, source, s, width, at + (k - left));
      SplicedInside(before, after, stride, top, left, rows, width, source, sStride, sTop, sLeft, at, s, k);
    } else {
      SplicedByte(middle, at, source, s, width, r * stride + k);
      SplicedElsewhere(before, middle, after, stride, top, left, rows, width, source, sStride, sTop, sLeft, r, k);
    }
  }

  /** In the row that was added the source's byte is to be shown. */
  lemma SplicedInside(before: seq<byte>, after: seq<byte>, stride: nat, top: nat, left: nat, rows: nat, width: nat,
                      source: seq<byte>, sStride: nat, sTop: nat, sLeft: nat, at: nat, s: nat, k: nat)
    requires |after| == |before| && left <= k < left + width && (top + rows) * stride + k < |before|
    requires at == (top + rows) * stride + left && s == (sTop + rows) * sStride + sLeft && s + width <= |source|
    requires after[at + (k - left)] == source[s + (k - left)]
    ensures PastedByte(before, after, stride, top, left, rows + 1, width, source, sStride, sTop, sLeft, top + rows, k)
  {
    var r := top + rows;
    assert r - top + sTop == sTop + rows;
    assert (r - top + sTop) * sStride + (k - left + sLeft) == s + (k - left);
  }

  /** Outside the row that was added nothing else is to be shown. */
  lemma SplicedElsewhere(before: seq<byte>, middle: seq<byte>, after: seq<byte>, stride: nat, top: nat, left: nat, rows: nat,
                         width: nat, source: seq<byte>, sStride: nat, sTop: nat, sLeft: nat, r: nat, k: nat)
    requires |after| == |middle| == |before| && r * stride + k < |before| && after[r * stride + k] == middle[r * stride + k]
    requires PastedByte(before, middle, stride, top, left, rows, width, source, sStride, sTop, sLeft, r, k)
    requires !(r == top + rows && left <= k < left + width)
    ensures PastedByte(before, after, stride, top, left, rows + 1, width, source, sStride, sTop, sLeft, r, k)
  {
  }

  /** One byte after a piece of another sequence was spliced in. */
  lemma SplicedByte(middle: seq<byte>, at: nat, source: seq<byte>, s: nat, width: nat, i: nat)
    requires at + width <= |middle| && s + width <= |source| && i < |middle|
    ensures Splice(middle, at, source[s..s + width])[i] == if at <= i < at + width then source[s + (i - at)] else middle[i]
  {
  }

  /** Writing one more row extends a pasted rectangle by that row. */
  lemma PasteRow(before: seq<byte>, middle: seq<byte>, stride: nat, top: nat, left: nat, rows: nat,
                 width: nat, source: seq<byte>, sStride: nat, sTop: nat, sLeft: nat, at: nat, s: nat)
    requires Pasted(before, middle, stride, top, left, rows, width, source, sStride, sTop, sLeft)
    requires left + width <= stride
    requires at == (top + rows) * stride + left && at + width <= |middle|
    requires s == (sTop + rows) * sStride + sLeft && s + width <= |source|
    ensures Pasted(before, Splice(middle, at, source[s..s + width]), stride, top, left, rows + 1, width,
                   source, sStride, sTop, sLeft)
  {
    var after, taller := Splice(middle, at, source[s..s + width]), rows + 1;
    forall r: nat, k: nat | k < stride && r * stride + k < |before|
      ensures PastedByte(before, after, stride, top, left, taller, width, source, sStride, sTop, sLeft, r, k)
    {
      PasteRowByte(before, middle, stride, top, left, rows, width, source, sStride, sTop, sLeft, at, s, r, k);
    }
  }

  /** `copy_range`: both ranges are checked against `u64` and against the slices, and then one
      row of bytes moves. */
  method CopyRange(source: seq<byte>, sourceStart: nat, destination: array<byte>, destinationStart: nat,
                   length: nat) returns (ok: bool)
    requires |source| <= I64_MAX && destination.Length <= I64_MAX
    modifies destination
    ensures ok <==> sourceStart + length <= |source| && destinationStart + length <= destination.Length
    ensures ok ==> destination[..] == Splice(old(destination[..]), destinationStart,
                                             source[sourceStart..sourceStart + length])
    ensures !ok ==> destination[..] == old(destination[..])
  {
    var sourceEnd := CheckedAdd(sourceStart, length);
    var destinationEnd := CheckedAdd(destinationStart, length);
    if sourceEnd.None? || destinationEnd.None? {
      return false;
    }
    if sourceEnd.value > |source| || destinationEnd.value > destination.Length {
      return false;
    }
    ghost var before := destination[..];
    var i := 0;
    while i < length
      invariant 0 <= i <= length
      invariant forall j | 0 <= j < destination.Length ::
          destination[j] == if destinationStart <= j < destinationStart + i
                            then source[sourceStart + (j - destinationStart)] else before[j]
    {
      destination[destinationStart + i] := source[sourceStart + i];
      i := i + 1;
    }
    assert destination[..] == Splice(before, destinationStart, source[sourceStart..sourceStart + length]);
    return true;
  }

  /** Whether the last row of a rectangle ends inside a buffer of `length` bytes. */
  predicate LastRowFits(length: nat, stride: u32, bpp: u8, rect: Rect)
    requires rect.x >= 0 && rect.y >= 0 && rect.height > 0
  {
    (rect.y + rect.height - 1) * stride + rect.x * bpp + rect.width * bpp <= length
  }

  lemma EarlierRowFits(length: nat, stride: u32, bpp: u8, rect: Rect, row: nat)
    requires rect.x >= 0 && rect.y >= 0 && row < rect.height
    ensures LastRowFits(length, stride, bpp, rect)
            ==> (rect.y + row) * stride + rect.x * bpp + rect.width * bpp <= length
  {
    MulMonotone(rect.y + row, rect.y + rect.height - 1, stride);
  }

  /** `offset * stride + column * bpp`, every step checked against `u64`. */
  function CheckedStart(line: nat, stride: nat, column: nat, bpp: nat): (r: Option<nat>)
    ensures r.Some? ==> r.value == line * stride + column * bpp
    ensures line * stride + column * bpp <= U64_MAX ==> r.Some?
  {
    var offset := CheckedMul(line, stride);
    var x := CheckedMul(column, bpp);
    assert line * stride >= 0 && column * bpp >= 0;
    if offset.None? || x.None? then None else CheckedAdd(offset.value, x.value)
  }

  /** `copy_rect`: one rectangle of a buffer into the same rectangle of another. It succeeds
      exactly when both buffers reach the end of the rectangle's last row, and then changes the
      rectangle's bytes and nothing else. */
  method CopyRect(source: seq<byte>, sourceStride: u32, destination: array<byte>, destinationStride: u32,
                  bpp: u8, rect: Rect) returns (ok: bool)
    requires |source| <= I64_MAX && destination.Length <= I64_MAX
    modifies destination
    ensures rect.x < 0 || rect.y < 0 ==> !ok
    ensures rect.x >= 0 && rect.y >= 0 && rect.height > 0 ==>
              (ok <==> LastRowFits(|source|, sourceStride, bpp, rect)
                       && LastRowFits(destination.Length, destinationStride, bpp, rect))
    ensures rect.x >= 0 && rect.y >= 0 && rect.height == 0 ==> ok
    ensures ok && rect.x * bpp + rect.width * bpp <= destinationStride ==>
              Pasted(old(destination[..]), destination[..], destinationStride, rect.y, rect.x * bpp,
                     rect.height, rect.width * bpp, source, sourceStride, rect.y, rect.x * bpp)
  {
    if rect.x < 0 || rect.y < 0 {
      return false;
    }
    var x: nat, y: nat := rect.x, rect.y;
    var rowBytes: nat := rect.width * bpp;
    var left: nat := x * bpp;
    ghost var before := destination[..];
    ghost var exact := left + rowBytes <= destinationStride;
    var row := 0;
    while row < rect.height
      invariant 0 <= row <= rect.height
      invariant exact ==> Pasted(before, destination[..], destinationStride, y, left, row, rowBytes,
                                 source, sourceStride, y, left)
      invariant row > 0 ==> (y + row - 1) * sourceStride + left + rowBytes <= |source|
      invariant row > 0 ==> (y + row - 1) * destinationStride + left + rowBytes <= destination.Length
    {
      EarlierRowFits(|source|, sourceStride, bpp, rect, row);
      EarlierRowFits(destination.Length, destinationStride, bpp, rect, row);
      var sourceStart := CheckedStart(y + row, sourceStride, x, bpp);
      var destinationStart := CheckedStart(y + row, destinationStride, x, bpp);
      if sourceStart.None? || destinationStart.None? {
        return false;
      }
      ghost var middle := destination[..];
      var copied := CopyRange(source, sourceStart.value, destination, destinationStart.value, rowBytes);
      if !copied {
        return false;
      }
      if exact {
        PasteRow(before, middle, destinationStride, y, left, row, rowBytes, source, sourceStride, y, left,
                 destinationStart.value, sourceStart.value);
      }
      row := row + 1;
    }
    return true;
  }
}
