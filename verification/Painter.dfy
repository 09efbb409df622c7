/** What a frame should show, pixel by pixel, and what a report of damage must contain.
    This is the reference the incremental output is compared with: a stack of placed images, the
    topmost one winning at every pixel. */
module Painter {
  import opened Basics
  import opened Geometry
  import opened Model
  import opened Blit

  datatype Image = Image(size: Size, bytes: seq<byte>)

  /** A surface as drawn: where its image's top left pixel is, and the image. */
  datatype Layer = Layer(surface: SurfaceKey, originX: int, originY: int, image: Image)

  predicate LayerCovers(l: Layer, px: int, py: int) {
    Covers(l.image.size, l.originX, l.originY, px, py)
  }

  ghost predicate Drawable(layers: seq<Layer>, bpp: nat) {
    forall i | 0 <= i < |layers| :: Tight(layers[i].image.bytes, layers[i].image.size, bpp)
  }

  ghost predicate DistinctSurfaces(layers: seq<Layer>) {
    forall i, j | 0 <= i < j < |layers| :: layers[i].surface != layers[j].surface
  }

  /** The index of the topmost layer covering a pixel, or -1. */
  function Topmost(layers: seq<Layer>, px: int, py: int): (t: int)
    ensures -1 <= t < |layers|
    ensures t >= 0 ==> LayerCovers(layers[t], px, py)
    ensures forall i | t < i < |layers| :: !LayerCovers(layers[i], px, py)
  {
    if layers == [] then -1
    else if LayerCovers(layers[|layers| - 1], px, py) then |layers| - 1
    else Topmost(layers[..|layers| - 1], px, py)
  }

  /** The pixel a layer shows at a place it covers. */
  ghost function LayerPixel(l: Layer, bpp: nat, px: int, py: int): seq<byte>
    requires LayerCovers(l, px, py) && Tight(l.image.bytes, l.image.size, bpp)
  {
    ImagePixel(l.image.size, l.image.bytes, bpp, px - l.originX, py - l.originY)
  }

  /** The reference painter. */
  ghost function Paint(layers: seq<Layer>, bpp: nat, px: int, py: int): seq<byte>
    requires Drawable(layers, bpp)
  {
    var t := Topmost(layers, px, py);
    if t < 0 then seq(bpp, _ => 0) else LayerPixel(layers[t], bpp, px, py)
  }

  /** `SoftwareOutput::clipped`: the part of a surface that lands on the output. */
  function Clipped(out: Size, originX: int, originY: int, size: Size): Option<Rect> {
    var left := Max(originX, 0);
    var top := Max(originY, 0);
    var right := Min(Min(originX + size.width, I64_MAX), out.width);
    var bottom := Min(Min(originY + size.height, I64_MAX), out.height);
    if left >= right || top >= bottom then None
    else if left > I32_MAX || top > I32_MAX then None
    else Some(Rect(left, top, right - left, bottom - top))
  }

  function ClipOf(out: Size, l: Layer): Option<Rect> {
    Clipped(out, l.originX, l.originY, l.image.size)
  }

  /** Outputs whose every coordinate is an `i32`; `clipped` gives up on coordinates beyond. */
  predicate Addressable(out: Size) {
    out.width <= I32_MAX && out.height <= I32_MAX
  }

  /** The two clip formulas coincide: the rectangle `clipped` reports holds exactly the output's
      pixels that the surface covers. */
  lemma ClippedIsCoverage(out: Size, originX: int, originY: int, size: Size, px: int, py: int)
    requires Addressable(out) && 0 <= px < out.width && 0 <= py < out.height
    ensures Covers(size, originX, originY, px, py)
            <==> Clipped(out, originX, originY, size).Some?
                 && InRect(Clipped(out, originX, originY, size).value, px, py)
  {
  }

  /** A surface covering its whole axis of the output. */
  predicate Spans(origin: int, extent: u32, limit: u32) {
    origin <= 0 && limit <= origin + extent
  }

  /** Two visible placements of one size have the same clipped rectangle exactly when, on each
      axis, they are at the same origin or both span the output. */
  lemma ClipDeterminesOrigin(out: Size, size: Size, aX: int, aY: int, bX: int, bY: int)
    requires Addressable(out)
    requires Clipped(out, aX, aY, size).Some? && Clipped(out, bX, bY, size).Some?
    ensures Clipped(out, aX, aY, size) == Clipped(out, bX, bY, size)
            <==> (aX == bX || (Spans(aX, size.width, out.width) && Spans(bX, size.width, out.width)))
                 && (aY == bY || (Spans(aY, size.height, out.height) && Spans(bY, size.height, out.height)))
  {
  }

  datatype Placement = Placement(rect: Rect, depth: nat)

  /** The placements `note_damage` records for a stack. */
  ghost predicate Places(placed: map<SurfaceKey, Placement>, layers: seq<Layer>, out: Size) {
    && (forall i | 0 <= i < |layers| ::
          if ClipOf(out, layers[i]).Some?
          then layers[i].surface in placed
               && placed[layers[i].surface] == Placement(ClipOf(out, layers[i]).value, i)
          else layers[i].surface !in placed)
    && (forall k | k in placed :: exists i :: 0 <= i < |layers| && layers[i].surface == k)
  }

  /** Whether one surface's entry in the old and new placements contributes a rectangle holding
      this pixel. */
  predicate Contributes(placed: map<SurfaceKey, Placement>, now: map<SurfaceKey, Placement>,
                        redrawn: set<SurfaceKey>, k: SurfaceKey, px: int, py: int)
  {
    if k in now then
      if k in placed then
        (placed[k] != now[k] || k in redrawn)
        && (InRect(placed[k].rect, px, py) || InRect(now[k].rect, px, py))
      else
        InRect(now[k].rect, px, py)
    else
      k in placed && InRect(placed[k].rect, px, py)
  }

  ghost predicate Reported(placed: map<SurfaceKey, Placement>, now: map<SurfaceKey, Placement>,
                           redrawn: set<SurfaceKey>, px: int, py: int)
  {
    exists k :: Contributes(placed, now, redrawn, k, px, py)
  }

  /** A layer with the rectangle and the size it had before, but drawn from another origin: only
      possible for a surface that spans the output. */
  predicate MovedUnseen(out: Size, before: Layer, after: Layer) {
    && before.surface == after.surface
    && before.image.size == after.image.size
    && ClipOf(out, before).Some? && ClipOf(out, before) == ClipOf(out, after)
    && (before.originX != after.originX || before.originY != after.originY)
  }

  /** Surfaces not read again show the image they showed before. */
  ghost predicate KeptAlike(before: seq<Layer>, after: seq<Layer>, redrawn: set<SurfaceKey>) {
    forall i, j | 0 <= i < |before| && 0 <= j < |after| && before[i].surface == after[j].surface
                  && after[j].surface !in redrawn :: before[i].image == after[j].image
  }

  /** At a pixel nothing reported, both stacks have the same surfaces at the same depths, with
      the same rectangles, and none of them redrawn. */
  lemma UnreportedPixel(out: Size, before: seq<Layer>, after: seq<Layer>, placed: map<SurfaceKey, Placement>,
                        now: map<SurfaceKey, Placement>, redrawn: set<SurfaceKey>, px: int, py: int)
    requires Addressable(out) && 0 <= px < out.width && 0 <= py < out.height
    requires Places(placed, before, out) && Places(now, after, out)
    requires !Reported(placed, now, redrawn, px, py)
    ensures Topmost(before, px, py) == Topmost(after, px, py)
    ensures var t := Topmost(after, px, py);
            t >= 0 ==> && before[t].surface == after[t].surface && after[t].surface !in redrawn
                       && ClipOf(out, before[t]).Some? && ClipOf(out, before[t]) == ClipOf(out, after[t])
  {
    forall i | 0 <= i < |after| && LayerCovers(after[i], px, py)
      ensures SameAt(out, before, after, redrawn, i) && LayerCovers(before[i], px, py)
    {
      ClippedIsCoverage(out, after[i].originX, after[i].originY, after[i].image.size, px, py);
      var k := after[i].surface;
      assert !Contributes(placed, now, redrawn, k, px, py);
      var j :| 0 <= j < |before| && before[j].surface == k;
      assert placed[k] == now[k];
      ClippedIsCoverage(out, before[j].originX, before[j].originY, before[j].image.size, px, py);
    }
    forall i | 0 <= i < |before| && LayerCovers(before[i], px, py)
      ensures i < |after| && LayerCovers(after[i], px, py)
    {
      ClippedIsCoverage(out, before[i].originX, before[i].originY, before[i].image.size, px, py);
      var k := before[i].surface;
      assert !Contributes(placed, now, redrawn, k, px, py);
      var j :| 0 <= j < |after| && after[j].surface == k;
      assert placed[k] == now[k];
      ClippedIsCoverage(out, after[j].originX, after[j].originY, after[j].image.size, px, py);
    }
  }

  predicate SameAt(out: Size, before: seq<Layer>, after: seq<Layer>, redrawn: set<SurfaceKey>, i: nat)
    requires i < |after|
  {
    && i < |before| && before[i].surface == after[i].surface && after[i].surface !in redrawn
    && ClipOf(out, before[i]).Some? && ClipOf(out, before[i]) == ClipOf(out, after[i])
  }

  /** A pixel where a layer that moved unseen is on top and nothing was reported. */
  ghost predicate Missed(out: Size, before: seq<Layer>, after: seq<Layer>, placed: map<SurfaceKey, Placement>,
                         now: map<SurfaceKey, Placement>, redrawn: set<SurfaceKey>, px: int, py: int)
  {
    && 0 <= px < out.width && 0 <= py < out.height
    && !Reported(placed, now, redrawn, px, py)
    && var t := Topmost(after, px, py);
       0 <= t < |before| && MovedUnseen(out, before[t], after[t])
  }

  /** No surface that kept its image moved unseen. */
  ghost predicate NoUnseenMoves(out: Size, before: seq<Layer>, after: seq<Layer>, redrawn: set<SurfaceKey>) {
    forall i | 0 <= i < |before| && i < |after| && after[i].surface !in redrawn :: !MovedUnseen(out, before[i], after[i])
  }

  ghost predicate NothingMissed(out: Size, before: seq<Layer>, after: seq<Layer>, placed: map<SurfaceKey, Placement>,
                                now: map<SurfaceKey, Placement>, redrawn: set<SurfaceKey>)
  {
    forall px, py :: !Missed(out, before, after, placed, now, redrawn, px, py)
  }

  /** A surface read again is always reported where it is, so only kept ones can be missed. */
  lemma KeptMovesSeen(out: Size, before: seq<Layer>, after: seq<Layer>, placed: map<SurfaceKey, Placement>,
                      now: map<SurfaceKey, Placement>, redrawn: set<SurfaceKey>)
    requires Addressable(out) && Places(placed, before, out) && Places(now, after, out)
    requires NoUnseenMoves(out, before, after, redrawn)
    ensures NothingMissed(out, before, after, placed, now, redrawn)
  {
    forall px, py ensures !Missed(out, before, after, placed, now, redrawn, px, py) {
      if Missed(out, before, after, placed, now, redrawn, px, py) {
        UnreportedPixel(out, before, after, placed, now, redrawn, px, py);
      }
    }
  }

  /** Damage soundness at one pixel: unreported and not missed means unchanged. */
  lemma ReportIsSound(out: Size, bpp: nat, before: seq<Layer>, after: seq<Layer>,
                      placed: map<SurfaceKey, Placement>, now: map<SurfaceKey, Placement>,
                      redrawn: set<SurfaceKey>, px: int, py: int)
    requires Addressable(out) && 0 <= px < out.width && 0 <= py < out.height
    requires Drawable(before, bpp) && Drawable(after, bpp)
    requires Places(placed, before, out) && Places(now, after, out)
    requires KeptAlike(before, after, redrawn)
    requires !Missed(out, before, after, placed, now, redrawn, px, py)
    ensures Paint(before, bpp, px, py) == Paint(after, bpp, px, py) || Reported(placed, now, redrawn, px, py)
  {
    if !Reported(placed, now, redrawn, px, py) {
      UnreportedPixel(out, before, after, placed, now, redrawn, px, py);
    }
  }

  /** The same surfaces at the same places, whatever their images show. */
  ghost predicate SameGeometry(layers: seq<Layer>, other: seq<Layer>, bpp: nat) {
    && |layers| == |other|
    && Drawable(other, bpp)
    && (forall i | 0 <= i < |layers| ::
          && layers[i].surface == other[i].surface
          && layers[i].originX == other[i].originX && layers[i].originY == other[i].originY
          && layers[i].image.size == other[i].image.size)
  }

  lemma SameTopmost(layers: seq<Layer>, other: seq<Layer>, bpp: nat, px: int, py: int)
    requires SameGeometry(layers, other, bpp)
    ensures Topmost(layers, px, py) == Topmost(other, px, py)
  {
    var t, u := Topmost(layers, px, py), Topmost(other, px, py);
    assert t >= 0 ==> LayerCovers(other[t], px, py);
    assert u >= 0 ==> LayerCovers(layers[u], px, py);
  }

  /** An image that is zero except for the byte at one offset. */
  ghost function Marked(size: Size, bpp: nat, at: nat): (image: Image)
    ensures image.size == size && Tight(image.bytes, size, bpp)
    ensures forall i | 0 <= i < |image.bytes| :: image.bytes[i] == if i == at then 1 else 0
  {
    var length: nat := size.width * bpp * size.height;
    Image(size, seq(length, i => if i == at then 1 else 0))
  }

  lemma PixelStart(bytes: seq<byte>, stride: nat, bpp: nat, x: nat, y: nat, at: nat)
    requires at == y * stride + x * bpp && at + bpp <= |bytes| && bpp > 0
    ensures PixelAt(bytes, stride, bpp, x, y)[0] == bytes[at]
  {
  }

  lemma FirstByte(size: Size, bytes: seq<byte>, bpp: nat, x: nat, y: nat, stride: nat, at: nat)
    requires bpp > 0 && Tight(bytes, size, bpp) && x < size.width && y < size.height
    requires stride == size.width * bpp && at == y * stride + x * bpp
    ensures at + bpp <= |bytes| && ImagePixel(size, bytes, bpp, x, y)[0] == bytes[at]
  {
    TightPixelInside(size, bpp, x, y);
    PixelStart(bytes, stride, bpp, x, y, at);
  }

  lemma DistinctPixelsApart(size: Size, bpp: nat, x: nat, y: nat, otherX: nat, otherY: nat)
    requires bpp > 0 && x < size.width && y < size.height && otherX < size.width && otherY < size.height
    requires x != otherX || y != otherY
    ensures y * (size.width * bpp) + x * bpp != otherY * (size.width * bpp) + otherX * bpp
  {
    TightPixelInside(size, bpp, x, y);
    TightPixelInside(size, bpp, otherX, otherY);
    Raster.RowPiece(size.width * bpp, otherY, otherX * bpp, y, x * bpp, x * bpp + 1);
    PixelColumn(bpp, x, 1, otherX);
  }

  lemma MarkedHere(size: Size, bpp: nat, x: nat, y: nat, at: nat)
    requires bpp > 0 && x < size.width && y < size.height && at == y * (size.width * bpp) + x * bpp
    ensures Starts(ImagePixel(size, Marked(size, bpp, at).bytes, bpp, x, y), 1)
  {
    FirstByte(size, Marked(size, bpp, at).bytes, bpp, x, y, size.width * bpp, at);
  }

  lemma MarkedElsewhere(size: Size, bpp: nat, x: nat, y: nat, at: nat)
    requires bpp > 0 && x < size.width && y < size.height && at != y * (size.width * bpp) + x * bpp
    ensures Starts(ImagePixel(size, Marked(size, bpp, at).bytes, bpp, x, y), 0)
  {
    var stride := size.width * bpp;
    FirstByte(size, Marked(size, bpp, at).bytes, bpp, x, y, stride, y * stride + x * bpp);
  }

  predicate Starts(pixel: seq<byte>, b: byte) {
    |pixel| > 0 && pixel[0] == b
  }

  lemma MarkedPixel(size: Size, bpp: nat, x: nat, y: nat, otherX: nat, otherY: nat, at: nat)
    requires bpp > 0 && x < size.width && y < size.height && otherX < size.width && otherY < size.height
    requires x != otherX || y != otherY
    requires at == y * (size.width * bpp) + x * bpp
    ensures ImagePixel(size, Marked(size, bpp, at).bytes, bpp, x, y)
            != ImagePixel(size, Marked(size, bpp, at).bytes, bpp, otherX, otherY)
  {
    DistinctPixelsApart(size, bpp, x, y, otherX, otherY);
    MarkedHere(size, bpp, x, y, at);
    MarkedElsewhere(size, bpp, otherX, otherY, at);
  }

  /** The stack with surface `k` showing `image` and every other surface blank. */
  ghost function Dressed(layers: seq<Layer>, bpp: nat, k: SurfaceKey, image: Image): seq<Layer> {
    seq(|layers|, i requires 0 <= i < |layers| =>
      var size := layers[i].image.size;
      var length: nat := size.width * bpp * size.height;
      layers[i].(image := if layers[i].surface == k && size == image.size then image
                          else Image(size, seq(length, _ => 0))))
  }

  /** One image drawn from two origins, marked at what the second shows here, shows something else
      here from the first. */
  lemma MarkedLayers(before: Layer, after: Layer, bpp: nat, px: int, py: int, at: nat)
    requires bpp > 0 && LayerCovers(before, px, py) && LayerCovers(after, px, py)
    requires before.originX != after.originX || before.originY != after.originY
    requires before.image == after.image == Marked(after.image.size, bpp, at)
    requires at == (py - after.originY) * (after.image.size.width * bpp) + (px - after.originX) * bpp
    ensures LayerPixel(before, bpp, px, py) != LayerPixel(after, bpp, px, py)
  {
    MarkedPixel(after.image.size, bpp, px - after.originX, py - after.originY,
                px - before.originX, py - before.originY, at);
  }

  /** Some image shows different pixels here from the two origins. */
  lemma TellingImage(before: Layer, after: Layer, bpp: nat, px: int, py: int) returns (image: Image)
    requires bpp > 0 && LayerCovers(before, px, py) && LayerCovers(after, px, py)
    requires before.originX != after.originX || before.originY != after.originY
    requires before.image.size == after.image.size
    ensures image.size == after.image.size && Tight(image.bytes, image.size, bpp)
    ensures LayerPixel(before.(image := image), bpp, px, py) != LayerPixel(after.(image := image), bpp, px, py)
  {
    var at := PixelOffset(after.image.size, bpp, px - after.originX, py - after.originY);
    image := Marked(after.image.size, bpp, at);
    var b, a := before.(image := image), after.(image := image);
    assert b.image == a.image == image && LayerCovers(b, px, py) && LayerCovers(a, px, py);
    MarkedLayers(b, a, bpp, px, py, at);
  }

  lemma PixelOffset(size: Size, bpp: nat, x: nat, y: nat) returns (at: nat)
    ensures at == y * (size.width * bpp) + x * bpp
  {
    at := y * (size.width * bpp) + x * bpp;
  }

  lemma DressedGeometry(layers: seq<Layer>, bpp: nat, k: SurfaceKey, image: Image)
    requires Tight(image.bytes, image.size, bpp)
    ensures SameGeometry(layers, Dressed(layers, bpp, k, image), bpp)
  {
  }

  lemma DressedAlike(before: seq<Layer>, after: seq<Layer>, redrawn: set<SurfaceKey>, bpp: nat, k: SurfaceKey,
                     image: Image)
    requires KeptAlike(before, after, redrawn)
    ensures KeptAlike(Dressed(before, bpp, k, image), Dressed(after, bpp, k, image), redrawn)
  {
    var b, a := Dressed(before, bpp, k, image), Dressed(after, bpp, k, image);
    forall i, j | 0 <= i < |b| && 0 <= j < |a| && b[i].surface == a[j].surface && a[j].surface !in redrawn
      ensures b[i].image == a[j].image
    {
      assert before[i].image == after[j].image;
    }
  }

  /** A missed pixel really can be wrong: some images make the two frames differ there. */
  lemma MissedPixelCanDiffer(out: Size, bpp: nat, before: seq<Layer>, after: seq<Layer>,
                             placed: map<SurfaceKey, Placement>, now: map<SurfaceKey, Placement>,
                             redrawn: set<SurfaceKey>, px: int, py: int)
    returns (b: seq<Layer>, a: seq<Layer>)
    requires Addressable(out) && bpp > 0
    requires Places(placed, before, out) && Places(now, after, out)
    requires KeptAlike(before, after, redrawn)
    requires Missed(out, before, after, placed, now, redrawn, px, py)
    ensures SameGeometry(before, b, bpp) && SameGeometry(after, a, bpp) && KeptAlike(b, a, redrawn)
    ensures Paint(b, bpp, px, py) != Paint(a, bpp, px, py)
  {
    var t := Topmost(after, px, py);
    UnreportedPixel(out, before, after, placed, now, redrawn, px, py);
    var k := after[t].surface;
    var image := TellingImage(before[t], after[t], bpp, px, py);
    b, a := Dressed(before, bpp, k, image), Dressed(after, bpp, k, image);
    DressedGeometry(before, bpp, k, image);
    DressedGeometry(after, bpp, k, image);
    DressedAlike(before, after, redrawn, bpp, k, image);
    SameTopmost(before, b, bpp, px, py);
    SameTopmost(after, a, bpp, px, py);
    assert b[t] == before[t].(image := image) && a[t] == after[t].(image := image);
  }

  /** The report is complete for every content the images could have exactly when no pixel is
      missed, that is when no surface that moved unseen is on top at a pixel nothing else
      reported. */
  lemma ReportIsCompleteIff(out: Size, bpp: nat, before: seq<Layer>, after: seq<Layer>,
                            placed: map<SurfaceKey, Placement>, now: map<SurfaceKey, Placement>,
                            redrawn: set<SurfaceKey>)
    requires Addressable(out) && bpp > 0
    requires Places(placed, before, out) && Places(now, after, out)
    requires KeptAlike(before, after, redrawn)
    ensures (forall b, a, px, py |
               && SameGeometry(before, b, bpp) && SameGeometry(after, a, bpp) && KeptAlike(b, a, redrawn)
               && 0 <= px < out.width && 0 <= py < out.height
               && Paint(b, bpp, px, py) != Paint(a, bpp, px, py) :: Reported(placed, now, redrawn, px, py))
            <==> (forall px, py :: !Missed(out, before, after, placed, now, redrawn, px, py))
  {
    if px, py :| Missed(out, before, after, placed, now, redrawn, px, py) {
      var b, a := MissedPixelCanDiffer(out, bpp, before, after, placed, now, redrawn, px, py);
    } else {
      forall b, a, px, py |
        && SameGeometry(before, b, bpp) && SameGeometry(after, a, bpp) && KeptAlike(b, a, redrawn)
        && 0 <= px < out.width && 0 <= py < out.height
        && Paint(b, bpp, px, py) != Paint(a, bpp, px, py)
        ensures Reported(placed, now, redrawn, px, py)
      {
        SameTopmost(before, b, bpp, px, py);
        SameTopmost(after, a, bpp, px, py);
        SamePlaces(out, bpp, before, b, placed);
        SamePlaces(out, bpp, after, a, now);
        if Missed(out, b, a, placed, now, redrawn, px, py) {
          assert Missed(out, before, after, placed, now, redrawn, px, py);
        }
        ReportIsSound(out, bpp, b, a, placed, now, redrawn, px, py);
      }
    }
  }

  lemma SamePlaces(out: Size, bpp: nat, layers: seq<Layer>, other: seq<Layer>, placed: map<SurfaceKey, Placement>)
    requires SameGeometry(layers, other, bpp) && Places(placed, layers, out)
    ensures Places(placed, other, out)
  {
    forall k | k in placed ensures exists i :: 0 <= i < |other| && other[i].surface == k {
      var i :| 0 <= i < |layers| && layers[i].surface == k;
      assert other[i].surface == k;
    }
    forall i | 0 <= i < |other|
      ensures if ClipOf(out, other[i]).Some?
              then other[i].surface in placed
                   && placed[other[i].surface] == Placement(ClipOf(out, other[i]).value, i)
              else other[i].surface !in placed
    {
      assert ClipOf(out, other[i]) == ClipOf(out, layers[i]);
    }
  }

  /** The failing family in one input: a 3x1 surface on a 2x1 output, moved one pixel left
      without a new commit. Nothing is reported and a pixel changes. */
  lemma UnreportedMove(k: SurfaceKey)
    ensures var out, image := Size(2, 1), Image(Size(3, 1), [1, 2, 3]);
            var before, after := [Layer(k, 0, 0, image)], [Layer(k, -1, 0, image)];
            var placed := map[k := Placement(Rect(0, 0, 2, 1), 0)];
            && Places(placed, before, out) && Places(placed, after, out)
            && KeptAlike(before, after, {})
            && Paint(before, 1, 0, 0) == [1] && Paint(after, 1, 0, 0) == [2]
            && !Reported(placed, placed, {}, 0, 0)
  {
    var out, image := Size(2, 1), Image(Size(3, 1), [1, 2, 3]);
    var before, after := [Layer(k, 0, 0, image)], [Layer(k, -1, 0, image)];
    var placed := map[k := Placement(Rect(0, 0, 2, 1), 0)];
    assert before[0].surface == k && after[0].surface == k;
    assert ClipOf(out, before[0]) == Some(Rect(0, 0, 2, 1)) == ClipOf(out, after[0]);
    assert Paint(before, 1, 0, 0) == [1] by {
      assert Topmost(before, 0, 0) == 0;
      assert ImagePixel(image.size, image.bytes, 1, 0, 0) == image.bytes[0..1];
    }
    assert Paint(after, 1, 0, 0) == [2] by {
      assert Topmost(after, 0, 0) == 0;
      assert ImagePixel(image.size, image.bytes, 1, 1, 0) == image.bytes[1..2];
    }
  }
}
