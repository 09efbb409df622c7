/** `SoftwareOutput`: client buffers are copied into kept images, the images are drawn into a
    frame, and the frame is published with rectangles covering what changed. */
module SoftwareOutput {
  import opened Basics
  import opened Geometry
  import opened Model
  import opened Raster
  import opened Blit
  import opened Painter

  datatype Transport = SoftwareShm | GpuPrime

  datatype BufferDescriptor = BufferDescriptor(transport: Transport, size: Size, stride: u32, byteLen: u64)

  datatype BufferKey = BufferKey(connection: ConnectionId, objectId: ObjectId)

  datatype SoftwareBuffer = SoftwareBuffer(descriptor: BufferDescriptor, bpp: u8, bytes: seq<byte>)

  datatype Damage = Full | Area(rect: Rect)

  datatype Snapshot = Snapshot(buffer: ObjectId, offset: Point, damage: seq<Damage>, commit: CommitId)

  /** What the compositor answers about one stacked surface. `ready` is `None` where
      `commit_ready` fails. */
  datatype SurfaceView = SurfaceView(snapshot: Option<Snapshot>, position: Option<Point>, ready: Option<bool>)

  datatype BufferView = BufferView(descriptor: BufferDescriptor, state: BufferState)

  /** The part of `CompositorState` a composition reads. */
  datatype StateView = StateView(stack: seq<SurfaceKey>, surfaces: map<SurfaceKey, SurfaceView>,
                                 buffers: map<BufferKey, BufferView>)

  type BufferStore = map<BufferKey, SoftwareBuffer>

  datatype SurfaceImage = SurfaceImage(commit: Option<CommitId>, image: Image)

  datatype ValidationError =
    | UnsupportedTransport
    | ZeroAreaSurface
    | StrideSmallerThanWidth
    | StrideTooSmallForPixelRow
    | BufferTooSmallForDeclaredGeometry
    | BackingStoreTooSmall
    | ArithmeticOverflow

  datatype ComposeError =
    | MissingSurfaceState(surface: SurfaceKey)
    | MissingSurfacePosition(surface: SurfaceKey)
    | StateChanged(surface: SurfaceKey)
    | CommitNotReady(surface: SurfaceKey)
    | MissingBufferDescriptor(buffer: BufferKey)
    | MissingBuffer(buffer: BufferKey)
    | BufferDescriptorMismatch(buffer: BufferKey)
    | PixelLayoutMismatch(buffer: BufferKey)
    | BufferNotHeld(buffer: BufferKey)
    | InvalidBuffer(buffer: BufferKey, reason: ValidationError)
    | DamageRectangleOutsideSurface(surface: SurfaceKey, area: Rect)

  /** `validate_for_layout`, in the order of its checks. */
  function ValidateForLayout(d: BufferDescriptor, bpp: u8, backing: nat): Option<ValidationError> {
    if d.transport != SoftwareShm then Some(UnsupportedTransport)
    else if d.size.width == 0 || d.size.height == 0 then Some(ZeroAreaSurface)
    else if d.stride < d.size.width then Some(StrideSmallerThanWidth)
    else
      var row := CheckedMul(d.size.width, bpp);
      if row.None? then Some(ArithmeticOverflow)
      else if d.stride < row.value then Some(StrideTooSmallForPixelRow)
      else
        var prefix := CheckedMul(d.size.height - 1, d.stride);
        if prefix.None? then Some(ArithmeticOverflow)
        else
          var required := CheckedAdd(prefix.value, row.value);
          if required.None? then Some(ArithmeticOverflow)
          else if d.byteLen < required.value then Some(BufferTooSmallForDeclaredGeometry)
          else if backing < d.byteLen then Some(BackingStoreTooSmall)
          else None
  }

  /** What a validated buffer guarantees: every pixel of its declared size lies in its bytes. */
  ghost predicate Readable(d: BufferDescriptor, bpp: nat, backing: nat) {
    && d.size.width > 0 && d.size.height > 0
    && d.size.width * bpp <= d.stride
    && (d.size.height - 1) * d.stride + d.size.width * bpp <= backing
  }

  lemma ValidatedIsReadable(d: BufferDescriptor, bpp: u8, backing: nat)
    requires ValidateForLayout(d, bpp, backing) == None
    ensures Readable(d, bpp, backing)
    ensures d.size.width * bpp * d.size.height <= backing
  {
    RowsWithin(d.size.width * bpp, d.stride, d.size.height, (d.size.height - 1) * d.stride);
  }

  lemma RowsWithin(row: nat, stride: nat, height: nat, prefix: nat)
    requires height > 0 && row <= stride && prefix == (height - 1) * stride
    ensures row * height <= prefix + row
  {
    MulMonotone(row, stride, height - 1);
    assert row * height == row * (height - 1) + row;
  }

  /** One damage rectangle lies inside the surface, as `validate_damage` checks it. */
  predicate DamageInside(size: Size, d: Damage) {
    d.Area? ==> && d.rect.x >= 0 && d.rect.y >= 0
                && d.rect.x + d.rect.width <= size.width
                && d.rect.y + d.rect.height <= size.height
  }

  /** The first rectangle `validate_damage` refuses. */
  function RefusedDamage(size: Size, damage: seq<Damage>): (r: Option<Rect>)
    ensures r.None? <==> forall i | 0 <= i < |damage| :: DamageInside(size, damage[i])
  {
    if damage == [] then None
    else if !DamageInside(size, damage[0]) then Some(damage[0].rect)
    else
      assert forall i | 0 < i < |damage| :: damage[i] == damage[1..][i - 1];
      RefusedDamage(size, damage[1..])
  }

  predicate DamageHits(d: Damage, x: int, y: int) {
    d.Full? || InRect(d.rect, x, y)
  }

  ghost predicate Damaged(damage: seq<Damage>, x: int, y: int) {
    exists i :: 0 <= i < |damage| && DamageHits(damage[i], x, y)
  }

  ghost function BufferPixel(buffer: SoftwareBuffer, x: nat, y: nat): seq<byte>
    requires Readable(buffer.descriptor, buffer.bpp, |buffer.bytes|)
    requires x < buffer.descriptor.size.width && y < buffer.descriptor.size.height
  {
    PixelInside(buffer.descriptor.size.width, buffer.descriptor.size.height, buffer.descriptor.stride,
                buffer.bpp, x, y);
    PixelAt(buffer.bytes, buffer.descriptor.stride, buffer.bpp, x, y)
  }

  /** A kept image after a commit was read: the buffer's pixel where the surface had no image of
      this size or the commit's damage reaches, the kept pixel everywhere else. */
  ghost predicate Refreshed(kept: Option<Image>, buffer: SoftwareBuffer, damage: seq<Damage>, after: Image)
    requires Readable(buffer.descriptor, buffer.bpp, |buffer.bytes|)
    requires kept.Some? ==> Tight(kept.value.bytes, kept.value.size, buffer.bpp)
  {
    && after.size == buffer.descriptor.size
    && Tight(after.bytes, after.size, buffer.bpp)
    && (forall x: nat, y: nat | x < after.size.width && y < after.size.height ::
          ImagePixel(after.size, after.bytes, buffer.bpp, x, y) ==
          if kept.None? || kept.value.size != after.size || Damaged(damage, x, y)
          then BufferPixel(buffer, x, y)
          else ImagePixel(kept.value.size, kept.value.bytes, buffer.bpp, x, y))
  }

  /** A kept image shows a buffer exactly. */
  ghost predicate ShowsPixels(image: Image, buffer: SoftwareBuffer) {
    && Readable(buffer.descriptor, buffer.bpp, |buffer.bytes|) && image.size == buffer.descriptor.size
    && Tight(image.bytes, image.size, buffer.bpp)
    && forall x: nat, y: nat | x < image.size.width && y < image.size.height ::
         ImagePixel(image.size, image.bytes, buffer.bpp, x, y) == BufferPixel(buffer, x, y)
  }

  /** The image after a commit was read shows its buffer exactly when the damage covers every pixel
      in which the kept image differed, or there was no image of this size. */
  lemma HonestDamageShowsBuffer(kept: Option<Image>, buffer: SoftwareBuffer, damage: seq<Damage>, after: Image)
    requires Readable(buffer.descriptor, buffer.bpp, |buffer.bytes|)
    requires kept.Some? ==> Tight(kept.value.bytes, kept.value.size, buffer.bpp)
    requires Refreshed(kept, buffer, damage, after)
    ensures ShowsPixels(after, buffer)
            <==> (kept.Some? && kept.value.size == buffer.descriptor.size ==>
                    forall x: nat, y: nat | x < after.size.width && y < after.size.height
                      && ImagePixel(kept.value.size, kept.value.bytes, buffer.bpp, x, y) != BufferPixel(buffer, x, y) ::
                      Damaged(damage, x, y))
  {
  }

  lemma RectFits(size: Size, stride: u32, bpp: u8, length: nat, rect: Rect)
    requires size.width * bpp <= stride && size.height > 0
    requires (size.height - 1) * stride + size.width * bpp <= length
    requires rect.x >= 0 && rect.y >= 0 && rect.height > 0
    requires rect.x + rect.width <= size.width && rect.y + rect.height <= size.height
    ensures LastRowFits(length, stride, bpp, rect)
    ensures rect.x * bpp + rect.width * bpp <= size.width * bpp
  {
    MulMonotone(rect.y + rect.height - 1, size.height - 1, stride);
    MulMonotone(rect.x + rect.width, size.width, bpp);
  }

  /** Copying one rectangle of the buffer changes exactly that rectangle's pixels. */
  lemma CopiedPixels(buffer: SoftwareBuffer, rect: Rect, before: seq<byte>, after: seq<byte>)
    requires buffer.bpp > 0 && Readable(buffer.descriptor, buffer.bpp, |buffer.bytes|)
    requires Tight(before, buffer.descriptor.size, buffer.bpp) && rect.x >= 0 && rect.y >= 0
    requires Pasted(before, after, buffer.descriptor.size.width * buffer.bpp, rect.y, rect.x * buffer.bpp,
                    rect.height, rect.width * buffer.bpp, buffer.bytes, buffer.descriptor.stride,
                    rect.y, rect.x * buffer.bpp)
    ensures Tight(after, buffer.descriptor.size, buffer.bpp)
    ensures forall x: nat, y: nat | x < buffer.descriptor.size.width && y < buffer.descriptor.size.height ::
              ImagePixel(buffer.descriptor.size, after, buffer.bpp, x, y) ==
              if InRect(rect, x, y) then BufferPixel(buffer, x, y)
              else ImagePixel(buffer.descriptor.size, before, buffer.bpp, x, y)
  {
    var size, bpp := buffer.descriptor.size, buffer.bpp;
    forall x: nat, y: nat | x < size.width && y < size.height
      ensures ImagePixel(size, after, bpp, x, y) ==
              if InRect(rect, x, y) then BufferPixel(buffer, x, y) else ImagePixel(size, before, bpp, x, y)
    {
      TightPixelInside(size, bpp, x, y);
      PastedPixel(before, after, size.width * bpp, bpp, rect.y, rect.x, rect.height, rect.width,
                  buffer.bytes, buffer.descriptor.stride, rect.y, rect.x, x, y);
    }
  }

  /** One validated rectangle into a tight image: the copy cannot fail. */
  method CopyDamage(buffer: SoftwareBuffer, rect: Rect, bytes: array<byte>)
    requires buffer.bpp > 0 && Readable(buffer.descriptor, buffer.bpp, |buffer.bytes|)
    requires |buffer.bytes| <= I64_MAX && bytes.Length <= I64_MAX
    requires Tight(bytes[..], buffer.descriptor.size, buffer.bpp)
    requires DamageInside(buffer.descriptor.size, Area(rect))
    modifies bytes
    ensures Tight(bytes[..], buffer.descriptor.size, buffer.bpp)
    ensures forall x: nat, y: nat | x < buffer.descriptor.size.width && y < buffer.descriptor.size.height ::
              ImagePixel(buffer.descriptor.size, bytes[..], buffer.bpp, x, y) ==
              if InRect(rect, x, y) then BufferPixel(buffer, x, y)
              else ImagePixel(buffer.descriptor.size, old(bytes[..]), buffer.bpp, x, y)
  {
    var size, stride, bpp := buffer.descriptor.size, buffer.descriptor.stride, buffer.bpp;
    var tight: u32 := size.width * bpp;
    if rect.height > 0 {
      RectFits(size, stride, bpp, |buffer.bytes|, rect);
      RectFits(size, tight, bpp, bytes.Length, rect);
    }
    assert rect.x * bpp + rect.width * bpp <= tight by {
      MulMonotone(rect.x + rect.width, size.width, bpp);
    }
    ghost var before := bytes[..];
    var copied := CopyRect(buffer.bytes, stride, bytes, tight, bpp, rect);
    assert copied;
    CopiedPixels(buffer, rect, before, bytes[..]);
  }

  /** The image of a surface after its new commit was read. */
  method RefreshImage(kept: Option<Image>, buffer: SoftwareBuffer, damage: seq<Damage>)
    returns (image: Image)
    requires buffer.bpp > 0 && ValidateForLayout(buffer.descriptor, buffer.bpp, |buffer.bytes|) == None
    requires |buffer.bytes| <= I64_MAX
    requires RefusedDamage(buffer.descriptor.size, damage) == None
    requires kept.Some? ==> Tight(kept.value.bytes, kept.value.size, buffer.bpp)
    ensures Readable(buffer.descriptor, buffer.bpp, |buffer.bytes|)
    ensures Refreshed(kept, buffer, damage, image) && |image.bytes| <= I64_MAX
  {
    ValidatedIsReadable(buffer.descriptor, buffer.bpp, |buffer.bytes|);
    var size, bpp := buffer.descriptor.size, buffer.bpp;
    var byteLen := size.width * bpp * size.height;
    var whole := Rect(0, 0, size.width, size.height);
    if kept.None? || kept.value.size != size {
      var bytes := new byte[byteLen](_ => 0);
      CopyDamage(buffer, whole, bytes);
      return Image(size, bytes[..]);
    }
    var start := kept.value.bytes;
    var bytes := new byte[|start|](i requires 0 <= i < |start| => start[i]);
    assert bytes[..] == start;
    var i := 0;
    while i < |damage|
      invariant 0 <= i <= |damage|
      invariant fresh(bytes) && Tight(bytes[..], size, bpp)
      invariant forall x: nat, y: nat | x < size.width && y < size.height ::
          ImagePixel(size, bytes[..], bpp, x, y) ==
          if Damaged(damage[..i], x, y) then BufferPixel(buffer, x, y) else ImagePixel(size, start, bpp, x, y)
    {
      var rect := if damage[i].Full? then whole else damage[i].rect;
      ghost var before := bytes[..];
      CopyDamage(buffer, rect, bytes);
      DamageStep(size, damage, i, whole);
      i := i + 1;
    }
    assert damage[..i] == damage;
    return Image(size, bytes[..]);
  }

  lemma DamageStep(size: Size, damage: seq<Damage>, i: nat, whole: Rect)
    requires i < |damage| && whole == Rect(0, 0, size.width, size.height)
    ensures forall x: nat, y: nat | x < size.width && y < size.height ::
              Damaged(damage[..i + 1], x, y)
              <==> Damaged(damage[..i], x, y)
                   || InRect(if damage[i].Full? then whole else damage[i].rect, x, y)
  {
    forall x: nat, y: nat | x < size.width && y < size.height
      ensures Damaged(damage[..i + 1], x, y)
              <==> Damaged(damage[..i], x, y)
                   || InRect(if damage[i].Full? then whole else damage[i].rect, x, y)
    {
      var now, before := damage[..i + 1], damage[..i];
      assert now[i] == damage[i];
      assert forall j | 0 <= j < i :: now[j] == before[j];
    }
  }

  /** A frame shows a stack when every pixel is the reference painter's. */
  ghost predicate Shows(frame: seq<byte>, size: Size, bpp: nat, layers: seq<Layer>) {
    && Tight(frame, size, bpp) && Drawable(layers, bpp)
    && (forall x: nat, y: nat | x < size.width && y < size.height ::
          ImagePixel(size, frame, bpp, x, y) == Paint(layers, bpp, x, y))
  }

  lemma PaintAbove(layers: seq<Layer>, l: Layer, bpp: nat, px: int, py: int)
    requires Drawable(layers + [l], bpp) && Drawable(layers, bpp) && Tight(l.image.bytes, l.image.size, bpp)
    ensures Paint(layers + [l], bpp, px, py)
            == if LayerCovers(l, px, py) then LayerPixel(l, bpp, px, py) else Paint(layers, bpp, px, py)
  {
    var all := layers + [l];
    assert all[..|all| - 1] == layers && all[|all| - 1] == l;
    if !LayerCovers(l, px, py) {
      var t := Topmost(layers, px, py);
      assert t >= 0 ==> all[t] == layers[t];
    }
  }

  /** The bytes of a frame that shows nothing. */
  function BlankBytes(size: Size, bpp: nat): (b: seq<byte>)
    ensures Tight(b, size, bpp) && forall i | 0 <= i < |b| :: b[i] == 0
  {
    var length: nat := size.width * bpp * size.height;
    seq(length, _ => 0)
  }

  lemma ZeroPixel(frame: seq<byte>, stride: nat, bpp: nat, x: nat, y: nat, at: nat)
    requires at == y * stride + x * bpp && at + bpp <= |frame| && forall i | 0 <= i < |frame| :: frame[i] == 0
    ensures PixelAt(frame, stride, bpp, x, y) == seq(bpp, _ => 0)
  {
    var p := frame[at..at + bpp];
    assert |p| == bpp && forall j | 0 <= j < bpp :: p[j] == 0;
  }

  lemma BlankFrame(frame: seq<byte>, size: Size, bpp: nat)
    requires Tight(frame, size, bpp) && forall i | 0 <= i < |frame| :: frame[i] == 0
    ensures Shows(frame, size, bpp, [])
  {
    forall x: nat, y: nat | x < size.width && y < size.height
      ensures ImagePixel(size, frame, bpp, x, y) == Paint([], bpp, x, y)
    {
      TightPixelInside(size, bpp, x, y);
      ZeroPixel(frame, size.width * bpp, bpp, x, y, y * (size.width * bpp) + x * bpp);
    }
  }

  lemma DrawnAbove(before: seq<byte>, after: seq<byte>, size: Size, bpp: nat, layers: seq<Layer>, l: Layer)
    requires Shows(before, size, bpp, layers) && Tight(after, size, bpp)
    requires Tight(l.image.bytes, l.image.size, bpp)
    requires forall x: nat, y: nat | x < size.width && y < size.height ::
               ImagePixel(size, after, bpp, x, y) == if LayerCovers(l, x, y) then LayerPixel(l, bpp, x, y)
                                                     else ImagePixel(size, before, bpp, x, y)
    ensures Shows(after, size, bpp, layers + [l])
  {
    assert Drawable(layers + [l], bpp);
    forall x: nat, y: nat | x < size.width && y < size.height
      ensures ImagePixel(size, after, bpp, x, y) == Paint(layers + [l], bpp, x, y)
    {
      PaintAbove(layers, l, bpp, x, y);
    }
  }

  /** Draw a stack into a cleared frame. */
  method DrawStack(layers: seq<Layer>, frame: Frame)
    requires frame.Valid() && Drawable(layers, frame.bpp) && Composable(layers)
    modifies frame.bytes
    ensures Shows(frame.bytes[..], frame.size, frame.bpp, layers)
  {
    frame.Clear();
    BlankFrame(frame.bytes[..], frame.size, frame.bpp);
    var i := 0;
    while i < |layers|
      invariant 0 <= i <= |layers|
      invariant Shows(frame.bytes[..], frame.size, frame.bpp, layers[..i])
    {
      ghost var before := frame.bytes[..];
      var l := layers[i];
      var drawn := BlitSurface(l.image.size, l.image.bytes, l.originX, l.originY, frame);
      DrawnAbove(before, frame.bytes[..], frame.size, frame.bpp, layers[..i], l);
      assert layers[..i + 1] == layers[..i] + [l];
      i := i + 1;
    }
    assert layers[..i] == layers;
  }

  /** Origins that are sums of two `i32`, and images no longer than a vector can be. */
  ghost predicate Composable(layers: seq<Layer>) {
    forall i | 0 <= i < |layers| ::
      && -0x1_0000_0000 <= layers[i].originX <= 0x1_0000_0000
      && -0x1_0000_0000 <= layers[i].originY <= 0x1_0000_0000
      && |layers[i].image.bytes| <= I64_MAX
  }

  datatype Staged = Staged(originX: int, originY: int, redraw: bool)

  /** What one call of `compose` is given. */
  datatype Scene = Scene(view: StateView, store: BufferStore, refused: Option<SurfaceKey>)

  class Output {
    const size: Size
    const bpp: u8
    var current: seq<byte>
    var surfaces: map<SurfaceKey, SurfaceImage>
    var placed: map<SurfaceKey, Placement>
    var damage: seq<Rect>
    var composedOnce: bool
    /** The stack the published frame shows. */
    ghost var shown: seq<Layer>

    ghost predicate ImagesValid()
      reads this
    {
      forall k | k in surfaces :: Tight(surfaces[k].image.bytes, surfaces[k].image.size, bpp)
                                  && |surfaces[k].image.bytes| <= I64_MAX
    }

    ghost predicate Valid()
      reads this
    {
      Published() && ImagesValid() && CommittedShown(surfaces, shown)
    }

    /** The published frame shows `shown`, placed as recorded. */
    ghost predicate Published()
      reads this
    {
      && FrameGeometry(size, bpp)
      && Shows(current, size, bpp, shown) && DistinctSurfaces(shown)
      && Places(placed, shown, size)
      && (!composedOnce ==> shown == [])
    }

    constructor (size: Size, bpp: u8)
      requires FrameGeometry(size, bpp)
      ensures Valid() && this.size == size && this.bpp == bpp && !composedOnce && shown == [] && surfaces == map[]
    {
      this.size, this.bpp := size, bpp;
      current := BlankBytes(size, bpp);
      surfaces, placed, damage, composedOnce, shown := map[], map[], [], false, [];
      new;
      BlankFrame(BlankBytes(size, bpp), size, bpp);
    }

    /** Everything one composition does for one stacked surface before drawing. A refusal leaves
        every kept image as it was. */
    method Stage(view: StateView, store: BufferStore, surface: SurfaceKey)
      returns (r: Result<Staged, ComposeError>)
      requires FrameGeometry(size, bpp) && ImagesValid()
      requires forall k | k in store :: |store[k].bytes| <= I64_MAX
      modifies this`surfaces
      ensures ImagesValid()
      ensures Decided(StageRefused(view, store, bpp, old(surfaces), surface), r)
      ensures r.Err? ==> surfaces == old(surfaces)
      ensures r.Ok? ==> surface in surfaces && surfaces == old(surfaces)[surface := surfaces[surface]]
      ensures r.Ok? ==> StagedOne(view, store, bpp, old(surfaces), surface, surfaces[surface],
                                  (r.value.originX, r.value.originY), r.value.redraw)
    {
      if surface !in view.surfaces || view.surfaces[surface].snapshot.None? {
        return Err(MissingSurfaceState(surface));
      }
      var snapshot := view.surfaces[surface].snapshot.value;
      if view.surfaces[surface].position.None? {
        return Err(MissingSurfacePosition(surface));
      }
      var position := view.surfaces[surface].position.value;
      var originX, originY := position.x + snapshot.offset.x, position.y + snapshot.offset.y;
      if surface in surfaces && surfaces[surface].commit == Some(snapshot.commit) {
        return Ok(Staged(originX, originY, false));
      }
      var ready := view.surfaces[surface].ready;
      if ready.None? {
        return Err(StateChanged(surface));
      }
      if !ready.value {
        return Err(CommitNotReady(surface));
      }
      var key := BufferKey(surface.connection, snapshot.buffer);
      if key !in view.buffers {
        return Err(MissingBufferDescriptor(key));
      }
      var descriptor := view.buffers[key].descriptor;
      if key !in store {
        return Err(MissingBuffer(key));
      }
      var buffer := store[key];
      if buffer.descriptor != descriptor {
        return Err(BufferDescriptorMismatch(key));
      }
      if buffer.bpp != bpp {
        return Err(PixelLayoutMismatch(key));
      }
      if view.buffers[key].state != CompositorHeld(surface, snapshot.commit) {
        return Err(BufferNotHeld(key));
      }
      var invalid := ValidateForLayout(descriptor, bpp, |buffer.bytes|);
      if invalid.Some? {
        return Err(InvalidBuffer(key, invalid.value));
      }
      var refused := RefusedDamage(descriptor.size, snapshot.damage);
      if refused.Some? {
        return Err(DamageRectangleOutsideSurface(surface, refused.value));
      }
      var kept := if surface in surfaces then Some(surfaces[surface].image) else None;
      var image := RefreshImage(kept, buffer, snapshot.damage);
      surfaces := surfaces[surface := SurfaceImage(None, image)];
      return Ok(Staged(originX, originY, true));
    }

    /** `note_damage`: record where every surface now sits, and report rectangles whose union is
        exactly what the placements and the redrawn set say changed. */
    method NoteDamage(layers: seq<Layer>, redrawn: set<SurfaceKey>)
      requires DistinctSurfaces(layers)
      modifies this`placed, this`damage, this`composedOnce
      ensures Places(placed, layers, size) && composedOnce
      ensures old(composedOnce) ==> forall px, py ::
                Covered(damage, px, py) <==> Reported(old(placed), placed, redrawn, px, py)
      ensures !old(composedOnce) ==> damage == [Rect(0, 0, size.width, size.height)]
    {
      var now: map<SurfaceKey, Placement> := map[];
      var depth := 0;
      while depth < |layers|
        invariant 0 <= depth <= |layers|
        invariant Places(now, layers[..depth], size)
        invariant composedOnce == old(composedOnce) && placed == old(placed)
      {
        var clip := ClipOf(size, layers[depth]);
        PlaceNext(now, layers, depth, size);
        if clip.Some? {
          now := now[layers[depth].surface := Placement(clip.value, depth)];
        }
        depth := depth + 1;
      }
      assert layers[..depth] == layers;
      damage := [];
      if composedOnce {
        damage := ChangedRects(placed, now, redrawn);
      } else {
        composedOnce := true;
        damage := [Rect(0, 0, size.width, size.height)];
      }
      placed := now;
    }

    /** One turn of that loop. */
    method StageNext(view: StateView, store: BufferStore, i: nat, ghost was: map<SurfaceKey, SurfaceImage>,
                     ghost origins: seq<(int, int)>, ghost redrawn: set<SurfaceKey>)
      returns (r: Result<Staged, ComposeError>)
      requires FrameGeometry(size, bpp) && ImagesValid() && NoDuplicates(view.stack) && i < |view.stack| && |origins| == i
      requires forall k | k in store :: |store[k].bytes| <= I64_MAX
      requires StagedTo(view, store, bpp, was, surfaces, origins, redrawn)
      modifies this`surfaces
      ensures ImagesValid()
      ensures if r.Ok? then StagedTo(view, store, bpp, was, surfaces, origins + [(r.value.originX, r.value.originY)],
                                     if r.value.redraw then redrawn + {view.stack[i]} else redrawn)
              else && StagingDecided<seq<(int, int)>>(view, store, bpp, was, Err(r.error))
                   && MarksKept(was, surfaces) && LeftBehind(view, store, bpp, was, surfaces)
    {
      StagedToOpen(view, store, bpp, was, surfaces, origins, redrawn);
      ghost var before := surfaces;
      var surface := view.stack[i];
      assert surface !in view.stack[..i];
      r := Stage(view, store, surface);
      TurnDecided(view, store, bpp, was, before, origins, redrawn, r);
      if r.Ok? {
        ghost var origin := (r.value.originX, r.value.originY);
        StagedOneFrom(view, store, bpp, was, before, surface, surfaces[surface], origin, r.value.redraw);
        StagedStep(view.stack, StagingOf(view, store, bpp, was), was, before, surfaces, origins, redrawn, origin,
                   r.value.redraw);
        StagedToIs(view, store, bpp, was, surfaces, origins + [origin],
                   if r.value.redraw then redrawn + {surface} else redrawn);
      } else {
        StagedCommits(view, store, bpp, was, surfaces, origins, redrawn);
        StagedBelow(view, store, bpp, was, surfaces, origins, redrawn);
      }
    }

    /** The first loop of `compose`: stage every stacked surface, or stop at the first that is
        refused, with its error, leaving the surfaces below it staged. */
    method StageAll(view: StateView, store: BufferStore)
      returns (r: Result<seq<(int, int)>, ComposeError>, redrawn: set<SurfaceKey>)
      requires FrameGeometry(size, bpp) && ImagesValid() && NoDuplicates(view.stack)
      requires forall k | k in store :: |store[k].bytes| <= I64_MAX
      modifies this`surfaces
      ensures ImagesValid()
      ensures StagingDecided(view, store, bpp, old(surfaces), r)
      ensures MarksKept(old(surfaces), surfaces)
      ensures r.Ok? ==> StagedFully(view, store, bpp, old(surfaces), surfaces, r.value, redrawn)
      ensures r.Err? ==> LeftBehind(view, store, bpp, old(surfaces), surfaces)
    {
      ghost var was := surfaces;
      var origins: seq<(int, int)> := [];
      redrawn := {};
      var i := 0;
      NoneStaged(view, store, bpp, was);
      while i < |view.stack|
        invariant 0 <= i <= |view.stack| && |origins| == i
        invariant ImagesValid()
        invariant StagedTo(view, store, bpp, was, surfaces, origins, redrawn)
      {
        var staged := StageNext(view, store, i, was, origins, redrawn);
        if staged.Err? {
          return Err(staged.error), redrawn;
        }
        origins := origins + [(staged.value.originX, staged.value.originY)];
        if staged.value.redraw {
          redrawn := redrawn + {view.stack[i]};
        }
        i := i + 1;
      }
      AllStaged(view, store, bpp, was, surfaces, origins, redrawn);
      return Ok(origins), redrawn;
    }

    /** `compose`. `refused` names a surface whose `present` or `release_buffer` call fails, if
        one does. A failure of any kind leaves the published frame, its placements and its damage
        alone, and what it had read in the kept images; a success publishes exactly what the
        reference painter paints, and reports rectangles covering every pixel that changed. */
    method Compose(view: StateView, store: BufferStore, refused: Option<SurfaceKey>)
      returns (r: Result<(), ComposeError>, ghost redrawn: set<SurfaceKey>)
      requires Valid() && NoDuplicates(view.stack)
      requires forall k | k in store :: |store[k].bytes| <= I64_MAX
      modifies this
      ensures Valid()
      ensures ComposeDecided(Scene(view, store, refused), bpp, old(surfaces), r)
      ensures r.Err? ==> current == old(current) && placed == old(placed) && damage == old(damage)
                         && composedOnce == old(composedOnce) && shown == old(shown)
                         && LeftBehind(view, store, bpp, old(surfaces), surfaces)
      ensures r.Ok? ==> forall k | k in view.stack && Unread(view, old(surfaces), k) :: view.surfaces[k].ready == Some(true)
      ensures r.Ok? ==> Composed(view, StagingOf(view, store, bpp, old(surfaces)), redrawn, shown)
      ensures r.Ok? ==> Accounted(view, surfaces, shown) && composedOnce
      ensures r.Ok? && Addressable(size)
              && (old(composedOnce) ==> NothingMissed(size, old(shown), shown, old(placed), placed, redrawn)) ==>
                ChangesCovered(size, bpp, old(current), current, damage)
    {
      ghost var was := surfaces;
      var staged, read := StageAll(view, store);
      redrawn := read;
      if staged.Err? {
        StagingFails(view, store, bpp, was, refused, staged.error);
        return Err(staged.error), redrawn;
      }
      UnreadReady(view, store, bpp, was, surfaces, staged.value, read);
      r := Conclude(view, store, refused, was, staged.value, read);
    }

    /** The rest of `compose`, once every stacked surface is staged. */
    method Conclude(view: StateView, store: BufferStore, refused: Option<SurfaceKey>, ghost was: map<SurfaceKey, SurfaceImage>,
                    origins: seq<(int, int)>, read: set<SurfaceKey>)
      returns (r: Result<(), ComposeError>)
      requires Published() && ImagesValid() && CommittedShown(was, shown) && CommittedShown(surfaces, shown)
      requires NoDuplicates(view.stack) && StagedFully(view, store, bpp, was, surfaces, origins, read)
      modifies this
      ensures Valid()
      ensures ComposeDecided(Scene(view, store, refused), bpp, was, r)
      ensures r.Err? ==> current == old(current) && placed == old(placed) && damage == old(damage)
                         && composedOnce == old(composedOnce) && shown == old(shown)
                         && LeftBehind(view, store, bpp, was, surfaces)
      ensures r.Ok? ==> Composed(view, StagingOf(view, store, bpp, was), read, shown)
      ensures r.Ok? ==> Accounted(view, surfaces, shown) && composedOnce
      ensures r.Ok? && Addressable(size)
              && (old(composedOnce) ==> NothingMissed(size, old(shown), shown, old(placed), placed, read)) ==>
                ChangesCovered(size, bpp, old(current), current, damage)
    {
      var kept := surfaces;
      surfaces := Stacked(view, kept);
      FullyKept(view, store, bpp, was, kept, origins, read);
      var layers := LayersOf(view.stack, origins, kept);
      StackReady(view, store, bpp, was, kept, shown, origins, read, layers);
      var target := Drawn(layers);
      ComposeSettled(view, store, bpp, was, kept, refused, origins, read);
      if refused.Some? && refused.value in read {
        StagedAll(view, store, bpp, was, kept, origins, read);
        return Err(StateChanged(refused.value));
      }
      surfaces := MarkConsumed(view, surfaces, read);
      Publish(target, layers, read);
      return Ok(());
    }

    /** Any run of compositions, failed ones among them: each does what `Happens` says, the rectangles
        reported are those of the frames published, and where nothing was missed they cover every
        pixel in which the last published frame differs from the first. */
    method ComposeEach(scenes: seq<Scene>) returns (reported: seq<Rect>, outcomes: seq<bool>, ghost moments: seq<Moment>)
      requires Valid()
      requires forall i | 0 <= i < |scenes| :: NoDuplicates(scenes[i].view.stack)
                                               && forall k | k in scenes[i].store :: |scenes[i].store[k].bytes| <= I64_MAX
      modifies this
      ensures Valid() && |outcomes| == |scenes| && |moments| == |scenes| + 1
      ensures moments[0] == old(Now({})) && moments[|scenes|].SameFrame(Now({})) && moments[|scenes|].images == surfaces
      ensures forall i | 0 <= i < |scenes| :: Happens(size, bpp, scenes[i], outcomes[i], moments[i], moments[i + 1])
      ensures reported == Gathered(outcomes, moments)
      ensures Addressable(size) && SeenThroughout(size, outcomes, moments) ==>
                ChangesCovered(size, bpp, old(current), current, reported)
    {
      reported, outcomes, moments := [], [], [Now({})];
      RanNothing(size, bpp, moments[0]);
      var i := 0;
      while i < |scenes|
        invariant 0 <= i <= |scenes| && Valid() && |outcomes| == i && |moments| == i + 1
        invariant moments[0] == old(Now({})) && moments[i].SameFrame(Now({})) && moments[i].images == surfaces
        invariant Ran(size, bpp, scenes[..i], outcomes, moments, reported)
      {
        var ok;
        ghost var next;
        ok, next := ComposeNext(scenes[i], moments[i]);
        RanNext(size, bpp, scenes[..i], outcomes, moments, reported, scenes[i], ok, next);
        assert scenes[..i + 1] == scenes[..i] + [scenes[i]];
        outcomes, moments := outcomes + [ok], moments + [next];
        reported := reported + if ok then damage else [];
        i := i + 1;
      }
      assert scenes[..i] == scenes;
      RanFacts(size, bpp, scenes, outcomes, moments, reported);
    }

    /** One composition of a run. */
    method ComposeNext(scene: Scene, ghost last: Moment) returns (ok: bool, ghost next: Moment)
      requires Valid() && NoDuplicates(scene.view.stack) && last.SameFrame(Now({})) && last.images == surfaces
      requires forall k | k in scene.store :: |scene.store[k].bytes| <= I64_MAX
      modifies this
      ensures Valid() && next.SameFrame(Now({})) && next.images == surfaces
      ensures Happens(size, bpp, scene, ok, last, next) && StepCovered(size, bpp, ok, last, next)
    {
      var r;
      ghost var redrawn;
      r, redrawn := Compose(scene.view, scene.store, scene.refused);
      ok, next := r.Ok?, Now(redrawn);
      assert Happens(size, bpp, scene, ok, last, next) by {
        Unlock();
      }
    }

    ghost function Now(redrawn: set<SurfaceKey>): Moment
      reads this
    {
      Moment(current, shown, surfaces, placed, damage, composedOnce, redrawn)
    }

    /** The second loop of `compose`: the stack drawn into a cleared frame. */
    method Drawn(layers: seq<Layer>) returns (frame: seq<byte>)
      requires FrameGeometry(size, bpp) && Drawable(layers, bpp) && Composable(layers)
      ensures Shows(frame, size, bpp, layers)
    {
      var target := new Frame(size, bpp);
      DrawStack(layers, target);
      return target.bytes[..];
    }

    /** The end of `compose`: note what the new frame changed, then publish it. */
    method Publish(frame: seq<byte>, layers: seq<Layer>, redrawn: set<SurfaceKey>)
      requires Published() && Shows(frame, size, bpp, layers) && DistinctSurfaces(layers)
      requires KeptAlike(shown, layers, redrawn)
      modifies this`current, this`placed, this`damage, this`composedOnce, this`shown
      ensures Published() && current == frame && shown == layers && composedOnce
      ensures Addressable(size)
              && (old(composedOnce) ==> NothingMissed(size, old(shown), shown, old(placed), placed, redrawn)) ==>
                ChangesCovered(size, bpp, old(current), current, damage)
    {
      ghost var wasPlaced, first := placed, !composedOnce;
      NoteDamage(layers, redrawn);
      if Addressable(size) && (!first ==> NothingMissed(size, shown, layers, wasPlaced, placed, redrawn)) {
        if first {
          WholeCoversChanges(size, bpp, current, frame);
        } else {
          DamageCoversChanges(size, bpp, current, frame, shown, layers, wasPlaced, placed, redrawn, damage);
        }
      }
      current := frame;
      shown := layers;
    }
  }

  /** The stack as it is drawn: each surface's kept image at its origin. */
  function LayersOf(stack: seq<SurfaceKey>, origins: seq<(int, int)>, kept: map<SurfaceKey, SurfaceImage>): (layers: seq<Layer>)
    requires |origins| == |stack| && forall i | 0 <= i < |stack| :: stack[i] in kept
  {
    seq(|stack|, i requires 0 <= i < |stack| => Layer(stack[i], origins[i].0, origins[i].1, kept[stack[i]].image))
  }

  /** The images of a composition once its commits are accounted for: what is not stacked is
      dropped, what was read is marked with its commit. */
  function MarkConsumed(view: StateView, surfaces: map<SurfaceKey, SurfaceImage>, read: set<SurfaceKey>)
    : map<SurfaceKey, SurfaceImage>
  {
    map k | k in surfaces ::
      if k in read && HasSnapshot(view, k) then surfaces[k].(commit := Some(CommitOf(view, k))) else surfaces[k]
  }

  function Stacked(view: StateView, surfaces: map<SurfaceKey, SurfaceImage>): map<SurfaceKey, SurfaceImage> {
    map k | k in surfaces && k in view.stack :: surfaces[k]
  }

  /** What is staged can be drawn and published, and is accounted for once it is. */
  lemma StackReady(view: StateView, store: BufferStore, bpp: u8, was: map<SurfaceKey, SurfaceImage>,
                   kept: map<SurfaceKey, SurfaceImage>, shown: seq<Layer>, origins: seq<(int, int)>, read: set<SurfaceKey>,
                   layers: seq<Layer>)
    requires NoDuplicates(view.stack) && StagedFully(view, store, bpp, was, kept, origins, read)
    requires forall k | k in kept :: Tight(kept[k].image.bytes, kept[k].image.size, bpp)
                                     && |kept[k].image.bytes| <= I64_MAX
    requires |origins| == |view.stack| && forall i | 0 <= i < |view.stack| :: view.stack[i] in kept
    requires layers == LayersOf(view.stack, origins, kept)
    requires DistinctSurfaces(shown) && CommittedShown(was, shown)
    ensures DistinctSurfaces(layers) && Drawable(layers, bpp) && Composable(layers)
    ensures Composed(view, StagingOf(view, store, bpp, was), read, layers) && KeptAlike(shown, layers, read)
    ensures Accounted(view, MarkConsumed(view, Stacked(view, kept), read), layers)
    ensures CommittedShown(MarkConsumed(view, Stacked(view, kept), read), layers)
  {
    Unlock();
    LayersComposed(view, store, bpp, was, kept, origins, read, layers);
    KeptImagesAlike(view, store, bpp, was, shown, read, layers);
    ConsumedAccounted(view, store, bpp, was, kept, read, layers);
  }

  lemma ConsumedAccounted(view: StateView, store: BufferStore, bpp: u8, was: map<SurfaceKey, SurfaceImage>,
                          kept: map<SurfaceKey, SurfaceImage>, read: set<SurfaceKey>, layers: seq<Layer>)
    requires Composed(view, StagingOf(view, store, bpp, was), read, layers)
    requires forall i | 0 <= i < |layers| :: view.stack[i] in kept && HasSnapshot(view, view.stack[i])
               && kept[view.stack[i]] == SurfaceImage(if view.stack[i] in read then None
                                                      else Some(CommitOf(view, view.stack[i])), layers[i].image)
    ensures Accounted(view, MarkConsumed(view, Stacked(view, kept), read), layers)
    ensures CommittedShown(MarkConsumed(view, Stacked(view, kept), read), layers)
  {
    Unlock();
    forall k | k in Stacked(view, kept)
      ensures HasSnapshot(view, k) && ShownAs(layers, k, kept[k].image)
    {
      var i :| 0 <= i < |view.stack| && view.stack[i] == k;
      assert layers[i].surface == k;
    }
  }

  /** An image marked with a commit is the image the published frame shows for its surface. */
  ghost predicate CommittedShown(surfaces: map<SurfaceKey, SurfaceImage>, shown: seq<Layer>) {
    forall k | k in surfaces && surfaces[k].commit.Some? :: ShownAs(shown, k, surfaces[k].image)
  }

  ghost predicate ShownAs(shown: seq<Layer>, k: SurfaceKey, image: Image) {
    exists i :: 0 <= i < |shown| && shown[i].surface == k && shown[i].image == image
  }

  /** The stack a successful composition draws. Folded, as is the next. */
  ghost predicate Composed(view: StateView, right: Staging, redrawn: set<SurfaceKey>, layers: seq<Layer>) {
    && |layers| == |view.stack|
    && (forall key: Key | Opened(key) ::
          forall i | 0 <= i < |layers| ::
            && layers[i].surface == view.stack[i] && HasSnapshot(view, view.stack[i])
            && right(view.stack[i],
                     SurfaceImage(if view.stack[i] in redrawn then None else Some(CommitOf(view, view.stack[i])),
                                  layers[i].image),
                     (layers[i].originX, layers[i].originY), view.stack[i] in redrawn))
  }

  /** Every stacked surface's kept image is marked with its commit, and no other image is kept. */
  ghost predicate Accounted(view: StateView, surfaces: map<SurfaceKey, SurfaceImage>, layers: seq<Layer>)
    requires |layers| == |view.stack|
  {
    forall key: Key | Opened(key) ::
      && (forall k | k in surfaces :: k in view.stack)
      && (forall i | 0 <= i < |layers| ::
            && view.stack[i] in surfaces && HasSnapshot(view, view.stack[i])
            && surfaces[view.stack[i]] == SurfaceImage(Some(CommitOf(view, view.stack[i])), layers[i].image))
  }

  /** A surface not read again is the one the published frame showed. */
  lemma KeptImagesAlike(view: StateView, store: BufferStore, bpp: u8, was: map<SurfaceKey, SurfaceImage>,
                        shown: seq<Layer>, redrawn: set<SurfaceKey>, layers: seq<Layer>)
    requires Composed(view, StagingOf(view, store, bpp, was), redrawn, layers) && DistinctSurfaces(shown)
    requires CommittedShown(was, shown)
    ensures KeptAlike(shown, layers, redrawn)
  {
    Unlock();
    forall i, j | 0 <= i < |shown| && 0 <= j < |layers| && shown[i].surface == layers[j].surface
                  && layers[j].surface !in redrawn
      ensures shown[i].image == layers[j].image
    {
      var k := layers[j].surface;
      assert ShownAs(shown, k, was[k].image);
      var i' :| 0 <= i' < |shown| && shown[i'].surface == k && shown[i'].image == was[k].image;
    }
  }

  /** Every pixel that differs between two frames lies in some rectangle. */
  ghost predicate ChangesCovered(out: Size, bpp: nat, before: seq<byte>, after: seq<byte>, damage: seq<Rect>)
    requires Tight(before, out, bpp) && Tight(after, out, bpp)
  {
    forall x: nat, y: nat | x < out.width && y < out.height
      && ImagePixel(out, before, bpp, x, y) != ImagePixel(out, after, bpp, x, y) :: Covered(damage, x, y)
  }

  /** What changed over two steps lies in what either reported. */
  lemma CoveredTrans(out: Size, bpp: nat, a: seq<byte>, b: seq<byte>, c: seq<byte>, first: seq<Rect>, second: seq<Rect>)
    requires Tight(a, out, bpp) && Tight(b, out, bpp) && Tight(c, out, bpp)
    requires ChangesCovered(out, bpp, a, b, first) && ChangesCovered(out, bpp, b, c, second)
    ensures ChangesCovered(out, bpp, a, c, first + second)
  {
    forall x: nat, y: nat | x < out.width && y < out.height && ImagePixel(out, a, bpp, x, y) != ImagePixel(out, c, bpp, x, y)
      ensures Covered(first + second, x, y)
    {
      if ImagePixel(out, a, bpp, x, y) != ImagePixel(out, b, bpp, x, y) {
        var i :| 0 <= i < |first| && InRect(first[i], x, y);
        assert (first + second)[i] == first[i];
      } else {
        var i :| 0 <= i < |second| && InRect(second[i], x, y);
        assert (first + second)[|first| + i] == second[i];
      }
    }
  }

  lemma WholeCoversChanges(out: Size, bpp: nat, frame: seq<byte>, next: seq<byte>)
    requires Tight(frame, out, bpp) && Tight(next, out, bpp)
    ensures ChangesCovered(out, bpp, frame, next, [Rect(0, 0, out.width, out.height)])
  {
    var whole := [Rect(0, 0, out.width, out.height)];
    forall x: nat, y: nat | x < out.width && y < out.height ensures Covered(whole, x, y) {
      assert InRect(whole[0], x, y);
    }
  }

  lemma DamageCoversChanges(out: Size, bpp: nat, frame: seq<byte>, next: seq<byte>, before: seq<Layer>,
                            after: seq<Layer>, placed: map<SurfaceKey, Placement>,
                            now: map<SurfaceKey, Placement>, redrawn: set<SurfaceKey>, damage: seq<Rect>)
    requires Addressable(out) && Shows(frame, out, bpp, before) && Shows(next, out, bpp, after)
    requires Places(placed, before, out) && Places(now, after, out)
    requires KeptAlike(before, after, redrawn) && NothingMissed(out, before, after, placed, now, redrawn)
    requires forall px, py :: Reported(placed, now, redrawn, px, py) ==> Covered(damage, px, py)
    ensures ChangesCovered(out, bpp, frame, next, damage)
  {
    forall x: nat, y: nat | x < out.width && y < out.height
      && ImagePixel(out, frame, bpp, x, y) != ImagePixel(out, next, bpp, x, y)
      ensures Covered(damage, x, y)
    {
      assert !Missed(out, before, after, placed, now, redrawn, x, y);
      ReportIsSound(out, bpp, before, after, placed, now, redrawn, x, y);
    }
  }

  /** Whether a surface's commit is one its kept image does not have. */
  predicate Unread(view: StateView, was: map<SurfaceKey, SurfaceImage>, k: SurfaceKey) {
    && HasSnapshot(view, k)
    && !(k in was && was[k].commit == Some(CommitOf(view, k)))
  }

  /** Why a surface is not staged, in the order of the checks. */
  function StageRefused(view: StateView, store: BufferStore, bpp: u8, was: map<SurfaceKey, SurfaceImage>, k: SurfaceKey)
    : Option<ComposeError>
  {
    if !HasSnapshot(view, k) then Some(MissingSurfaceState(k))
    else if view.surfaces[k].position.None? then Some(MissingSurfacePosition(k))
    else if !Unread(view, was, k) then None
    else if view.surfaces[k].ready.None? then Some(StateChanged(k))
    else if !view.surfaces[k].ready.value then Some(CommitNotReady(k))
    else
      var key := BufferOf(view, k);
      if key !in view.buffers then Some(MissingBufferDescriptor(key))
      else if key !in store then Some(MissingBuffer(key))
      else if store[key].descriptor != view.buffers[key].descriptor then Some(BufferDescriptorMismatch(key))
      else if store[key].bpp != bpp then Some(PixelLayoutMismatch(key))
      else if view.buffers[key].state != CompositorHeld(k, CommitOf(view, k)) then Some(BufferNotHeld(key))
      else if ValidateForLayout(store[key].descriptor, bpp, |store[key].bytes|).Some? then
        Some(InvalidBuffer(key, ValidateForLayout(store[key].descriptor, bpp, |store[key].bytes|).value))
      else
        var refused := RefusedDamage(store[key].descriptor.size, view.surfaces[k].snapshot.value.damage);
        if refused.Some? then Some(DamageRectangleOutsideSurface(k, refused.value)) else None
  }

  /** The first refusal among the lowest surfaces of the stack. */
  function FirstRefused(view: StateView, store: BufferStore, bpp: u8, was: map<SurfaceKey, SurfaceImage>, n: nat)
    : Option<ComposeError>
    requires n <= |view.stack|
  {
    if n == 0 then None
    else if FirstRefused(view, store, bpp, was, n - 1).Some? then FirstRefused(view, store, bpp, was, n - 1)
    else StageRefused(view, store, bpp, was, view.stack[n - 1])
  }

  /** What comes after the first refusal does not matter. */
  lemma {:induction false} RefusedFrom(view: StateView, store: BufferStore, bpp: u8, was: map<SurfaceKey, SurfaceImage>,
                                       i: nat, n: nat)
    requires i < n <= |view.stack| && FirstRefused(view, store, bpp, was, i).None?
    ensures StageRefused(view, store, bpp, was, view.stack[i]).Some? ==>
              FirstRefused(view, store, bpp, was, n) == StageRefused(view, store, bpp, was, view.stack[i])
  {
    if i + 1 < n {
      RefusedFrom(view, store, bpp, was, i, n - 1);
    }
  }

  /** A surface not staged yet is refused for what it was at the start. */
  lemma SameRefusal(view: StateView, store: BufferStore, bpp: u8, was: map<SurfaceKey, SurfaceImage>,
                    now: map<SurfaceKey, SurfaceImage>, origins: seq<(int, int)>, redrawn: set<SurfaceKey>)
    requires NoDuplicates(view.stack) && |origins| < |view.stack|
    requires StagedSoFar(view.stack, StagingOf(view, store, bpp, was), was, now, origins, redrawn)
    ensures StageRefused(view, store, bpp, now, view.stack[|origins|])
            == StageRefused(view, store, bpp, was, view.stack[|origins|])
  {
    assert view.stack[|origins|] !in view.stack[..|origins|];
  }

  /** Why a composition fails: the first surface refused, or a surface just read whose presentation
      or release is. */
  function Failure(scene: Scene, bpp: u8, was: map<SurfaceKey, SurfaceImage>): Option<ComposeError> {
    var staging := FirstRefused(scene.view, scene.store, bpp, was, |scene.view.stack|);
    if staging.Some? then staging
    else if scene.refused.Some? && scene.refused.value in scene.view.stack && Unread(scene.view, was, scene.refused.value) then
      Some(StateChanged(scene.refused.value))
    else None
  }

  /** The surfaces read are exactly those with a commit not read before. */
  lemma ReadExactly(view: StateView, store: BufferStore, bpp: u8, was: map<SurfaceKey, SurfaceImage>,
                    now: map<SurfaceKey, SurfaceImage>, origins: seq<(int, int)>, redrawn: set<SurfaceKey>)
    requires |origins| == |view.stack|
    requires StagedSoFar(view.stack, StagingOf(view, store, bpp, was), was, now, origins, redrawn)
    ensures forall k :: k in redrawn <==> k in view.stack && Unread(view, was, k)
  {
    assert view.stack[..|origins|] == view.stack;
    forall k ensures k in redrawn <==> k in view.stack && Unread(view, was, k) {
      if k in view.stack {
        var i :| 0 <= i < |view.stack| && view.stack[i] == k;
        assert StagedOne(view, store, bpp, was, k, now[k], origins[i], k in redrawn);
      }
    }
  }

  /** An outcome is the refusal, if there is one. */
  predicate Decided<T(==)>(refused: Option<ComposeError>, r: Result<T, ComposeError>) {
    if refused.Some? then r == Err(refused.value) else r.Ok?
  }

  /** Staging ends as its first refusal says. Folded, as are the next two, so that a loop can pass
      it along without looking inside. */
  ghost predicate StagingDecided<T>(view: StateView, store: BufferStore, bpp: u8, was: map<SurfaceKey, SurfaceImage>,
                                  r: Result<T, ComposeError>)
  {
    forall key: Key | Opened(key) :: Decided(FirstRefused(view, store, bpp, was, |view.stack|), r)
  }

  ghost predicate NoneRefused(view: StateView, store: BufferStore, bpp: u8, was: map<SurfaceKey, SurfaceImage>, n: nat) {
    forall key: Key | Opened(key) :: n <= |view.stack| && FirstRefused(view, store, bpp, was, n).None?
  }

  /** A composition succeeds or fails as the scene and the images kept before it say. */
  ghost predicate ComposeDecided<T>(scene: Scene, bpp: u8, was: map<SurfaceKey, SurfaceImage>, r: Result<T, ComposeError>) {
    forall key: Key | Opened(key) :: Decided(Failure(scene, bpp, was), r)
  }

  /** A surface is the first of the stack to be refused. Folded. */
  ghost predicate RefusedAt(view: StateView, store: BufferStore, bpp: u8, was: map<SurfaceKey, SurfaceImage>, i: nat) {
    forall key: Key | Opened(key) ::
      && i < |view.stack| && FirstRefused(view, store, bpp, was, i).None?
      && StageRefused(view, store, bpp, was, view.stack[i]).Some?
  }

  lemma TurnDecided(view: StateView, store: BufferStore, bpp: u8, was: map<SurfaceKey, SurfaceImage>,
                    before: map<SurfaceKey, SurfaceImage>, origins: seq<(int, int)>, redrawn: set<SurfaceKey>,
                    r: Result<Staged, ComposeError>)
    requires NoDuplicates(view.stack) && |origins| < |view.stack| && NoneRefused(view, store, bpp, was, |origins|)
    requires StagedSoFar(view.stack, StagingOf(view, store, bpp, was), was, before, origins, redrawn)
    requires Decided(StageRefused(view, store, bpp, before, view.stack[|origins|]), r)
    ensures if r.Ok? then NoneRefused(view, store, bpp, was, |origins| + 1)
            else StagingDecided<seq<(int, int)>>(view, store, bpp, was, Err(r.error))
                 && RefusedAt(view, store, bpp, was, |origins|)
  {
    Unlock();
    SameRefusal(view, store, bpp, was, before, origins, redrawn);
    RefusedFrom(view, store, bpp, was, |origins|, |view.stack|);
  }

  lemma AllStaged(view: StateView, store: BufferStore, bpp: u8, was: map<SurfaceKey, SurfaceImage>,
                  now: map<SurfaceKey, SurfaceImage>, origins: seq<(int, int)>, redrawn: set<SurfaceKey>)
    requires |origins| == |view.stack| && StagedTo(view, store, bpp, was, now, origins, redrawn)
    ensures StagingDecided(view, store, bpp, was, Ok(origins)) && StagedFully(view, store, bpp, was, now, origins, redrawn)
    ensures MarksKept(was, now)
  {
    Unlock();
    StagedCommits(view, store, bpp, was, now, origins, redrawn);
  }

  /** The lowest surfaces are staged and none of them was refused. Folded. */
  ghost predicate StagedTo(view: StateView, store: BufferStore, bpp: u8, was: map<SurfaceKey, SurfaceImage>,
                           now: map<SurfaceKey, SurfaceImage>, origins: seq<(int, int)>, redrawn: set<SurfaceKey>)
  {
    forall key: Key | Opened(key) ::
      && NoneRefused(view, store, bpp, was, |origins|)
      && StagedSoFar(view.stack, StagingOf(view, store, bpp, was), was, now, origins, redrawn)
  }

  lemma StagedToOpen(view: StateView, store: BufferStore, bpp: u8, was: map<SurfaceKey, SurfaceImage>,
                     now: map<SurfaceKey, SurfaceImage>, origins: seq<(int, int)>, redrawn: set<SurfaceKey>)
    requires StagedTo(view, store, bpp, was, now, origins, redrawn)
    ensures NoneRefused(view, store, bpp, was, |origins|)
    ensures StagedSoFar(view.stack, StagingOf(view, store, bpp, was), was, now, origins, redrawn)
  {
    Unlock();
  }

  lemma StagedToIs(view: StateView, store: BufferStore, bpp: u8, was: map<SurfaceKey, SurfaceImage>,
                   now: map<SurfaceKey, SurfaceImage>, origins: seq<(int, int)>, redrawn: set<SurfaceKey>)
    requires NoneRefused(view, store, bpp, was, |origins|)
    requires StagedSoFar(view.stack, StagingOf(view, store, bpp, was), was, now, origins, redrawn)
    ensures StagedTo(view, store, bpp, was, now, origins, redrawn)
  {
  }

  lemma NoneStaged(view: StateView, store: BufferStore, bpp: u8, was: map<SurfaceKey, SurfaceImage>)
    ensures StagedTo(view, store, bpp, was, was, [], {})
  {
  }

  lemma StagingFails(view: StateView, store: BufferStore, bpp: u8, was: map<SurfaceKey, SurfaceImage>,
                     refused: Option<SurfaceKey>, e: ComposeError)
    requires StagingDecided<seq<(int, int)>>(view, store, bpp, was, Err(e))
    ensures ComposeDecided<()>(Scene(view, store, refused), bpp, was, Err(e))
  {
    Unlock();
  }

  /** Once staged, a composition fails only if a surface just read is refused. */
  lemma ComposeSettled(view: StateView, store: BufferStore, bpp: u8, was: map<SurfaceKey, SurfaceImage>,
                       now: map<SurfaceKey, SurfaceImage>, refused: Option<SurfaceKey>, origins: seq<(int, int)>,
                       read: set<SurfaceKey>)
    requires StagedFully(view, store, bpp, was, now, origins, read)
    ensures ComposeDecided(Scene(view, store, refused), bpp, was,
                           if refused.Some? && refused.value in read then Err(StateChanged(refused.value)) else Ok(()))
  {
    Unlock();
    ReadExactly(view, store, bpp, was, now, origins, read);
  }

  // ----- runs -----

  /** An output between two compositions; `redrawn` is what the first of them read. */
  datatype Moment = Moment(frame: seq<byte>, shown: seq<Layer>, images: map<SurfaceKey, SurfaceImage>,
                           placed: map<SurfaceKey, Placement>, damage: seq<Rect>, once: bool, redrawn: set<SurfaceKey>)
  {
    ghost predicate SameFrame(other: Moment) {
      && frame == other.frame && shown == other.shown && placed == other.placed && damage == other.damage
      && once == other.once
    }
  }

  /** What one composition of a run does: it fails for the reason it should, leaves what is
      published alone and keeps what it had read, or it publishes what the scene's stack paints. Folded. */
  ghost predicate Happens(size: Size, bpp: u8, scene: Scene, ok: bool, a: Moment, b: Moment) {
    forall key: Key | Opened(key) ::
    && (ok <==> Failure(scene, bpp, a.images).None?)
    && if ok then
         && b.once && Composed(scene.view, StagingOf(scene.view, scene.store, bpp, a.images), b.redrawn, b.shown)
         && Accounted(scene.view, b.images, b.shown) && Shows(b.frame, size, bpp, b.shown)
       else
         b.SameFrame(a) && LeftBehind(scene.view, scene.store, bpp, a.images, b.images)
  }

  /** Between two moments no surface was missed. */
  ghost predicate SeenAll(size: Size, a: Moment, b: Moment) {
    NothingMissed(size, a.shown, b.shown, a.placed, b.placed, b.redrawn)
  }

  /** No composition of a run but the first ever published misses a surface. */
  ghost predicate SeenThroughout(size: Size, outcomes: seq<bool>, moments: seq<Moment>)
    requires |moments| == |outcomes| + 1
  {
    forall i | 0 <= i < |outcomes| && outcomes[i] && moments[i].once :: SeenAll(size, moments[i], moments[i + 1])
  }

  ghost predicate FrameCovered(size: Size, bpp: nat, before: seq<byte>, after: seq<byte>, damage: seq<Rect>) {
    Tight(before, size, bpp) && Tight(after, size, bpp) && ChangesCovered(size, bpp, before, after, damage)
  }

  /** What one composition changed, it reported. */
  ghost predicate StepCovered(size: Size, bpp: nat, ok: bool, a: Moment, b: Moment) {
    && Tight(a.frame, size, bpp) && Tight(b.frame, size, bpp) && (!ok ==> b.frame == a.frame)
    && (ok && Addressable(size) && (a.once ==> SeenAll(size, a, b)) ==>
          FrameCovered(size, bpp, a.frame, b.frame, b.damage))
  }

  /** The rectangles of the frames published, in order. */
  ghost function Gathered(outcomes: seq<bool>, moments: seq<Moment>): seq<Rect>
    requires |moments| == |outcomes| + 1
  {
    if outcomes == [] then []
    else
      var n := |outcomes| - 1;
      Gathered(outcomes[..n], moments[..n + 1]) + if outcomes[n] then moments[n + 1].damage else []
  }

  lemma GatheredNext(outcomes: seq<bool>, moments: seq<Moment>, ok: bool, next: Moment)
    requires |moments| == |outcomes| + 1
    ensures Gathered(outcomes + [ok], moments + [next]) == Gathered(outcomes, moments) + if ok then next.damage else []
  {
    assert (outcomes + [ok])[..|outcomes|] == outcomes && (moments + [next])[..|outcomes| + 1] == moments;
  }

  /** Part of a run. Folded, like what it is made of. */
  ghost predicate Ran(size: Size, bpp: u8, scenes: seq<Scene>, outcomes: seq<bool>, moments: seq<Moment>, reported: seq<Rect>) {
    && |outcomes| == |scenes| && |moments| == |scenes| + 1
    && forall key: Key | Opened(key) ::
         && (forall i | 0 <= i < |scenes| :: Happens(size, bpp, scenes[i], outcomes[i], moments[i], moments[i + 1]))
         && reported == Gathered(outcomes, moments)
         && Tight(moments[0].frame, size, bpp) && Tight(moments[|scenes|].frame, size, bpp)
         && (Addressable(size) && SeenThroughout(size, outcomes, moments) ==>
               FrameCovered(size, bpp, moments[0].frame, moments[|scenes|].frame, reported))
  }

  lemma RanFacts(size: Size, bpp: u8, scenes: seq<Scene>, outcomes: seq<bool>, moments: seq<Moment>, reported: seq<Rect>)
    requires Ran(size, bpp, scenes, outcomes, moments, reported)
    ensures forall i | 0 <= i < |scenes| :: Happens(size, bpp, scenes[i], outcomes[i], moments[i], moments[i + 1])
    ensures reported == Gathered(outcomes, moments)
    ensures Addressable(size) && SeenThroughout(size, outcomes, moments) ==>
              FrameCovered(size, bpp, moments[0].frame, moments[|scenes|].frame, reported)
  {
    Unlock();
  }

  lemma RanNothing(size: Size, bpp: u8, first: Moment)
    requires Tight(first.frame, size, bpp)
    ensures Ran(size, bpp, [], [], [first], [])
  {
  }

  lemma RanNext(size: Size, bpp: u8, scenes: seq<Scene>, outcomes: seq<bool>, moments: seq<Moment>, reported: seq<Rect>,
                scene: Scene, ok: bool, next: Moment)
    requires Ran(size, bpp, scenes, outcomes, moments, reported)
    requires Happens(size, bpp, scene, ok, moments[|scenes|], next) && StepCovered(size, bpp, ok, moments[|scenes|], next)
    ensures Ran(size, bpp, scenes + [scene], outcomes + [ok], moments + [next], reported + if ok then next.damage else [])
  {
    RanOn(size, bpp, scenes, outcomes, moments, reported, scene, ok, next);
    GatheredNext(outcomes, moments, ok, next);
    RanFacts(size, bpp, scenes, outcomes, moments, reported);
    RanCovered(size, bpp, scenes, outcomes, moments, reported, ok, next);
  }

  lemma RanOn(size: Size, bpp: u8, scenes: seq<Scene>, outcomes: seq<bool>, moments: seq<Moment>, reported: seq<Rect>,
              scene: Scene, ok: bool, next: Moment)
    requires Ran(size, bpp, scenes, outcomes, moments, reported)
    requires Happens(size, bpp, scene, ok, moments[|scenes|], next)
    ensures forall i | 0 <= i < |scenes| + 1 ::
              Happens(size, bpp, (scenes + [scene])[i], (outcomes + [ok])[i], (moments + [next])[i], (moments + [next])[i + 1])
  {
    RanFacts(size, bpp, scenes, outcomes, moments, reported);
    var allScenes, allOutcomes, all := scenes + [scene], outcomes + [ok], moments + [next];
    forall i | 0 <= i < |scenes| + 1 ensures Happens(size, bpp, allScenes[i], allOutcomes[i], all[i], all[i + 1]) {
      if i < |scenes| {
        assert all[i] == moments[i] && all[i + 1] == moments[i + 1] && allScenes[i] == scenes[i];
      }
    }
  }

  lemma RanCovered(size: Size, bpp: u8, scenes: seq<Scene>, outcomes: seq<bool>, moments: seq<Moment>, reported: seq<Rect>,
                   ok: bool, next: Moment)
    requires Ran(size, bpp, scenes, outcomes, moments, reported)
    requires StepCovered(size, bpp, ok, moments[|scenes|], next)
    ensures Tight(moments[0].frame, size, bpp) && Tight(next.frame, size, bpp)
    ensures Addressable(size) && SeenThroughout(size, outcomes + [ok], moments + [next]) ==>
              FrameCovered(size, bpp, moments[0].frame, next.frame, reported + if ok then next.damage else [])
  {
    RanFacts(size, bpp, scenes, outcomes, moments, reported);
    assert Tight(moments[0].frame, size, bpp) by {
      Unlock();
    }
    if Addressable(size) && SeenThroughout(size, outcomes + [ok], moments + [next]) {
      SeenBefore(size, outcomes, moments, ok, next);
      if ok {
        CoveredTrans(size, bpp, moments[0].frame, moments[|scenes|].frame, next.frame, reported, next.damage);
      }
      assert reported + [] == reported;
    }
  }

  lemma SeenBefore(size: Size, outcomes: seq<bool>, moments: seq<Moment>, ok: bool, next: Moment)
    requires |moments| == |outcomes| + 1 && SeenThroughout(size, outcomes + [ok], moments + [next])
    ensures SeenThroughout(size, outcomes, moments)
    ensures ok && moments[|outcomes|].once ==> SeenAll(size, moments[|outcomes|], next)
  {
    var allOutcomes, all := outcomes + [ok], moments + [next];
    forall i | 0 <= i < |outcomes| && outcomes[i] && moments[i].once ensures SeenAll(size, moments[i], moments[i + 1]) {
      assert allOutcomes[i] && all[i] == moments[i] && all[i + 1] == moments[i + 1];
    }
    assert all[|outcomes|] == moments[|outcomes|] && all[|outcomes| + 1] == next && allOutcomes[|outcomes|] == ok;
  }

  // ----- staging -----

  /** One staged surface: placed, and its image refreshed from its buffer if the commit is one not
      read before, or else the kept one. */
  ghost predicate StagedOne(view: StateView, store: BufferStore, bpp: u8, was: map<SurfaceKey, SurfaceImage>,
                            k: SurfaceKey, staged: SurfaceImage, origin: (int, int), redraw: bool)
  {
    && PlacedAt(view, k, origin.0, origin.1)
    && (k in was ==> Tight(was[k].image.bytes, was[k].image.size, bpp))
    && (redraw <==> Unread(view, was, k))
    && if redraw then
         staged.commit == None && ReadInto(view, store, bpp, was, k, staged.image)
       else
         k in was && staged == was[k] && was[k].commit == Some(CommitOf(view, k))
  }

  /** An image is what was kept of a surface, refreshed from the buffer of its commit. */
  ghost predicate ReadInto(view: StateView, store: BufferStore, bpp: u8, was: map<SurfaceKey, SurfaceImage>,
                           k: SurfaceKey, image: Image)
  {
    && BufferRead(view, store, k, bpp)
    && (k in was ==> Tight(was[k].image.bytes, was[k].image.size, bpp))
    && Refreshed(if k in was then Some(was[k].image) else None, store[BufferOf(view, k)],
                 view.surfaces[k].snapshot.value.damage, image)
  }

  /** Whether a composition reads a surface's buffer: its commit was not read before, and neither
      the surface nor any below it is refused. */
  ghost predicate Reads(view: StateView, store: BufferStore, bpp: u8, was: map<SurfaceKey, SurfaceImage>, k: SurfaceKey) {
    && Unread(view, was, k)
    && exists i :: 0 <= i < |view.stack| && view.stack[i] == k && FirstRefused(view, store, bpp, was, i + 1).None?
  }

  /** The images a failed composition leaves: what it read is refreshed and unmarked, everything
      else is as it was, and images are dropped only where the failure came after the staging, and
      then exactly those of surfaces not stacked. Folded. */
  ghost predicate LeftBehind(view: StateView, store: BufferStore, bpp: u8, was: map<SurfaceKey, SurfaceImage>,
                             now: map<SurfaceKey, SurfaceImage>)
  {
    forall key: Key | Opened(key) ::
      && (forall k :: k in now <==>
            || Reads(view, store, bpp, was, k)
            || (k in was && (FirstRefused(view, store, bpp, was, |view.stack|).None? ==> k in view.stack)))
      && (forall k | k in now ::
            if Reads(view, store, bpp, was, k) then
              now[k].commit == None && ReadInto(view, store, bpp, was, k, now[k].image)
            else k in was && now[k] == was[k])
  }

  /** Up to the first refusal, the surfaces read are those staged with a commit not read before. */
  lemma ReadsBelow(view: StateView, store: BufferStore, bpp: u8, was: map<SurfaceKey, SurfaceImage>, n: nat, k: SurfaceKey)
    requires NoDuplicates(view.stack) && n <= |view.stack| && FirstRefused(view, store, bpp, was, n).None?
    requires n < |view.stack| ==> StageRefused(view, store, bpp, was, view.stack[n]).Some?
    ensures Reads(view, store, bpp, was, k) <==> k in view.stack[..n] && Unread(view, was, k)
  {
    var none := i => 0 <= i <= |view.stack| && FirstRefused(view, store, bpp, was, i).None?;
    forall i | 0 <= i <= |view.stack| ensures none(i) <==> i <= n {
      NoneRefusedUpTo(view, store, bpp, was, i, n);
    }
    BelowIn(view.stack, k, n, none);
  }

  lemma BelowIn<K>(stack: seq<K>, k: K, n: nat, none: int -> bool)
    requires NoDuplicates(stack) && n <= |stack| && forall i | 0 <= i <= |stack| :: none(i) <==> i <= n
    ensures (exists i :: 0 <= i < |stack| && stack[i] == k && none(i + 1)) <==> k in stack[..n]
  {
    if k in stack[..n] {
      var i :| 0 <= i < n && stack[..n][i] == k;
      assert stack[i] == k && none(i + 1);
    }
  }

  lemma NoneRefusedUpTo(view: StateView, store: BufferStore, bpp: u8, was: map<SurfaceKey, SurfaceImage>, i: nat, n: nat)
    requires i <= |view.stack| && n <= |view.stack| && FirstRefused(view, store, bpp, was, n).None?
    requires n < |view.stack| ==> StageRefused(view, store, bpp, was, view.stack[n]).Some?
    ensures FirstRefused(view, store, bpp, was, i).None? <==> i <= n
  {
    if i <= n {
      NoneRefusedBelow(view, store, bpp, was, i, n);
    } else if FirstRefused(view, store, bpp, was, i).None? {
      NoneRefusedBelow(view, store, bpp, was, n + 1, i);
      assert false;
    }
  }

  lemma {:induction false} NoneRefusedBelow(view: StateView, store: BufferStore, bpp: u8,
                                            was: map<SurfaceKey, SurfaceImage>, i: nat, n: nat)
    requires i <= n <= |view.stack| && FirstRefused(view, store, bpp, was, n).None?
    ensures FirstRefused(view, store, bpp, was, i).None?
  {
    if i < n {
      NoneRefusedBelow(view, store, bpp, was, i, n - 1);
    }
  }

  /** What is staged of one surface is what a failed composition leaves of it. */
  lemma StagedLeft(view: StateView, store: BufferStore, bpp: u8, was: map<SurfaceKey, SurfaceImage>,
                   now: map<SurfaceKey, SurfaceImage>, origins: seq<(int, int)>, redrawn: set<SurfaceKey>, k: SurfaceKey)
    requires StagedSoFar(view.stack, StagingOf(view, store, bpp, was), was, now, origins, redrawn)
    ensures var read := k in view.stack[..|origins|] && Unread(view, was, k);
            && (k in now <==> read || k in was)
            && (k in now ==> if read then now[k].commit == None && ReadInto(view, store, bpp, was, k, now[k].image)
                             else k in was && now[k] == was[k])
  {
    if k in view.stack[..|origins|] {
      var i :| 0 <= i < |origins| && view.stack[i] == k;
      assert StagedOne(view, store, bpp, was, k, now[k], origins[i], k in redrawn);
    }
  }

  lemma StagedBelow(view: StateView, store: BufferStore, bpp: u8, was: map<SurfaceKey, SurfaceImage>,
                    now: map<SurfaceKey, SurfaceImage>, origins: seq<(int, int)>, redrawn: set<SurfaceKey>)
    requires NoDuplicates(view.stack) && RefusedAt(view, store, bpp, was, |origins|)
    requires StagedSoFar(view.stack, StagingOf(view, store, bpp, was), was, now, origins, redrawn)
    ensures LeftBehind(view, store, bpp, was, now)
  {
    Unlock();
    RefusedFrom(view, store, bpp, was, |origins|, |view.stack|);
    forall k: SurfaceKey
      ensures var read := k in view.stack[..|origins|] && Unread(view, was, k);
              && (Reads(view, store, bpp, was, k) <==> read)
              && (k in now <==> read || k in was)
              && (k in now ==> if read then now[k].commit == None && ReadInto(view, store, bpp, was, k, now[k].image)
                               else k in was && now[k] == was[k])
    {
      ReadsBelow(view, store, bpp, was, |origins|, k);
      StagedLeft(view, store, bpp, was, now, origins, redrawn, k);
    }
  }

  lemma StagedAll(view: StateView, store: BufferStore, bpp: u8, was: map<SurfaceKey, SurfaceImage>,
                  now: map<SurfaceKey, SurfaceImage>, origins: seq<(int, int)>, redrawn: set<SurfaceKey>)
    requires NoDuplicates(view.stack) && StagedFully(view, store, bpp, was, now, origins, redrawn)
    ensures LeftBehind(view, store, bpp, was, Stacked(view, now))
  {
    Unlock();
    assert view.stack[..|view.stack|] == view.stack;
    forall k: SurfaceKey
      ensures var read := k in view.stack[..|view.stack|] && Unread(view, was, k);
              && (Reads(view, store, bpp, was, k) <==> read)
              && (k in now <==> read || k in was)
              && (k in now ==> if read then now[k].commit == None && ReadInto(view, store, bpp, was, k, now[k].image)
                               else k in was && now[k] == was[k])
    {
      ReadsBelow(view, store, bpp, was, |view.stack|, k);
      StagedLeft(view, store, bpp, was, now, origins, redrawn, k);
    }
  }

  /** What makes one staged surface right: its key, image, origin, and whether it was read. */
  type Staging = (SurfaceKey, SurfaceImage, (int, int), bool) -> bool

  ghost function StagingOf(view: StateView, store: BufferStore, bpp: u8, was: map<SurfaceKey, SurfaceImage>)
    : (right: Staging)
  {
    (k, staged, origin, redraw) => StagedOne(view, store, bpp, was, k, staged, origin, redraw)
  }

  /** The surfaces staged so far are right, and every other kept image is as it was. */
  ghost predicate StagedSoFar(stack: seq<SurfaceKey>, right: Staging, was: map<SurfaceKey, SurfaceImage>,
                              now: map<SurfaceKey, SurfaceImage>, origins: seq<(int, int)>,
                              redrawn: set<SurfaceKey>)
  {
    && |origins| <= |stack| && was.Keys <= now.Keys
    && (forall k | k in now && k !in stack[..|origins|] :: k in was && now[k] == was[k])
    && (forall k | k in redrawn :: k in stack[..|origins|])
    && (forall i | 0 <= i < |origins| ::
          stack[i] in now && right(stack[i], now[stack[i]], origins[i], stack[i] in redrawn))
  }

  /** Every stacked surface is staged and none was refused. Folded. */
  ghost predicate StagedFully(view: StateView, store: BufferStore, bpp: u8, was: map<SurfaceKey, SurfaceImage>,
                              now: map<SurfaceKey, SurfaceImage>, origins: seq<(int, int)>, redrawn: set<SurfaceKey>)
  {
    forall key: Key | Opened(key) ::
      && |origins| == |view.stack| && FirstRefused(view, store, bpp, was, |view.stack|).None?
      && StagedSoFar(view.stack, StagingOf(view, store, bpp, was), was, now, origins, redrawn)
  }

  /** Where everything is staged, every commit that was new was ready. */
  lemma UnreadReady(view: StateView, store: BufferStore, bpp: u8, was: map<SurfaceKey, SurfaceImage>,
                    now: map<SurfaceKey, SurfaceImage>, origins: seq<(int, int)>, redrawn: set<SurfaceKey>)
    requires StagedFully(view, store, bpp, was, now, origins, redrawn)
    ensures forall k | k in view.stack && Unread(view, was, k) :: view.surfaces[k].ready == Some(true)
  {
    Unlock();
    forall k | k in view.stack && Unread(view, was, k) ensures view.surfaces[k].ready == Some(true) {
      var i :| 0 <= i < |view.stack| && view.stack[i] == k;
      assert StagedOne(view, store, bpp, was, k, now[k], origins[i], k in redrawn);
    }
  }

  lemma FullyKept(view: StateView, store: BufferStore, bpp: u8, was: map<SurfaceKey, SurfaceImage>,
                  now: map<SurfaceKey, SurfaceImage>, origins: seq<(int, int)>, redrawn: set<SurfaceKey>)
    requires StagedFully(view, store, bpp, was, now, origins, redrawn)
    ensures |origins| == |view.stack| && forall i | 0 <= i < |view.stack| :: view.stack[i] in now
  {
    Unlock();
  }

  lemma StagedStep(stack: seq<SurfaceKey>, right: Staging, was: map<SurfaceKey, SurfaceImage>,
                   before: map<SurfaceKey, SurfaceImage>, now: map<SurfaceKey, SurfaceImage>,
                   origins: seq<(int, int)>, redrawn: set<SurfaceKey>, origin: (int, int), redraw: bool)
    requires NoDuplicates(stack) && |origins| < |stack|
    requires StagedSoFar(stack, right, was, before, origins, redrawn)
    requires stack[|origins|] in now && now == before[stack[|origins|] := now[stack[|origins|]]]
    requires right(stack[|origins|], now[stack[|origins|]], origin, redraw)
    ensures StagedSoFar(stack, right, was, now, origins + [origin],
                        if redraw then redrawn + {stack[|origins|]} else redrawn)
  {
    var n, k := |origins|, stack[|origins|];
    assert stack[..n + 1] == stack[..n] + [k];
    assert k !in stack[..n];
    var all, read := origins + [origin], if redraw then redrawn + {k} else redrawn;
    forall i | 0 <= i < n ensures stack[i] in now && right(stack[i], now[stack[i]], all[i], stack[i] in read) {
      assert stack[i] in stack[..n] && stack[i] != k && all[i] == origins[i];
      assert now[stack[i]] == before[stack[i]] && (stack[i] in read <==> stack[i] in redrawn);
    }
    assert k !in redrawn;
  }

  lemma StagedOneFrom(view: StateView, store: BufferStore, bpp: u8, was: map<SurfaceKey, SurfaceImage>,
                      before: map<SurfaceKey, SurfaceImage>, k: SurfaceKey, staged: SurfaceImage,
                      origin: (int, int), redraw: bool)
    requires k in was <==> k in before
    requires k in was ==> was[k] == before[k]
    requires StagedOne(view, store, bpp, before, k, staged, origin, redraw)
    ensures StagedOne(view, store, bpp, was, k, staged, origin, redraw)
  {
  }

  /** An image still marked with a commit is untouched. */
  ghost predicate MarksKept(was: map<SurfaceKey, SurfaceImage>, now: map<SurfaceKey, SurfaceImage>) {
    forall k | k in now && now[k].commit.Some? :: k in was && now[k] == was[k]
  }

  /** Staging only ever takes a commit mark away; an image still marked is untouched. */
  lemma StagedCommits(view: StateView, store: BufferStore, bpp: u8, was: map<SurfaceKey, SurfaceImage>,
                      now: map<SurfaceKey, SurfaceImage>, origins: seq<(int, int)>, redrawn: set<SurfaceKey>)
    requires StagedSoFar(view.stack, StagingOf(view, store, bpp, was), was, now, origins, redrawn)
    ensures MarksKept(was, now)
  {
    forall k | k in now && now[k].commit.Some? ensures k in was && now[k] == was[k] {
      if k in view.stack[..|origins|] {
        var i :| 0 <= i < |origins| && view.stack[i] == k;
        assert StagedOne(view, store, bpp, was, k, now[k], origins[i], k in redrawn);
      }
    }
  }

  lemma LayersComposed(view: StateView, store: BufferStore, bpp: u8, was: map<SurfaceKey, SurfaceImage>,
                       kept: map<SurfaceKey, SurfaceImage>, origins: seq<(int, int)>,
                       redrawn: set<SurfaceKey>, layers: seq<Layer>)
    requires NoDuplicates(view.stack) && |origins| == |view.stack| == |layers|
    requires StagedSoFar(view.stack, StagingOf(view, store, bpp, was), was, kept, origins, redrawn)
    requires forall k | k in kept :: Tight(kept[k].image.bytes, kept[k].image.size, bpp)
                                     && |kept[k].image.bytes| <= I64_MAX
    requires forall i | 0 <= i < |layers| ::
               layers[i] == Layer(view.stack[i], origins[i].0, origins[i].1, kept[view.stack[i]].image)
    ensures Composed(view, StagingOf(view, store, bpp, was), redrawn, layers)
    ensures forall i | 0 <= i < |layers| :: view.stack[i] in kept && HasSnapshot(view, view.stack[i])
              && kept[view.stack[i]] == SurfaceImage(if view.stack[i] in redrawn then None
                                                     else Some(CommitOf(view, view.stack[i])), layers[i].image)
    ensures DistinctSurfaces(layers) && Drawable(layers, bpp) && Composable(layers)
  {
    forall i | 0 <= i < |layers|
      ensures && HasSnapshot(view, view.stack[i]) && layers[i].surface == view.stack[i]
              && -0x1_0000_0000 <= layers[i].originX <= 0x1_0000_0000
              && -0x1_0000_0000 <= layers[i].originY <= 0x1_0000_0000
              && StagedOne(view, store, bpp, was, view.stack[i],
                           SurfaceImage(if view.stack[i] in redrawn then None
                                        else Some(CommitOf(view, view.stack[i])), layers[i].image),
                           (layers[i].originX, layers[i].originY), view.stack[i] in redrawn)
    {
      var k := view.stack[i];
      assert StagedOne(view, store, bpp, was, k, kept[k], origins[i], k in redrawn);
      assert kept[k] == SurfaceImage(if k in redrawn then None else Some(CommitOf(view, k)), layers[i].image);
    }
  }

  lemma PlaceNext(now: map<SurfaceKey, Placement>, layers: seq<Layer>, depth: nat, out: Size)
    requires DistinctSurfaces(layers) && depth < |layers| && Places(now, layers[..depth], out)
    ensures var clip := ClipOf(out, layers[depth]);
            Places(if clip.Some? then now[layers[depth].surface := Placement(clip.value, depth)] else now,
                   layers[..depth + 1], out)
  {
    var clip := ClipOf(out, layers[depth]);
    var s, l := layers[..depth], layers[depth];
    var next := if clip.Some? then now[l.surface := Placement(clip.value, depth)] else now;
    var t := layers[..depth + 1];
    assert forall i | 0 <= i < depth :: t[i] == s[i] == layers[i];
    assert t[depth] == l;
    forall k | k in next ensures exists i :: 0 <= i < |t| && t[i].surface == k {
      if k in now {
        var i :| 0 <= i < |s| && s[i].surface == k;
        assert t[i].surface == k;
      } else {
        assert t[depth].surface == k;
      }
    }
    assert l.surface !in now;
  }

  ghost predicate ReportedAmong(ks: set<SurfaceKey>, placed: map<SurfaceKey, Placement>,
                                now: map<SurfaceKey, Placement>, redrawn: set<SurfaceKey>, px: int, py: int)
  {
    exists k :: k in ks && Contributes(placed, now, redrawn, k, px, py)
  }

  lemma CoveredBy(rects: seq<Rect>, more: seq<Rect>, px: int, py: int)
    ensures Covered(rects + more, px, py) <==> Covered(rects, px, py) || Covered(more, px, py)
  {
    var all := rects + more;
    if i :| 0 <= i < |rects| && InRect(rects[i], px, py) {
      assert all[i] == rects[i];
    }
    if i :| 0 <= i < |more| && InRect(more[i], px, py) {
      assert all[|rects| + i] == more[i];
    }
    if i :| 0 <= i < |all| && InRect(all[i], px, py) {
      assert if i < |rects| then all[i] == rects[i] else all[i] == more[i - |rects|];
    }
  }

  /** The rectangle list of `note_damage`: for each surface that is new, gone, moved, restacked
      or redrawn, the rectangle it left and the one it took. */
  method ChangedRects(placed: map<SurfaceKey, Placement>, now: map<SurfaceKey, Placement>, redrawn: set<SurfaceKey>)
    returns (damage: seq<Rect>)
    ensures forall px, py :: Covered(damage, px, py) <==> Reported(placed, now, redrawn, px, py)
  {
    damage := [];
    var left := now.Keys + placed.Keys;
    while left != {}
      invariant left <= now.Keys + placed.Keys
      invariant forall px, py :: Covered(damage, px, py)
                  <==> ReportedAmong(now.Keys + placed.Keys - left, placed, now, redrawn, px, py)
      decreases left
    {
      ghost var done, before := now.Keys + placed.Keys - left, damage;
      var k :| k in left;
      left := left - {k};
      var more := [];
      if k in now {
        if k in placed {
          if placed[k] != now[k] || k in redrawn {
            more := [placed[k].rect, now[k].rect];
          }
        } else {
          more := [now[k].rect];
        }
      } else {
        more := [placed[k].rect];
      }
      damage := damage + more;
      assert now.Keys + placed.Keys - left == done + {k};
      forall px, py
        ensures Covered(damage, px, py) <==> ReportedAmong(done + {k}, placed, now, redrawn, px, py)
      {
        CoveredBy(before, more, px, py);
        assert Covered(more, px, py) <==> Contributes(placed, now, redrawn, k, px, py) by {
          if |more| > 0 { assert InRect(more[0], px, py) ==> Covered(more, px, py); }
          if |more| > 1 { assert InRect(more[1], px, py) ==> Covered(more, px, py); }
        }
      }
    }
    assert now.Keys + placed.Keys - left == now.Keys + placed.Keys;
  }

  predicate HasSnapshot(view: StateView, surface: SurfaceKey) {
    surface in view.surfaces && view.surfaces[surface].snapshot.Some?
  }

  function CommitOf(view: StateView, surface: SurfaceKey): CommitId
    requires HasSnapshot(view, surface)
  {
    view.surfaces[surface].snapshot.value.commit
  }

  function BufferOf(view: StateView, surface: SurfaceKey): BufferKey
    requires HasSnapshot(view, surface)
  {
    BufferKey(surface.connection, view.surfaces[surface].snapshot.value.buffer)
  }

  /** A surface's origin is its scene position plus the offset its buffer was attached with. */
  ghost predicate PlacedAt(view: StateView, surface: SurfaceKey, x: int, y: int) {
    && HasSnapshot(view, surface) && view.surfaces[surface].position.Some?
    && x == view.surfaces[surface].position.value.x + view.surfaces[surface].snapshot.value.offset.x
    && y == view.surfaces[surface].position.value.y + view.surfaces[surface].snapshot.value.offset.y
  }

  /** The buffer a commit names was there, held for exactly that commit, which was ready, and validated. */
  ghost predicate BufferRead(view: StateView, store: BufferStore, surface: SurfaceKey, bpp: u8) {
    && HasSnapshot(view, surface) && view.surfaces[surface].ready == Some(true)
    && var key := BufferOf(view, surface);
       && key in view.buffers && key in store
       && view.buffers[key].state == CompositorHeld(surface, CommitOf(view, surface))
       && view.buffers[key].descriptor == store[key].descriptor
       && store[key].bpp == bpp && Readable(store[key].descriptor, bpp, |store[key].bytes|)
  }
}
