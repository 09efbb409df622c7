/** The images an output keeps of surfaces over a run of compositions, failed ones among them: every
    pixel is that of the last buffer that was read there. */
module KeptImages {
  import opened Basics
  import opened Geometry
  import opened Model
  import opened Blit
  import opened Painter
  import opened SoftwareOutput

  /** Whether a composition copies a pixel of a surface's buffer into the image kept of it: it reads
      the buffer, and the image is new, of another size, or damaged there. */
  ghost predicate Copies(scene: Scene, bpp: u8, was: map<SurfaceKey, SurfaceImage>, k: SurfaceKey, x: nat, y: nat) {
    && Reads(scene.view, scene.store, bpp, was, k) && BufferRead(scene.view, scene.store, k, bpp)
    && var size := scene.store[BufferOf(scene.view, k)].descriptor.size;
       && x < size.width && y < size.height
       && (k !in was || was[k].image.size != size || Damaged(scene.view.surfaces[k].snapshot.value.damage, x, y))
  }

  /** The pixel of the buffer a surface has in a scene. */
  ghost function Source(scene: Scene, bpp: u8, k: SurfaceKey, x: nat, y: nat): seq<byte>
    requires BufferRead(scene.view, scene.store, k, bpp)
    requires x < scene.store[BufferOf(scene.view, k)].descriptor.size.width
    requires y < scene.store[BufferOf(scene.view, k)].descriptor.size.height
  {
    BufferPixel(scene.store[BufferOf(scene.view, k)], x, y)
  }

  /** A pixel of an image that has one there. */
  ghost predicate Holds(images: map<SurfaceKey, SurfaceImage>, bpp: u8, k: SurfaceKey, x: nat, y: nat, pixel: seq<byte>) {
    && k in images && Tight(images[k].image.bytes, images[k].image.size, bpp)
    && x < images[k].image.size.width && y < images[k].image.size.height
    && ImagePixel(images[k].image.size, images[k].image.bytes, bpp, x, y) == pixel
  }

  /** A run of compositions. */
  ghost predicate RunOf(size: Size, bpp: u8, scenes: seq<Scene>, outcomes: seq<bool>, moments: seq<Moment>) {
    && |outcomes| == |scenes| && |moments| == |scenes| + 1
    && (forall i | 0 <= i < |scenes| :: NoDuplicates(scenes[i].view.stack))
    && (forall i | 0 <= i < |scenes| :: Happens(size, bpp, scenes[i], outcomes[i], moments[i], moments[i + 1]))
  }

  /** A surface's image was read from its buffer, or else is the one kept before. */
  ghost predicate Carried(view: StateView, store: BufferStore, bpp: u8, was: map<SurfaceKey, SurfaceImage>, k: SurfaceKey,
                          image: Image)
  {
    if Reads(view, store, bpp, was, k) then ReadInto(view, store, bpp, was, k, image)
    else k in was && image == was[k].image
  }

  /** Whether it succeeds or fails, a composition keeps only images carried like that. */
  lemma StepCarries(size: Size, bpp: u8, scene: Scene, ok: bool, a: Moment, b: Moment, k: SurfaceKey)
    requires NoDuplicates(scene.view.stack) && Happens(size, bpp, scene, ok, a, b) && k in b.images
    ensures Carried(scene.view, scene.store, bpp, a.images, k, b.images[k].image)
  {
    Unlock();
    if ok {
      var i :| 0 <= i < |scene.view.stack| && scene.view.stack[i] == k;
      assert scene.view.stack[..|scene.view.stack|] == scene.view.stack;
      ReadsBelow(scene.view, scene.store, bpp, a.images, |scene.view.stack|, k);
      assert b.images[k].image == b.shown[i].image;
      assert StagedOne(scene.view, scene.store, bpp, a.images, k,
                       SurfaceImage(if k in b.redrawn then None else Some(CommitOf(scene.view, k)), b.shown[i].image),
                       (b.shown[i].originX, b.shown[i].originY), k in b.redrawn);
    }
  }

  /** One pixel after one composition: copied, or as it was. */
  lemma PixelCarried(scene: Scene, bpp: u8, was: map<SurfaceKey, SurfaceImage>, now: map<SurfaceKey, SurfaceImage>,
                     k: SurfaceKey, x: nat, y: nat, pixel: seq<byte>)
    requires Holds(now, bpp, k, x, y, pixel) && Carried(scene.view, scene.store, bpp, was, k, now[k].image)
    ensures if Copies(scene, bpp, was, k, x, y) then pixel == Source(scene, bpp, k, x, y) else Holds(was, bpp, k, x, y, pixel)
  {
  }

  /** The last of the first `n` compositions that copied this pixel, or -1. */
  ghost function LastCopy(bpp: u8, scenes: seq<Scene>, moments: seq<Moment>, n: nat, k: SurfaceKey, x: nat, y: nat): (last: int)
    requires n <= |scenes| < |moments|
    ensures -1 <= last < n && (last >= 0 ==> Copies(scenes[last], bpp, moments[last].images, k, x, y))
    ensures forall j | last < j < n :: !Copies(scenes[j], bpp, moments[j].images, k, x, y)
  {
    if n == 0 then -1
    else if Copies(scenes[n - 1], bpp, moments[n - 1].images, k, x, y) then n - 1
    else LastCopy(bpp, scenes, moments, n - 1, k, x, y)
  }

  /** After any part of a run, a pixel of a kept image is that of the last buffer read there, or the
      one it had at the start. */
  lemma {:induction false} LastBufferRead(size: Size, bpp: u8, scenes: seq<Scene>, outcomes: seq<bool>, moments: seq<Moment>,
                                          n: nat, k: SurfaceKey, x: nat, y: nat, pixel: seq<byte>)
    requires RunOf(size, bpp, scenes, outcomes, moments) && n <= |scenes|
    requires Holds(moments[n].images, bpp, k, x, y, pixel)
    ensures var last := LastCopy(bpp, scenes, moments, n, k, x, y);
            if last >= 0 then pixel == Source(scenes[last], bpp, k, x, y) else Holds(moments[0].images, bpp, k, x, y, pixel)
  {
    if n > 0 {
      StepCarries(size, bpp, scenes[n - 1], outcomes[n - 1], moments[n - 1], moments[n], k);
      PixelCarried(scenes[n - 1], bpp, moments[n - 1].images, moments[n].images, k, x, y, pixel);
      if !Copies(scenes[n - 1], bpp, moments[n - 1].images, k, x, y) {
        LastBufferRead(size, bpp, scenes, outcomes, moments, n - 1, k, x, y, pixel);
      }
    }
  }

  /** From an output that keeps no images yet, whatever failed in between: every pixel of a frame
      just published under a surface is that of the last buffer read there, and every other is zero. */
  lemma FrameShowsLastRead(size: Size, bpp: u8, scenes: seq<Scene>, outcomes: seq<bool>, moments: seq<Moment>, n: nat,
                           x: nat, y: nat)
    requires RunOf(size, bpp, scenes, outcomes, moments) && moments[0].images == map[]
    requires 0 < n <= |scenes| && outcomes[n - 1] && x < size.width && y < size.height
    ensures var after, top := moments[n], Topmost(moments[n].shown, x, y);
            && |after.shown| == |scenes[n - 1].view.stack| && Tight(after.frame, size, bpp)
            && if top < 0 then ImagePixel(size, after.frame, bpp, x, y) == seq(bpp, _ => 0)
               else
                 var l := after.shown[top];
                 && l.surface == scenes[n - 1].view.stack[top]
                 && PlacedAt(scenes[n - 1].view, l.surface, l.originX, l.originY)
                 && var last := LastCopy(bpp, scenes, moments, n, l.surface, x - l.originX, y - l.originY);
                    && last >= 0
                    && ImagePixel(size, after.frame, bpp, x, y)
                       == Source(scenes[last], bpp, l.surface, x - l.originX, y - l.originY)
  {
    var scene, after, top := scenes[n - 1], moments[n], Topmost(moments[n].shown, x, y);
    Published(size, bpp, scene, moments[n - 1], after);
    if top >= 0 {
      var l := after.shown[top];
      ShownKept(size, bpp, scene, moments[n - 1], after, top);
      LastBufferRead(size, bpp, scenes, outcomes, moments, n, l.surface, x - l.originX, y - l.originY,
                     LayerPixel(l, bpp, x, y));
    }
  }

  lemma Published(size: Size, bpp: u8, scene: Scene, a: Moment, b: Moment)
    requires Happens(size, bpp, scene, true, a, b)
    ensures |b.shown| == |scene.view.stack| && Shows(b.frame, size, bpp, b.shown)
  {
    Unlock();
  }

  /** What is shown of a stacked surface is the image kept of it, where the scene places it. */
  lemma ShownKept(size: Size, bpp: u8, scene: Scene, a: Moment, b: Moment, i: nat)
    requires Happens(size, bpp, scene, true, a, b) && i < |b.shown| == |scene.view.stack|
    ensures var l := b.shown[i];
            && l.surface == scene.view.stack[i] && l.surface in b.images && b.images[l.surface].image == l.image
            && PlacedAt(scene.view, l.surface, l.originX, l.originY)
  {
    Unlock();
    var k := scene.view.stack[i];
    assert StagedOne(scene.view, scene.store, bpp, a.images, k,
                     SurfaceImage(if k in b.redrawn then None else Some(CommitOf(scene.view, k)), b.shown[i].image),
                     (b.shown[i].originX, b.shown[i].originY), k in b.redrawn);
  }
}
