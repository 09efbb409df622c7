/** What a composition demands of a surface before it reads it, said of the scene itself: when a
    surface is staged, when its buffer and its damage are accepted, and what each refusal means. */
module Staging {
  import opened Basics
  import opened Geometry
  import opened Model
  import opened SoftwareOutput

  /** A buffer is accepted exactly when it is shared memory, has an area, its rows do not overlap and
      are long enough, the last row ends within the length declared, and the backing has that length. */
  lemma ValidatedIff(d: BufferDescriptor, bpp: u8, backing: nat)
    ensures ValidateForLayout(d, bpp, backing).None?
            <==> && d.transport == SoftwareShm && d.size.width > 0 && d.size.height > 0
                 && d.stride >= d.size.width && d.stride >= d.size.width * bpp
                 && (d.size.height - 1) * d.stride + d.size.width * bpp <= d.byteLen <= backing
  {
    if d.size.width > 0 && d.size.height > 0 {
      MulMonotone(d.size.width, U32_MAX, bpp);
      MulMonotone(d.size.height - 1, U32_MAX - 1, d.stride);
      MulMonotone(d.stride, U32_MAX, U32_MAX - 1);
    }
  }

  /** What each reason for which a buffer is not accepted says of it. */
  lemma InvalidMeans(d: BufferDescriptor, bpp: u8, backing: nat)
    ensures match ValidateForLayout(d, bpp, backing)
            case None => true
            case Some(UnsupportedTransport) => d.transport == GpuPrime
            case Some(ZeroAreaSurface) => d.size.width * d.size.height == 0
            case Some(StrideSmallerThanWidth) => d.stride < d.size.width
            case Some(StrideTooSmallForPixelRow) => d.size.width <= d.stride < d.size.width * bpp
            case Some(BufferTooSmallForDeclaredGeometry) =>
              d.byteLen < (d.size.height - 1) * d.stride + d.size.width * bpp
            case Some(BackingStoreTooSmall) => backing < d.byteLen
            case Some(ArithmeticOverflow) => false
  {
    ValidatedIff(d, bpp, backing);
    if d.size.width > 0 && d.size.height > 0 {
      MulMonotone(d.size.width, U32_MAX, bpp);
      MulMonotone(d.size.height - 1, U32_MAX - 1, d.stride);
      MulMonotone(d.stride, U32_MAX, U32_MAX - 1);
    }
  }

  /** A damage rectangle with an area is accepted exactly when every pixel of it is the surface's. */
  lemma InsideIff(size: Size, rect: Rect)
    requires rect.width > 0 && rect.height > 0
    ensures DamageInside(size, Area(rect))
            <==> forall x: int, y: int | InRect(rect, x, y) :: 0 <= x < size.width && 0 <= y < size.height
  {
    if forall x: int, y: int | InRect(rect, x, y) :: 0 <= x < size.width && 0 <= y < size.height {
      assert InRect(rect, rect.x, rect.y);
      assert InRect(rect, rect.x + rect.width - 1, rect.y + rect.height - 1);
    }
  }

  /** A surface is staged exactly when it has content and a place, and either that content was read
      before or it is ready, its buffer is the one described, held for it and valid, and its damage
      lies inside. */
  lemma StagedIff(view: StateView, store: BufferStore, bpp: u8, was: map<SurfaceKey, SurfaceImage>, k: SurfaceKey)
    ensures StageRefused(view, store, bpp, was, k).None?
            <==> && HasSnapshot(view, k) && view.surfaces[k].position.Some?
                 && (|| (k in was && was[k].commit == Some(CommitOf(view, k)))
                     || (&& BufferRead(view, store, k, bpp)
                         && ValidateForLayout(store[BufferOf(view, k)].descriptor, bpp, |store[BufferOf(view, k)].bytes|).None?
                         && forall d | d in view.surfaces[k].snapshot.value.damage ::
                              DamageInside(store[BufferOf(view, k)].descriptor.size, d)))
  {
    if HasSnapshot(view, k) {
      var key := BufferOf(view, k);
      if key in store && ValidateForLayout(store[key].descriptor, bpp, |store[key].bytes|).None? {
        ValidatedIsReadable(store[key].descriptor, bpp, |store[key].bytes|);
      }
    }
  }

  /** What each reason for which a surface is not staged says of it. */
  ghost predicate Says(view: StateView, store: BufferStore, bpp: u8, was: map<SurfaceKey, SurfaceImage>, k: SurfaceKey,
                       e: ComposeError)
  {
    match e
    case MissingSurfaceState(s) => s == k && !HasSnapshot(view, k)
    case MissingSurfacePosition(s) => s == k && k in view.surfaces && view.surfaces[k].position.None?
    case StateChanged(s) => s == k && Unread(view, was, k) && view.surfaces[k].ready.None?
    case CommitNotReady(s) => s == k && Unread(view, was, k) && view.surfaces[k].ready == Some(false)
    case DamageRectangleOutsideSurface(s, area) =>
      && s == k && Unread(view, was, k) && Area(area) in view.surfaces[k].snapshot.value.damage
      && BufferOf(view, k) in store && !DamageInside(store[BufferOf(view, k)].descriptor.size, Area(area))
    case _ => Unread(view, was, k) && e.buffer == BufferOf(view, k) && SaysOfBuffer(view, store, bpp, k, e)
  }

  ghost predicate SaysOfBuffer(view: StateView, store: BufferStore, bpp: u8, k: SurfaceKey, e: ComposeError)
    requires HasSnapshot(view, k)
  {
    var b := BufferOf(view, k);
    match e
    case MissingBufferDescriptor(_) => b !in view.buffers
    case MissingBuffer(_) => b !in store
    case BufferDescriptorMismatch(_) => b in view.buffers && b in store && store[b].descriptor != view.buffers[b].descriptor
    case PixelLayoutMismatch(_) => b in store && store[b].bpp != bpp
    case BufferNotHeld(_) => b in view.buffers && view.buffers[b].state != CompositorHeld(k, CommitOf(view, k))
    case InvalidBuffer(_, reason) =>
      b in store && ValidateForLayout(store[b].descriptor, bpp, |store[b].bytes|) == Some(reason)
    case _ => false
  }

  lemma RefusalMeans(view: StateView, store: BufferStore, bpp: u8, was: map<SurfaceKey, SurfaceImage>, k: SurfaceKey)
    ensures var e := StageRefused(view, store, bpp, was, k);
            e.Some? ==> Says(view, store, bpp, was, k, e.value)
  {
    if HasSnapshot(view, k) && BufferOf(view, k) in store {
      FirstOutside(store[BufferOf(view, k)].descriptor.size, view.surfaces[k].snapshot.value.damage);
    }
  }

  lemma {:induction false} FirstOutside(size: Size, damage: seq<Damage>)
    ensures var r := RefusedDamage(size, damage);
            r.Some? ==> Area(r.value) in damage && !DamageInside(size, Area(r.value))
  {
    if damage != [] {
      FirstOutside(size, damage[1..]);
    }
  }

  /** A composition of a run succeeds only if every commit it had not read was ready, and whatever it
      reads, it reads from a commit that was. */
  lemma ReadWhenReady(size: Size, bpp: u8, scene: Scene, ok: bool, a: Moment, b: Moment, k: SurfaceKey)
    requires Happens(size, bpp, scene, ok, a, b)
    ensures ok && k in scene.view.stack && Unread(scene.view, a.images, k) ==> scene.view.surfaces[k].ready == Some(true)
    ensures k in b.images && !(k in a.images && b.images[k].image == a.images[k].image) ==>
              k in scene.view.surfaces && scene.view.surfaces[k].ready == Some(true)
  {
    Unlock();
    if ok && (k in scene.view.stack || k in b.images) {
      var i :| 0 <= i < |scene.view.stack| && scene.view.stack[i] == k;
      assert StagedOne(scene.view, scene.store, bpp, a.images, k,
                       SurfaceImage(if k in b.redrawn then None else Some(CommitOf(scene.view, k)), b.shown[i].image),
                       (b.shown[i].originX, b.shown[i].originY), k in b.redrawn);
    }
  }
}
