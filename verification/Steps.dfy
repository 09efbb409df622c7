/** The local changes a step makes between events, as functions on the state, and that each keeps
    what holds between steps. */
module Steps {
  import opened Basics
  import opened Geometry
  import opened Model
  import opened Registry
  import opened World
  import opened Cascade

  // ----- replacing one object -----

  function WithObject(cs: Clients, k: ObjectKey, o: Object): Clients
    requires k.connection in cs
  {
    var client := cs[k.connection];
    cs[k.connection := client.(registry := client.registry.(live := client.registry.live[k.objectId := o]))]
  }

  lemma WithObjectLookup(cs: Clients, k: ObjectKey, o: Object, c: ConnectionId, id: ObjectId)
    requires k.connection in cs
    ensures Lookup(WithObject(cs, k, o), c, id) == if SurfaceKey(c, id) == k then Some(o) else Lookup(cs, c, id)
  {
  }

  /** The state with one object's value replaced. */
  function Put(w: World, k: ObjectKey, o: Object): World
    requires k.connection in w.clients
  {
    w.(clients := WithObject(w.clients, k, o))
  }

  // ----- changes that leave windows, names, identifiers and the queue alone -----

  /** One connection's registry has the same identifiers, and as many events wait. */
  predicate SameIds(a: Connection, b: Connection) {
    && a.pendingEvents == b.pendingEvents && a.registry.used == b.registry.used && a.registry.order == b.registry.order
    && a.registry.live.Keys == b.registry.live.Keys
  }

  predicate SameWindow(cs: Clients, ds: Clients, k: ObjectKey) {
    && (IsToplevel(ds, k) <==> IsToplevel(cs, k))
    && (IsToplevel(ds, k) ==> HandleOf(ds, k) == HandleOf(cs, k) && WindowSurface(ds, k) == WindowSurface(cs, k))
  }

  /** The same identifiers and windows; objects that are not windows may differ. */
  ghost predicate SameObjects(cs: Clients, ds: Clients) {
    && ds.Keys == cs.Keys
    && (forall c | c in cs :: SameIds(cs[c], ds[c]))
    && (forall k: ObjectKey :: SameWindow(cs, ds, k))
  }

  /** Only objects that are not windows, the scene, the focus and the commit counter differ. */
  ghost predicate SameShape(w: World, v: World) {
    && v == w.(clients := v.clients, positions := v.positions, stack := v.stack, nextCommit := v.nextCommit,
               keyboardFocus := v.keyboardFocus, pointerTarget := v.pointerTarget)
    && SameObjects(w.clients, v.clients)
  }

  lemma ShapeWindows(w: World, v: World, x: Dying)
    requires SameShape(w, v) && WindowsSound(w, x)
    ensures WindowsSound(v, x)
  {
    forall h | h in v.toplevels ensures IsToplevel(v.clients, v.toplevels[h]) && HandleOf(v.clients, v.toplevels[h]) == h {
      assert SameWindow(w.clients, v.clients, v.toplevels[h]);
    }
    forall k | IsToplevel(v.clients, k)
      ensures IsToplevel(w.clients, k) && HandleOf(v.clients, k) == HandleOf(w.clients, k)
              && WindowSurface(v.clients, k) == WindowSurface(w.clients, k)
    {
      assert SameWindow(w.clients, v.clients, k);
    }
  }

  lemma ShapeIds(w: World, v: World, x: Dying)
    requires SameShape(w, v) && IdsSound(w, x)
    ensures IdsSound(v, x)
  {
    forall c | c in v.clients ensures c < v.nextConnection && Sound(v.clients[c].registry, DyingIn(c, x)) {
      assert SameIds(w.clients[c], v.clients[c]);
    }
    forall c, id | c in v.clients && (x != Some(SurfaceKey(c, id)) || id in v.clients[c].registry.live)
      ensures IdHistory(v.log, c, id) == if id in v.clients[c].registry.used then Taken else Unused
    {
      assert SameIds(w.clients[c], v.clients[c]);
    }
  }

  lemma ShapeQueue(w: World, v: World)
    requires SameShape(w, v) && QueueSound(w)
    ensures QueueSound(v)
  {
    forall c | c in v.clients ensures v.clients[c].pendingEvents == |EventsFor(v.events, c)| <= v.limit {
      assert SameIds(w.clients[c], v.clients[c]);
    }
  }

  lemma ShapeNames(w: World, v: World)
    requires SameShape(w, v) && NamesSound(w)
    ensures NamesSound(v)
  {
  }

  /** What holds still holds, given that the scene and the buffers are still sound. */
  lemma ShapeHolds(w: World, v: World, x: Dying)
    requires Holds(w, x) && SameShape(w, v) && SceneSound(v, x) && BuffersSound(v)
    ensures Holds(v, x)
  {
    Unlock();
    ShapeWindows(w, v, x);
    ShapeIds(w, v, x);
    ShapeQueue(w, v);
    ShapeNames(w, v);
  }

  lemma PutShape(w: World, k: ObjectKey, o: Object)
    requires Lookup(w.clients, k.connection, k.objectId).Some?
    requires KindOf(Lookup(w.clients, k.connection, k.objectId).value) == KindOf(o) != Toplevel
    ensures SameShape(w, Put(w, k, o))
  {
    ReplacedShape(w.clients, k, o);
  }

  lemma ObjectsTrans(a: Clients, b: Clients, c: Clients)
    requires SameObjects(a, b) && SameObjects(b, c)
    ensures SameObjects(a, c)
  {
    forall k: ObjectKey ensures SameWindow(a, c, k) {
      assert SameWindow(a, b, k) && SameWindow(b, c, k);
    }
    forall n | n in a ensures SameIds(a[n], c[n]) {
      assert SameIds(a[n], b[n]) && SameIds(b[n], c[n]);
    }
  }

  // ----- buffers going back to their clients -----

  function Released(w: World, b: ObjectKey): World
    requires LiveBuffer(w.clients, b.connection, b.objectId)
  {
    Put(w, b, Lookup(w.clients, b.connection, b.objectId).value.(held := Available))
  }

  lemma PutBufferSurfaces(w: World, b: ObjectKey, o: Object, k: SurfaceKey)
    requires LiveBuffer(w.clients, b.connection, b.objectId) && o.BufferObject?
    ensures SurfaceOf(Put(w, b, o).clients, k) == SurfaceOf(w.clients, k)
  {
    WithObjectLookup(w.clients, b, o, k.connection, k.objectId);
  }

  lemma PutBufferScene(w: World, b: ObjectKey, o: Object, x: Dying)
    requires SceneSound(w, x) && LiveBuffer(w.clients, b.connection, b.objectId) && o.BufferObject?
    ensures SceneSound(Put(w, b, o), x)
  {
    forall k ensures SurfaceOf(Put(w, b, o).clients, k) == SurfaceOf(w.clients, k) {
      PutBufferSurfaces(w, b, o, k);
    }
    forall k | HasContent(Put(w, b, o).clients, k) && x != Some(k) ensures k in w.stack {
      assert HasContent(w.clients, k);
    }
  }

  lemma PutBufferSound(w: World, b: ObjectKey, o: Object)
    requires BuffersSound(w) && LiveBuffer(w.clients, b.connection, b.objectId) && o.BufferObject?
    requires BufferSound(w, b.connection, b.objectId, o.held)
    ensures BuffersSound(Put(w, b, o))
  {
    var v := Put(w, b, o);
    forall c, id ensures Lookup(v.clients, c, id) == if SurfaceKey(c, id) == b then Some(o) else Lookup(w.clients, c, id) {
      WithObjectLookup(w.clients, b, o, c, id);
    }
    forall k ensures SurfaceOf(v.clients, k) == SurfaceOf(w.clients, k) {
      PutBufferSurfaces(w, b, o, k);
    }
    forall c, id | LiveBuffer(v.clients, c, id) ensures BufferSound(v, c, id, Lookup(v.clients, c, id).value.held) {
      if SurfaceKey(c, id) != b {
        assert LiveBuffer(w.clients, c, id);
        assert BufferSound(w, c, id, Lookup(w.clients, c, id).value.held);
      }
    }
    forall k | SurfaceOf(v.clients, k).Some?
      ensures SurfaceNamesLive(v, k.connection, SurfaceOf(v.clients, k).value)
    {
      assert SurfaceNamesLive(w, k.connection, SurfaceOf(w.clients, k).value);
    }
  }

  /** A buffer may change hands to any state sound for it. */
  lemma PutBufferHolds(w: World, b: ObjectKey, o: Object, x: Dying)
    requires Holds(w, x) && LiveBuffer(w.clients, b.connection, b.objectId) && o.BufferObject?
    requires BufferSound(w, b.connection, b.objectId, o.held)
    ensures Holds(Put(w, b, o), x)
  {
    Unlock();
    PutBufferScene(w, b, o, x);
    PutBufferSound(w, b, o);
    PutShape(w, b, o);
    ShapeHolds(w, Put(w, b, o), x);
  }

  lemma ReleasedHolds(w: World, b: ObjectKey, x: Dying)
    requires Holds(w, x) && LiveBuffer(w.clients, b.connection, b.objectId)
    ensures Holds(Released(w, b), x)
  {
    Unlock();
    PutBufferHolds(w, b, Lookup(w.clients, b.connection, b.objectId).value.(held := Available), x);
  }

  // ----- surfaces -----

  lemma PutSurfaceLookups(w: World, k: SurfaceKey, s: SurfaceState)
    requires SurfaceOf(w.clients, k).Some?
    ensures var v := Put(w, k, SurfaceObject(s));
            && (forall l :: SurfaceOf(v.clients, l) == if l == k then Some(s) else SurfaceOf(w.clients, l))
            && (forall c, id :: LiveBuffer(v.clients, c, id) <==> LiveBuffer(w.clients, c, id))
            && (forall c, id | LiveBuffer(w.clients, c, id) :: Lookup(v.clients, c, id) == Lookup(w.clients, c, id))
            && (forall c, id :: LiveFence(v.clients, c, id) <==> LiveFence(w.clients, c, id))
  {
    var v := Put(w, k, SurfaceObject(s));
    forall c, id
      ensures Lookup(v.clients, c, id) == if SurfaceKey(c, id) == k then Some(SurfaceObject(s)) else Lookup(w.clients, c, id)
    {
      WithObjectLookup(w.clients, k, SurfaceObject(s), c, id);
    }
  }

  lemma PutSurfaceScene(w: World, k: SurfaceKey, s: SurfaceState, x: Dying)
    requires SceneSound(w, x) && SurfaceOf(w.clients, k).Some?
    requires s.current.Some? ==> k in w.stack
    ensures SceneSound(Put(w, k, SurfaceObject(s)), x)
  {
    var v := Put(w, k, SurfaceObject(s));
    PutSurfaceLookups(w, k, s);
    forall l | HasContent(v.clients, l) && x != Some(l) ensures l in v.stack {
      if l != k {
        assert HasContent(w.clients, l);
      }
    }
  }

  lemma PutSurfaceBuffers(w: World, k: SurfaceKey, s: SurfaceState)
    requires BuffersSound(w) && SurfaceOf(w.clients, k).Some?
    requires SurfaceNamesLive(w, k.connection, s)
    requires forall id | LiveBuffer(w.clients, k.connection, id) ::
               BufferFits(k, id, Lookup(w.clients, k.connection, id).value.held, s)
    ensures BuffersSound(Put(w, k, SurfaceObject(s)))
  {
    var v := Put(w, k, SurfaceObject(s));
    PutSurfaceLookups(w, k, s);
    forall c, id | LiveBuffer(v.clients, c, id) ensures BufferSound(v, c, id, Lookup(v.clients, c, id).value.held) {
      assert BufferSound(w, c, id, Lookup(w.clients, c, id).value.held);
      if c == k.connection {
        assert BufferFits(k, id, Lookup(w.clients, c, id).value.held, s);
      }
    }
    forall l | SurfaceOf(v.clients, l).Some?
      ensures SurfaceNamesLive(v, l.connection, SurfaceOf(v.clients, l).value)
    {
      if l != k {
        assert SurfaceNamesLive(w, l.connection, SurfaceOf(w.clients, l).value);
      }
    }
  }

  /** A surface's state may change while its content, what is attached to it and the commit it
      shows stay sound. */
  lemma PutSurfaceHolds(w: World, k: SurfaceKey, s: SurfaceState, x: Dying)
    requires Holds(w, x) && SurfaceOf(w.clients, k).Some?
    requires SurfaceNamesLive(w, k.connection, s)
    requires s.current.Some? ==> k in w.stack
    requires forall id | LiveBuffer(w.clients, k.connection, id) ::
               BufferFits(k, id, Lookup(w.clients, k.connection, id).value.held, s)
    ensures Holds(Put(w, k, SurfaceObject(s)), x)
  {
    Unlock();
    PutSurfaceScene(w, k, s, x);
    PutSurfaceBuffers(w, k, s);
    PutShape(w, k, SurfaceObject(s));
    ShapeHolds(w, Put(w, k, SurfaceObject(s)), x);
  }

  /** A buffer's state, where it names surface `k`, agrees with the surface's new state. */
  predicate BufferFits(k: SurfaceKey, b: ObjectId, held: BufferState, s: SurfaceState) {
    match held
    case Available => true
    case Pending(l) => l == k ==> s.attachment.Set? && s.attachment.buffer == b
    case CompositorHeld(l, m) =>
      l == k && s.current.Some? ==>
        m <= s.current.value.commit && (m == s.current.value.commit ==> s.current.value.buffer == b)
  }

  // ----- the scene -----

  /** Only the scene and the focus differ. */
  ghost predicate SceneOnly(w: World, v: World) {
    v == w.(positions := v.positions, stack := v.stack, keyboardFocus := v.keyboardFocus, pointerTarget := v.pointerTarget)
  }

  /** Whether buffers are sound depends on the objects and the commit counter alone. */
  lemma BuffersDepend(w: World, v: World)
    requires BuffersSound(w) && v.clients == w.clients && w.nextCommit <= v.nextCommit
    ensures BuffersSound(v)
  {
    forall c, id | LiveBuffer(v.clients, c, id) ensures BufferSound(v, c, id, Lookup(v.clients, c, id).value.held) {
      assert BufferSound(w, c, id, Lookup(w.clients, c, id).value.held);
    }
    forall l | SurfaceOf(v.clients, l).Some?
      ensures SurfaceNamesLive(v, l.connection, SurfaceOf(v.clients, l).value)
    {
      assert SurfaceNamesLive(w, l.connection, SurfaceOf(w.clients, l).value);
    }
  }

  lemma SceneHolds(w: World, v: World, x: Dying)
    requires Holds(w, x) && SceneOnly(w, v) && SceneSound(v, x)
    ensures Holds(v, x)
  {
    Unlock();
    BuffersDepend(w, v);
    ShapeHolds(w, v, x);
  }

  /** What holds with nothing being destroyed holds with anything being destroyed. */
  lemma DyingWeaker(w: World, x: Dying)
    requires WindowsSound(w, None) && IdsSound(w, None)
    ensures WindowsSound(w, x) && IdsSound(w, x)
  {
    forall c | c in w.clients ensures Sound(w.clients[c].registry, DyingIn(c, x)) {
      assert Sound(w.clients[c].registry, DyingIn(c, None));
    }
    forall c, id | c in w.clients && (x != Some(SurfaceKey(c, id)) || id in w.clients[c].registry.live)
      ensures IdHistory(w.log, c, id) == if id in w.clients[c].registry.used then Taken else Unused
    {
      assert None != Some(SurfaceKey(c, id));
    }
  }

  /** `place_surface`: a position for a live surface, and a place in the stack if it has content. */
  function Placed(w: World, k: SurfaceKey, p: Point): World {
    w.(positions := w.positions[k := p],
       stack := if HasContent(w.clients, k) && k !in w.stack then w.stack + [k] else w.stack)
  }

  lemma PlacedHolds(w: World, k: SurfaceKey, p: Point)
    requires Holds(w, None) && SurfaceOf(w.clients, k).Some?
    ensures Holds(Placed(w, k, p), None)
  {
    Unlock();
    assert SceneSound(Placed(w, k, p), None) by {
      assert k.connection in w.clients;
    }
    SceneHolds(w, Placed(w, k, p), None);
  }

  function WithoutKey(s: seq<SurfaceKey>, k: SurfaceKey): (r: seq<SurfaceKey>)
    ensures forall l :: l in r <==> l in s && l != k
    ensures NoDuplicates(s) ==> NoDuplicates(r)
  {
    KeptKeys(s, {}, {k});
    KeepKeys(s, {}, {k})
  }

  /** `raise_surface`, for a surface with content. */
  function Raised(w: World, k: SurfaceKey): World {
    w.(stack := WithoutKey(w.stack, k) + [k])
  }

  lemma RaisedHolds(w: World, k: SurfaceKey)
    requires Holds(w, None) && HasContent(w.clients, k)
    ensures Holds(Raised(w, k), None)
    ensures forall l :: l in Raised(w, k).stack <==> l in w.stack
  {
    Unlock();
    RaisedScene(w, k);
    SceneHolds(w, Raised(w, k), None);
  }

  lemma RaisedScene(w: World, k: SurfaceKey)
    requires SceneSound(w, None) && HasContent(w.clients, k)
    ensures forall l :: l in Raised(w, k).stack <==> l in w.stack
    ensures SceneSound(Raised(w, k), None)
  {
    assert k in w.stack;
    var stack := Raised(w, k).stack;
    forall l ensures l in stack <==> l in w.stack {
      assert l in stack <==> l in WithoutKey(w.stack, k) || l == k;
    }
  }

  // ----- attach and commit -----

  /** The second half of `attach`: the buffer waits with the surface it is attached to. */
  function Attached(w: World, k: SurfaceKey, b: ObjectId, offset: Point, fence: Option<ObjectId>): World
    requires SurfaceOf(w.clients, k).Some? && LiveBuffer(w.clients, k.connection, b)
  {
    var s := SurfaceOf(w.clients, k).value.(attachment := Set(b, offset), acquireFence := fence);
    Put(Put(w, k, SurfaceObject(s)), SurfaceKey(k.connection, b),
        Lookup(w.clients, k.connection, b).value.(held := Pending(k)))
  }

  lemma AttachedHolds(w: World, k: SurfaceKey, b: ObjectId, offset: Point, fence: Option<ObjectId>)
    requires Holds(w, None) && SurfaceOf(w.clients, k).Some? && LiveBuffer(w.clients, k.connection, b)
    requires SurfaceOf(w.clients, k).value.attachment.Unchanged?
    requires fence.Some? ==> LiveFence(w.clients, k.connection, fence.value)
    ensures Holds(Attached(w, k, b, offset, fence), None)
  {
    Unlock();
    var was := SurfaceOf(w.clients, k).value;
    var s := was.(attachment := Set(b, offset), acquireFence := fence);
    NoPendingFor(w, k);
    assert SurfaceNamesLive(w, k.connection, was);
    ContentStacked(w, k);
    PutSurfaceHolds(w, k, s, None);
    PutSurfaceLookups(w, k, s);
    var v := Put(w, k, SurfaceObject(s));
    PutBufferHolds(v, SurfaceKey(k.connection, b), Lookup(w.clients, k.connection, b).value.(held := Pending(k)), None);
  }

  /** With nothing attached, no buffer waits with the surface; and every buffer already agrees
      with a surface whose content does not change. */
  lemma NoPendingFor(w: World, k: SurfaceKey)
    requires BuffersSound(w) && SurfaceOf(w.clients, k).Some?
    requires !SurfaceOf(w.clients, k).value.attachment.Set?
    ensures forall id, a, f | LiveBuffer(w.clients, k.connection, id) ::
              BufferFits(k, id, Lookup(w.clients, k.connection, id).value.held,
                         SurfaceOf(w.clients, k).value.(attachment := a, acquireFence := f))
  {
    forall id, a, f | LiveBuffer(w.clients, k.connection, id)
      ensures BufferFits(k, id, Lookup(w.clients, k.connection, id).value.held,
                         SurfaceOf(w.clients, k).value.(attachment := a, acquireFence := f))
    {
      assert BufferSound(w, k.connection, id, Lookup(w.clients, k.connection, id).value.held);
    }
  }

  lemma ContentStacked(w: World, k: SurfaceKey)
    requires SceneSound(w, None) && SurfaceOf(w.clients, k).Some?
    ensures SurfaceOf(w.clients, k).value.current.Some? ==> k in w.stack
  {
    assert HasContent(w.clients, k) <==> SurfaceOf(w.clients, k).value.current.Some?;
  }

  /** A null attach: the next commit takes the content away. */
  lemma DetachPendingHolds(w: World, k: SurfaceKey)
    requires Holds(w, None) && SurfaceOf(w.clients, k).Some?
    requires SurfaceOf(w.clients, k).value.attachment.Unchanged?
    ensures Holds(Put(w, k, SurfaceObject(SurfaceOf(w.clients, k).value.(attachment := Detach))), None)
  {
    Unlock();
    var was := SurfaceOf(w.clients, k).value;
    NoPendingFor(w, k);
    assert was.(attachment := Detach, acquireFence := was.acquireFence) == was.(attachment := Detach);
    assert SurfaceNamesLive(w, k.connection, was);
    ContentStacked(w, k);
    PutSurfaceHolds(w, k, was.(attachment := Detach), None);
  }

  /** `map`: a surface that now has content joins the scene, at the origin unless it was placed. */
  function Mapped(w: World, k: SurfaceKey): World {
    if k in w.stack then w
    else w.(positions := if k in w.positions then w.positions else w.positions[k := Point(0, 0)],
            stack := w.stack + [k])
  }

  /** The current state a commit gives a surface. */
  function CommitState(s: SurfaceState, b: ObjectId, offset: Point, commit: CommitId): SurfaceState {
    s.(attachment := Unchanged, acquireFence := None, frameRequested := false,
       current := Some(Current(b, offset, commit, s.acquireFence, s.frameRequested)))
  }

  /** The objects after a commit that shows something: the buffer held for it, the surface showing it. */
  function CommittedClients(cs: Clients, k: SurfaceKey, b: ObjectId, offset: Point, commit: CommitId): Clients
    requires SurfaceOf(cs, k).Some? && LiveBuffer(cs, k.connection, b)
  {
    var o := Lookup(cs, k.connection, b).value.(held := CompositorHeld(k, commit));
    var s := CommitState(SurfaceOf(cs, k).value, b, offset, commit);
    WithObject(WithObject(cs, SurfaceKey(k.connection, b), o), k, SurfaceObject(s))
  }

  function Committed(w: World, k: SurfaceKey, b: ObjectId, offset: Point): World
    requires SurfaceOf(w.clients, k).Some? && LiveBuffer(w.clients, k.connection, b)
  {
    Mapped(w.(clients := CommittedClients(w.clients, k, b, offset, w.nextCommit), nextCommit := w.nextCommit + 1), k)
  }

  lemma CommittedLookup(cs: Clients, k: SurfaceKey, b: ObjectId, offset: Point, n: CommitId, c: ConnectionId, id: ObjectId)
    requires SurfaceOf(cs, k).Some? && LiveBuffer(cs, k.connection, b)
    ensures Lookup(CommittedClients(cs, k, b, offset, n), c, id)
            == if SurfaceKey(c, id) == k then Some(SurfaceObject(CommitState(SurfaceOf(cs, k).value, b, offset, n)))
               else if SurfaceKey(c, id) == SurfaceKey(k.connection, b)
               then Some(Lookup(cs, k.connection, b).value.(held := CompositorHeld(k, n)))
               else Lookup(cs, c, id)
  {
    var key := SurfaceKey(k.connection, b);
    var o := Lookup(cs, k.connection, b).value.(held := CompositorHeld(k, n));
    var s := CommitState(SurfaceOf(cs, k).value, b, offset, n);
    WithObjectLookup(cs, key, o, c, id);
    WithObjectLookup(WithObject(cs, key, o), k, SurfaceObject(s), c, id);
  }

  /** What a commit does to the objects: one surface replaced, one buffer replaced. */
  ghost predicate CommitObjects(cs: Clients, ds: Clients, k: SurfaceKey, s: SurfaceState, b: ObjectId, held: BufferState) {
    && ds.Keys == cs.Keys
    && (forall l :: SurfaceOf(ds, l) == if l == k then Some(s) else SurfaceOf(cs, l))
    && (forall c, id :: LiveFence(ds, c, id) <==> LiveFence(cs, c, id))
    && (forall c, id :: LiveBuffer(ds, c, id) <==> LiveBuffer(cs, c, id))
    && (forall c, id | LiveBuffer(ds, c, id) :: Lookup(ds, c, id).value.held
                                               == if c == k.connection && id == b then held else Lookup(cs, c, id).value.held)
  }

  lemma CommittedObjects(cs: Clients, k: SurfaceKey, b: ObjectId, offset: Point, n: CommitId)
    requires SurfaceOf(cs, k).Some? && LiveBuffer(cs, k.connection, b)
    ensures CommitObjects(cs, CommittedClients(cs, k, b, offset, n), k, CommitState(SurfaceOf(cs, k).value, b, offset, n), b,
                          CompositorHeld(k, n))
  {
    var ds := CommittedClients(cs, k, b, offset, n);
    forall c, id
      ensures LiveBuffer(ds, c, id) <==> LiveBuffer(cs, c, id)
      ensures LiveFence(ds, c, id) <==> LiveFence(cs, c, id)
      ensures LiveBuffer(ds, c, id) ==>
                Lookup(ds, c, id).value.held == if c == k.connection && id == b then CompositorHeld(k, n)
                                                else Lookup(cs, c, id).value.held
    {
      CommittedLookup(cs, k, b, offset, n, c, id);
    }
    forall l
      ensures SurfaceOf(ds, l) == if l == k then Some(CommitState(SurfaceOf(cs, k).value, b, offset, n)) else SurfaceOf(cs, l)
    {
      CommittedLookup(cs, k, b, offset, n, l.connection, l.objectId);
    }
  }

  lemma CommittedBuffers(w: World, v: World, k: SurfaceKey, s: SurfaceState, b: ObjectId)
    requires BuffersSound(w) && SurfaceOf(w.clients, k).Some? && LiveBuffer(w.clients, k.connection, b)
    requires CommitObjects(w.clients, v.clients, k, s, b, CompositorHeld(k, w.nextCommit)) && v.nextCommit == w.nextCommit + 1
    requires s.attachment.Unchanged? && s.acquireFence.None? && s.current.Some?
    requires s.current.value.buffer == b && s.current.value.commit == w.nextCommit
    requires var was := SurfaceOf(w.clients, k).value;
             && s.current.value.acquireFence == was.acquireFence
             && (was.attachment.Unchanged? || (was.attachment.Set? && was.attachment.buffer == b))
    ensures BuffersSound(v)
  {
    forall c, id | LiveBuffer(v.clients, c, id) ensures BufferSound(v, c, id, Lookup(v.clients, c, id).value.held) {
      assert BufferSound(w, c, id, Lookup(w.clients, c, id).value.held);
    }
    forall l | SurfaceOf(v.clients, l).Some?
      ensures SurfaceNamesLive(v, l.connection, SurfaceOf(v.clients, l).value)
    {
      assert SurfaceNamesLive(w, l.connection, SurfaceOf(w.clients, l).value);
    }
  }

  /** A surface given content, mapped if it was not. */
  lemma CommittedScene(w: World, v: World, k: SurfaceKey, s: SurfaceState, b: ObjectId)
    requires SceneSound(w, None) && SurfaceOf(w.clients, k).Some? && s.current.Some?
    requires CommitObjects(w.clients, v.clients, k, s, b, CompositorHeld(k, w.nextCommit))
    requires var m := Mapped(w, k); v.stack == m.stack && v.positions == m.positions
    requires v.keyboardFocus == w.keyboardFocus && v.pointerTarget == w.pointerTarget && v.nextConnection == w.nextConnection
    ensures SceneSound(v, None)
  {
    JoinsStack(w.stack, k);
    forall l | l in v.stack ensures SurfaceOf(v.clients, l).Some? && l in v.positions {
      assert l == k || l in w.stack;
    }
    forall l | HasContent(v.clients, l) ensures l in v.stack {
      assert l == k || HasContent(w.clients, l);
    }
    forall l | l in v.positions ensures l.connection in v.clients {
      assert l in w.positions || l == k;
    }
  }

  lemma JoinsStack(stack: seq<SurfaceKey>, k: SurfaceKey)
    requires NoDuplicates(stack)
    ensures k !in stack ==> NoDuplicates(stack + [k])
    ensures forall l :: l in stack + [k] <==> l in stack || l == k
  {
  }

  lemma ReplacedShape(cs: Clients, k: ObjectKey, o: Object)
    requires Lookup(cs, k.connection, k.objectId).Some?
    requires KindOf(Lookup(cs, k.connection, k.objectId).value) == KindOf(o) != Toplevel
    ensures SameObjects(cs, WithObject(cs, k, o))
  {
    var ds := WithObject(cs, k, o);
    forall l: ObjectKey ensures SameWindow(cs, ds, l) {
      WithObjectLookup(cs, k, o, l.connection, l.objectId);
    }
    assert ds[k.connection].registry.live.Keys == cs[k.connection].registry.live.Keys;
  }

  lemma CommittedShape(cs: Clients, k: SurfaceKey, b: ObjectId, offset: Point, n: CommitId)
    requires SurfaceOf(cs, k).Some? && LiveBuffer(cs, k.connection, b)
    ensures SameObjects(cs, CommittedClients(cs, k, b, offset, n))
  {
    var key := SurfaceKey(k.connection, b);
    var o := Lookup(cs, k.connection, b).value.(held := CompositorHeld(k, n));
    ReplacedShape(cs, key, o);
    WithObjectLookup(cs, key, o, k.connection, k.objectId);
    var ds := WithObject(cs, key, o);
    ReplacedShape(ds, k, SurfaceObject(CommitState(SurfaceOf(cs, k).value, b, offset, n)));
    ObjectsTrans(cs, ds, CommittedClients(cs, k, b, offset, n));
  }

  lemma CommitKeepsBuffers(w: World, k: SurfaceKey, b: ObjectId, offset: Point)
    requires BuffersSound(w) && SurfaceOf(w.clients, k).Some? && LiveBuffer(w.clients, k.connection, b)
    requires var a := SurfaceOf(w.clients, k).value.attachment; a.Unchanged? || (a.Set? && a.buffer == b)
    ensures BuffersSound(Committed(w, k, b, offset))
  {
    CommittedObjects(w.clients, k, b, offset, w.nextCommit);
    CommittedBuffers(w, Committed(w, k, b, offset), k,
                     CommitState(SurfaceOf(w.clients, k).value, b, offset, w.nextCommit), b);
  }

  lemma CommitKeepsScene(w: World, k: SurfaceKey, b: ObjectId, offset: Point)
    requires SceneSound(w, None) && SurfaceOf(w.clients, k).Some? && LiveBuffer(w.clients, k.connection, b)
    ensures SceneSound(Committed(w, k, b, offset), None)
  {
    CommittedObjects(w.clients, k, b, offset, w.nextCommit);
    CommittedScene(w, Committed(w, k, b, offset), k,
                   CommitState(SurfaceOf(w.clients, k).value, b, offset, w.nextCommit), b);
  }

  lemma CommitKeepsShape(w: World, k: SurfaceKey, b: ObjectId, offset: Point)
    requires SurfaceOf(w.clients, k).Some? && LiveBuffer(w.clients, k.connection, b)
    ensures SameShape(w, Committed(w, k, b, offset))
  {
    CommittedShape(w.clients, k, b, offset, w.nextCommit);
  }

  /** A commit keeps everything, whichever attachment it carries. */
  lemma CommittedHolds(w: World, k: SurfaceKey, b: ObjectId, offset: Point)
    requires Holds(w, None) && SurfaceOf(w.clients, k).Some? && LiveBuffer(w.clients, k.connection, b)
    requires var a := SurfaceOf(w.clients, k).value.attachment; a.Unchanged? || (a.Set? && a.buffer == b)
    ensures Holds(Committed(w, k, b, offset), None)
  {
    Unlock();
    CommitKeepsBuffers(w, k, b, offset);
    CommitKeepsScene(w, k, b, offset);
    CommitKeepsShape(w, k, b, offset);
    ShapeHolds(w, Committed(w, k, b, offset), None);
  }

  /** A surface whose attachment is spent or dropped, its content as it was. */
  lemma DropPendingHolds(w: World, k: SurfaceKey)
    requires Holds(w, None) && SurfaceOf(w.clients, k).Some? && !SurfaceOf(w.clients, k).value.attachment.Set?
    ensures Holds(Put(w, k, SurfaceObject(SurfaceOf(w.clients, k).value.(attachment := Unchanged, acquireFence := None))), None)
  {
    Unlock();
    NoPendingFor(w, k);
    assert SurfaceNamesLive(w, k.connection, SurfaceOf(w.clients, k).value);
    ContentStacked(w, k);
    PutSurfaceHolds(w, k, SurfaceOf(w.clients, k).value.(attachment := Unchanged, acquireFence := None), None);
  }

  /** The end of `detach`: no content, and out of the stack; the position is kept. */
  function Emptied(w: World, k: SurfaceKey): World
    requires SurfaceOf(w.clients, k).Some?
  {
    Put(w.(stack := WithoutKey(w.stack, k)), k, SurfaceObject(SurfaceOf(w.clients, k).value.(current := None)))
  }

  lemma EmptiedHolds(w: World, k: SurfaceKey)
    requires Holds(w, None) && SurfaceOf(w.clients, k).Some? && !SurfaceOf(w.clients, k).value.attachment.Set?
    ensures Holds(Emptied(w, k), None)
  {
    Unlock();
    var was := SurfaceOf(w.clients, k).value;
    var s := was.(current := None);
    var w1 := w.(stack := WithoutKey(w.stack, k));
    BuffersDepend(w, w1);
    NoPendingFor(w, k);
    assert SurfaceNamesLive(w, k.connection, was);
    forall id | LiveBuffer(w1.clients, k.connection, id)
      ensures BufferFits(k, id, Lookup(w1.clients, k.connection, id).value.held, s)
    {
      assert BufferFits(k, id, Lookup(w.clients, k.connection, id).value.held,
                        was.(attachment := was.attachment, acquireFence := was.acquireFence));
    }
    PutSurfaceBuffers(w1, k, s);
    EmptiedScene(w, k);
    PutShape(w1, k, SurfaceObject(s));
    ShapeHolds(w, Emptied(w, k), None);
  }

  lemma EmptiedScene(w: World, k: SurfaceKey)
    requires SceneSound(w, None) && SurfaceOf(w.clients, k).Some?
    ensures SceneSound(Emptied(w, k), None)
  {
    var v := Emptied(w, k);
    PutSurfaceLookups(w.(stack := WithoutKey(w.stack, k)), k, SurfaceOf(w.clients, k).value.(current := None));
    forall l | HasContent(v.clients, l) ensures l in v.stack {
      assert HasContent(w.clients, l);
    }
  }
}
