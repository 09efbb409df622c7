/** How an object goes: taken out of whatever names it, removed, announced, and only then its
    identifier freed. While that happens the object is the one exempt from what it no longer has. */
module Destruction {
  import opened Basics
  import opened Model
  import opened Registry
  import opened World
  import opened Cascade
  import opened Steps
  import opened Lifetimes

  // ----- what names an object -----

  predicate NamesSurface(held: BufferState, k: SurfaceKey) {
    !held.Available? && held.surface == k
  }

  /** A buffer a release on behalf of surface `k` gives back: any that names it, or those held for
      an earlier commit. */
  predicate Related(held: BufferState, k: SurfaceKey, older: Option<CommitId>) {
    if older.None? then NamesSurface(held, k) else held.CompositorHeld? && held.surface == k && held.commit < older.value
  }

  predicate SurfaceNames(s: SurfaceState, id: ObjectId) {
    || (s.attachment.Set? && s.attachment.buffer == id)
    || s.acquireFence == Some(id)
    || (s.current.Some? && (s.current.value.buffer == id || s.current.value.acquireFence == Some(id)))
  }

  /** Nothing that must name a live object names this one. */
  ghost predicate Loose(w: World, k: ObjectKey) {
    && k !in w.stack && k !in w.positions && w.pointerTarget != Some(k) && w.keyboardFocus != Some(k)
    && (forall h | h in w.toplevels :: w.toplevels[h] != k)
    && (forall id | LiveBuffer(w.clients, k.connection, id) ::
          !NamesSurface(Lookup(w.clients, k.connection, id).value.held, k))
    && (forall l | SurfaceOf(w.clients, l).Some? && l.connection == k.connection && l != k ::
          !SurfaceNames(SurfaceOf(w.clients, l).value, k.objectId))
  }

  // ----- removal -----

  /** The object gone from the live ones, its identifier still taken. */
  function Removed(w: World, k: ObjectKey): World
    requires k.connection in w.clients
  {
    var client := w.clients[k.connection];
    w.(clients := w.clients[k.connection := client.(registry := Remove(client.registry, k.objectId))])
  }

  lemma RemovedLookup(w: World, k: ObjectKey, c: ConnectionId, id: ObjectId)
    requires k.connection in w.clients
    ensures Lookup(Removed(w, k).clients, c, id) == if SurfaceKey(c, id) == k then None else Lookup(w.clients, c, id)
  {
  }

  lemma RemovedScene(w: World, k: ObjectKey)
    requires SceneSound(w, Some(k)) && k.connection in w.clients && k !in w.stack && k !in w.positions
    requires w.pointerTarget != Some(k) && w.keyboardFocus != Some(k)
    ensures SceneSound(Removed(w, k), Some(k))
  {
    var v := Removed(w, k);
    forall l ensures SurfaceOf(v.clients, l) == if l == k then None else SurfaceOf(w.clients, l) {
      RemovedLookup(w, k, l.connection, l.objectId);
    }
    forall l | HasContent(v.clients, l) && l != k ensures l in v.stack {
      assert HasContent(w.clients, l);
    }
  }

  lemma RemovedBuffers(w: World, k: ObjectKey)
    requires BuffersSound(w) && k.connection in w.clients && Loose(w, k)
    ensures BuffersSound(Removed(w, k))
  {
    var v := Removed(w, k);
    forall c, id ensures Lookup(v.clients, c, id) == if SurfaceKey(c, id) == k then None else Lookup(w.clients, c, id) {
      RemovedLookup(w, k, c, id);
    }
    forall c, id | LiveBuffer(v.clients, c, id) ensures BufferSound(v, c, id, Lookup(v.clients, c, id).value.held) {
      assert LiveBuffer(w.clients, c, id);
      assert BufferSound(w, c, id, Lookup(w.clients, c, id).value.held);
    }
    forall l | SurfaceOf(v.clients, l).Some?
      ensures SurfaceNamesLive(v, l.connection, SurfaceOf(v.clients, l).value)
    {
      assert SurfaceNamesLive(w, l.connection, SurfaceOf(w.clients, l).value);
    }
  }

  lemma RemovedWindows(w: World, k: ObjectKey)
    requires WindowsSound(w, Some(k)) && k.connection in w.clients && (forall h | h in w.toplevels :: w.toplevels[h] != k)
    ensures WindowsSound(Removed(w, k), Some(k))
  {
    var v := Removed(w, k);
    forall l: ObjectKey
      ensures IsToplevel(v.clients, l) <==> l != k && IsToplevel(w.clients, l)
      ensures IsToplevel(v.clients, l) ==> HandleOf(v.clients, l) == HandleOf(w.clients, l)
                                           && WindowSurface(v.clients, l) == WindowSurface(w.clients, l)
    {
      RemovedLookup(w, k, l.connection, l.objectId);
    }
  }

  lemma RemovedIds(w: World, k: ObjectKey)
    requires IdsSound(w, Some(k)) && Lookup(w.clients, k.connection, k.objectId).Some?
    ensures IdsSound(Removed(w, k), Some(k))
    ensures IdHistory(Removed(w, k).log, k.connection, k.objectId) == Taken
  {
    var v := Removed(w, k);
    forall c | c in v.clients ensures c < v.nextConnection && Sound(v.clients[c].registry, DyingIn(c, Some(k))) {
      assert Sound(w.clients[c].registry, DyingIn(c, Some(k)));
    }
  }

  lemma RemovedOthers(w: World, k: ObjectKey)
    requires NamesSound(w) && QueueSound(w) && k.connection in w.clients
    ensures NamesSound(Removed(w, k)) && QueueSound(Removed(w, k))
  {
    var v := Removed(w, k);
    assert forall c | c in v.clients :: v.clients[c].pendingEvents == w.clients[c].pendingEvents;
  }

  lemma RemovedHolds(w: World, k: ObjectKey)
    requires Holds(w, Some(k)) && Lookup(w.clients, k.connection, k.objectId).Some? && Loose(w, k)
    ensures Holds(Removed(w, k), Some(k)) && Unannounced(Removed(w, k), k)
  {
    Unlock();
    RemovedScene(w, k);
    RemovedBuffers(w, k);
    RemovedWindows(w, k);
    RemovedIds(w, k);
    RemovedOthers(w, k);
    RemovedLookup(w, k, k.connection, k.objectId);
  }

  /** Removed, and the destruction not yet announced. */
  ghost predicate Unannounced(w: World, k: ObjectKey) {
    && k.connection in w.clients && Lookup(w.clients, k.connection, k.objectId).None?
    && IdHistory(w.log, k.connection, k.objectId) == Taken
  }

  // ----- a buffer -----

  /** A surface of a connection that no longer names these buffers: the attachment forgotten, the
      content gone. */
  function Forget(o: Object, c: ConnectionId, dropped: set<ObjectKey>): Object {
    if !o.SurfaceObject? then o
    else
      var s := o.state;
      SurfaceObject(s.(attachment := if s.attachment.Set? && SurfaceKey(c, s.attachment.buffer) in dropped then Unchanged
                                     else s.attachment,
                       current := if s.current.Some? && SurfaceKey(c, s.current.value.buffer) in dropped then None
                                  else s.current))
  }

  predicate ShowsBuffer(cs: Clients, k: SurfaceKey, b: ObjectKey) {
    && k.connection == b.connection && HasContent(cs, k)
    && SurfaceOf(cs, k).value.current.value.buffer == b.objectId
  }

  function DroppedClients(cs: Clients, b: ObjectKey): Clients
    requires b.connection in cs
  {
    var client := cs[b.connection];
    var live := client.registry.live;
    var kept := map id | id in live && id != b.objectId :: Forget(live[id], b.connection, {b});
    cs[b.connection := client.(registry := client.registry.(live := kept))]
  }

  /** The buffer branch of `destroy_object`: every surface forgets it, and it is removed. The
      surfaces that were showing it are left where they are in the stack. */
  function Dropped(w: World, b: ObjectKey): World
    requires b.connection in w.clients
  {
    w.(clients := DroppedClients(w.clients, b))
  }

  lemma DroppedLookup(cs: Clients, b: ObjectKey, c: ConnectionId, id: ObjectId)
    requires b.connection in cs
    ensures Lookup(DroppedClients(cs, b), c, id)
            == if SurfaceKey(c, id) == b || Lookup(cs, c, id).None? then None
               else if c == b.connection then Some(Forget(Lookup(cs, c, id).value, c, {b}))
               else Lookup(cs, c, id)
  {
  }

  lemma DroppedContent(w: World, b: ObjectKey, k: SurfaceKey)
    requires LiveBuffer(w.clients, b.connection, b.objectId)
    ensures SurfaceOf(Dropped(w, b).clients, k).Some? <==> SurfaceOf(w.clients, k).Some?
    ensures HasContent(Dropped(w, b).clients, k) <==> HasContent(w.clients, k) && !ShowsBuffer(w.clients, k, b)
  {
    DroppedLookup(w.clients, b, k.connection, k.objectId);
  }

  lemma DroppedScene(w: World, b: ObjectKey)
    requires SceneSound(w, None) && LiveBuffer(w.clients, b.connection, b.objectId)
    ensures SceneSound(Dropped(w, b), Some(b))
  {
    var v := Dropped(w, b);
    forall k
      ensures SurfaceOf(v.clients, k).Some? <==> SurfaceOf(w.clients, k).Some?
      ensures HasContent(v.clients, k) <==> HasContent(w.clients, k) && !ShowsBuffer(w.clients, k, b)
    {
      DroppedContent(w, b, k);
    }
  }

  lemma DroppedSurfaceOf(cs: Clients, b: ObjectKey, k: SurfaceKey)
    requires LiveBuffer(cs, b.connection, b.objectId)
    ensures SurfaceOf(DroppedClients(cs, b), k)
            == if SurfaceOf(cs, k).Some? && k.connection == b.connection
               then Some(Forget(SurfaceObject(SurfaceOf(cs, k).value), k.connection, {b}).state)
               else SurfaceOf(cs, k)
  {
    DroppedLookup(cs, b, k.connection, k.objectId);
  }

  /** Whatever a surface still names after forgetting is still live. */
  lemma ForgottenNamesLive(w: World, v: World, c: ConnectionId, s: SurfaceState, b: ObjectKey)
    requires SurfaceNamesLive(w, c, s) && v.nextCommit == w.nextCommit
    requires forall id | SurfaceKey(c, id) != b :: LiveBuffer(w.clients, c, id) ==> LiveBuffer(v.clients, c, id)
    requires forall id | LiveFence(w.clients, c, id) :: LiveFence(v.clients, c, id)
    ensures SurfaceNamesLive(v, c, Forget(SurfaceObject(s), c, {b}).state)
  {
  }

  lemma DroppedSurface(w: World, b: ObjectKey, k: SurfaceKey)
    requires BuffersSound(w) && LiveBuffer(w.clients, b.connection, b.objectId) && SurfaceOf(w.clients, k).Some?
    ensures SurfaceOf(Dropped(w, b).clients, k).Some?
    ensures SurfaceNamesLive(Dropped(w, b), k.connection, SurfaceOf(Dropped(w, b).clients, k).value)
  {
    var c, v, s := k.connection, Dropped(w, b), SurfaceOf(w.clients, k).value;
    DroppedSurfaceOf(w.clients, b, k);
    assert SurfaceNamesLive(w, c, s);
    forall id ensures SurfaceKey(c, id) != b && LiveBuffer(w.clients, c, id) ==> LiveBuffer(v.clients, c, id)
              ensures LiveFence(w.clients, c, id) ==> LiveFence(v.clients, c, id)
    {
      DroppedLookup(w.clients, b, c, id);
    }
    if c == b.connection {
      ForgottenNamesLive(w, v, c, s, b);
    }
  }

  lemma DroppedBuffer(w: World, b: ObjectKey, c: ConnectionId, id: ObjectId)
    requires BuffersSound(w) && LiveBuffer(w.clients, b.connection, b.objectId)
    requires LiveBuffer(Dropped(w, b).clients, c, id)
    ensures BufferSound(Dropped(w, b), c, id, Lookup(Dropped(w, b).clients, c, id).value.held)
  {
    DroppedLookup(w.clients, b, c, id);
    var held := Lookup(w.clients, c, id).value.held;
    assert BufferSound(w, c, id, held);
    if !held.Available? {
      DroppedSurfaceOf(w.clients, b, held.surface);
    }
  }

  lemma DroppedBuffers(w: World, b: ObjectKey)
    requires BuffersSound(w) && LiveBuffer(w.clients, b.connection, b.objectId)
    ensures BuffersSound(Dropped(w, b))
  {
    forall c, id | LiveBuffer(Dropped(w, b).clients, c, id)
      ensures BufferSound(Dropped(w, b), c, id, Lookup(Dropped(w, b).clients, c, id).value.held)
    {
      DroppedBuffer(w, b, c, id);
    }
    forall k | SurfaceOf(Dropped(w, b).clients, k).Some?
      ensures SurfaceNamesLive(Dropped(w, b), k.connection, SurfaceOf(Dropped(w, b).clients, k).value)
    {
      DroppedSurfaceOf(w.clients, b, k);
      DroppedSurface(w, b, k);
    }
  }

  lemma DroppedWindows(w: World, b: ObjectKey)
    requires WindowsSound(w, None) && LiveBuffer(w.clients, b.connection, b.objectId)
    ensures WindowsSound(Dropped(w, b), Some(b))
  {
    var v := Dropped(w, b);
    forall l: ObjectKey
      ensures IsToplevel(v.clients, l) <==> IsToplevel(w.clients, l)
      ensures IsToplevel(v.clients, l) ==> HandleOf(v.clients, l) == HandleOf(w.clients, l)
                                           && WindowSurface(v.clients, l) == WindowSurface(w.clients, l)
    {
      DroppedLookup(w.clients, b, l.connection, l.objectId);
    }
  }

  lemma DroppedIds(w: World, b: ObjectKey)
    requires IdsSound(w, None) && LiveBuffer(w.clients, b.connection, b.objectId)
    ensures IdsSound(Dropped(w, b), Some(b))
    ensures IdHistory(w.log, b.connection, b.objectId) == Taken
  {
    var v := Dropped(w, b);
    assert None != Some(b);
    assert v.clients[b.connection].registry.live.Keys == w.clients[b.connection].registry.live.Keys - {b.objectId};
    forall c | c in v.clients ensures c < v.nextConnection && Sound(v.clients[c].registry, DyingIn(c, Some(b))) {
      assert Sound(w.clients[c].registry, DyingIn(c, None));
    }
    forall c, id | c in v.clients && (Some(b) != Some(SurfaceKey(c, id)) || id in v.clients[c].registry.live)
      ensures IdHistory(v.log, c, id) == if id in v.clients[c].registry.used then Taken else Unused
    {
      assert None != Some(SurfaceKey(c, id));
    }
  }

  lemma DroppedOthers(w: World, b: ObjectKey)
    requires NamesSound(w) && QueueSound(w) && b.connection in w.clients
    ensures NamesSound(Dropped(w, b)) && QueueSound(Dropped(w, b))
  {
    var v := Dropped(w, b);
    assert forall c | c in v.clients :: v.clients[c].pendingEvents == w.clients[c].pendingEvents;
  }

  lemma DroppedHolds(w: World, b: ObjectKey)
    requires Holds(w, None) && LiveBuffer(w.clients, b.connection, b.objectId)
    ensures Holds(Dropped(w, b), Some(b)) && Unannounced(Dropped(w, b), b)
  {
    Unlock();
    DroppedScene(w, b);
    DroppedBuffers(w, b);
    DroppedWindows(w, b);
    DroppedIds(w, b);
    DroppedOthers(w, b);
    DroppedLookup(w.clients, b, b.connection, b.objectId);
  }

  /** Every stacked surface has something to show: what the source documents of every path. */
  ghost predicate AllShown(w: World) {
    forall k | k in w.stack :: HasContent(w.clients, k)
  }

  /** Destroying a buffer keeps every stacked surface shown exactly when none of them shows it. */
  lemma DroppedShownIff(w: World, b: ObjectKey)
    requires AllShown(w) && LiveBuffer(w.clients, b.connection, b.objectId)
    ensures AllShown(Dropped(w, b)) <==> !exists k | k in w.stack :: ShowsBuffer(w.clients, k, b)
  {
    forall k | k in w.stack
      ensures HasContent(Dropped(w, b).clients, k) <==> !ShowsBuffer(w.clients, k, b)
    {
      DroppedContent(w, b, k);
    }
  }

  // ----- the two events, and the identifier freed -----

  lemma AppendedView(w: World, e: Event)
    requires e.connection in w.clients
    ensures SameView(w, Appended(w, e))
  {
  }

  /** An event about the identifier being destroyed leaves everyone else's history alone. */
  lemma AppendedIds(w: World, e: Event)
    requires e.connection in w.clients
    requires var k := SurfaceKey(e.connection, e.objectId);
             IdsSound(w, Some(k)) && Lookup(w.clients, k.connection, k.objectId).None?
    ensures IdsSound(Appended(w, e), Some(SurfaceKey(e.connection, e.objectId)))
  {
    var v := Appended(w, e);
    var x := Some(SurfaceKey(e.connection, e.objectId));
    OrderOne(w.log, Queued(e));
    forall c | c in v.clients ensures c < v.nextConnection && Sound(v.clients[c].registry, DyingIn(c, x)) {
      assert Sound(w.clients[c].registry, DyingIn(c, x));
    }
    forall c, id | c in v.clients && (x != Some(SurfaceKey(c, id)) || id in v.clients[c].registry.live)
      ensures IdHistory(v.log, c, id) == if id in v.clients[c].registry.used then Taken else Unused
    {
      HistoryOne(w.log, Queued(e), c, id);
    }
  }

  lemma AppendedHolds(w: World, e: Event)
    requires e.connection in w.clients && w.clients[e.connection].pendingEvents < w.limit
    requires Holds(w, Some(SurfaceKey(e.connection, e.objectId))) && Lookup(w.clients, e.connection, e.objectId).None?
    ensures Holds(Appended(w, e), Some(SurfaceKey(e.connection, e.objectId)))
    ensures Lookup(Appended(w, e).clients, e.connection, e.objectId).None?
  {
    Unlock();
    var x := Some(SurfaceKey(e.connection, e.objectId));
    HoldsReady(w, x);
    AppendedReady(w, e);
    ReadyFacts(Appended(w, e));
    AppendedView(w, e);
    AppendedIds(w, e);
    ViewHolds(w, Appended(w, e), x);
  }

  function Freed(w: World, k: ObjectKey): World
    requires k.connection in w.clients
  {
    var client := w.clients[k.connection];
    w.(clients := w.clients[k.connection := client.(registry := Retire(client.registry, k.objectId))])
  }

  lemma FreedIds(w: World, k: ObjectKey)
    requires IdsSound(w, Some(k)) && k.connection in w.clients && Lookup(w.clients, k.connection, k.objectId).None?
    requires IdHistory(w.log, k.connection, k.objectId) == Unused
    ensures IdsSound(Freed(w, k), None)
  {
    var v := Freed(w, k);
    forall c | c in v.clients ensures c < v.nextConnection && Sound(v.clients[c].registry, DyingIn(c, None)) {
      assert Sound(w.clients[c].registry, DyingIn(c, Some(k)));
    }
  }

  lemma FreedOthers(w: World, k: ObjectKey)
    requires NamesSound(w) && QueueSound(w) && k.connection in w.clients
    ensures NamesSound(Freed(w, k)) && QueueSound(Freed(w, k))
  {
    var v := Freed(w, k);
    assert forall c | c in v.clients :: v.clients[c].pendingEvents == w.clients[c].pendingEvents;
  }

  lemma FreedView(w: World, k: ObjectKey)
    requires k.connection in w.clients && Lookup(w.clients, k.connection, k.objectId).None?
    ensures SameView(w, Freed(w, k))
  {
  }

  lemma FreedScene(w: World, k: ObjectKey)
    requires SceneSound(w, Some(k)) && k.connection in w.clients && Lookup(w.clients, k.connection, k.objectId).None?
    ensures SceneSound(Freed(w, k), None)
  {
    FreedView(w, k);
    ViewScene(w, Freed(w, k), Some(k));
    AbsentScene(Freed(w, k), k);
  }

  lemma FreedWindows(w: World, k: ObjectKey)
    requires WindowsSound(w, Some(k)) && k.connection in w.clients && Lookup(w.clients, k.connection, k.objectId).None?
    ensures WindowsSound(Freed(w, k), None)
  {
    FreedView(w, k);
    ViewWindows(w, Freed(w, k), Some(k));
    AbsentWindows(Freed(w, k), k);
  }

  lemma FreedBuffers(w: World, k: ObjectKey)
    requires BuffersSound(w) && k.connection in w.clients && Lookup(w.clients, k.connection, k.objectId).None?
    ensures BuffersSound(Freed(w, k))
  {
    FreedView(w, k);
    ViewBuffers(w, Freed(w, k));
  }

  /** Destroyed, announced, retired: nothing is being destroyed any more. */
  lemma FreedHolds(w: World, k: ObjectKey)
    requires Holds(w, Some(k)) && k.connection in w.clients && Lookup(w.clients, k.connection, k.objectId).None?
    requires IdHistory(w.log, k.connection, k.objectId) == Unused
    ensures Holds(Freed(w, k), None)
  {
    Unlock();
    FreedScene(w, k);
    FreedBuffers(w, k);
    FreedWindows(w, k);
    FreedIds(w, k);
    FreedOthers(w, k);
  }

  lemma AbsentScene(w: World, k: ObjectKey)
    requires SceneSound(w, Some(k)) && Lookup(w.clients, k.connection, k.objectId).None?
    ensures SceneSound(w, None)
  {
    assert !HasContent(w.clients, k);
  }

  lemma AbsentWindows(w: World, k: ObjectKey)
    requires WindowsSound(w, Some(k)) && Lookup(w.clients, k.connection, k.objectId).None?
    ensures WindowsSound(w, None)
  {
    assert !IsToplevel(w.clients, k);
  }

  /** An object whose connection went is not being destroyed any more either. */
  lemma DyingGone(w: World, k: ObjectKey)
    requires Holds(w, Some(k)) && k.connection !in w.clients
    ensures Holds(w, None)
  {
    Unlock();
    AbsentScene(w, k);
    AbsentWindows(w, k);
    assert IdsSound(w, None) by {
      forall c | c in w.clients ensures Sound(w.clients[c].registry, DyingIn(c, None)) {
        assert Sound(w.clients[c].registry, DyingIn(c, Some(k)));
      }
      forall c, id | c in w.clients
        ensures IdHistory(w.log, c, id) == if id in w.clients[c].registry.used then Taken else Unused
      {
        assert Some(k) != Some(SurfaceKey(c, id));
      }
    }
  }

  // ----- loose objects -----

  lemma DyingHolds(w: World, k: ObjectKey)
    requires Holds(w, None)
    ensures Holds(w, Some(k))
  {
    Unlock();
    DyingWeaker(w, Some(k));
  }

  /** Nothing names an object that is no surface, buffer, fence or window. */
  lemma PlainIsLoose(w: World, k: ObjectKey)
    requires SceneSound(w, Some(k)) && BuffersSound(w) && WindowsSound(w, Some(k))
    requires Lookup(w.clients, k.connection, k.objectId).Some?
    requires var o := Lookup(w.clients, k.connection, k.objectId).value;
             !o.SurfaceObject? && !o.BufferObject? && !o.FenceObject?
    requires forall h | h in w.toplevels :: w.toplevels[h] != k
    ensures Loose(w, k)
  {
    assert SurfaceOf(w.clients, k).None?;
    forall id | LiveBuffer(w.clients, k.connection, id)
      ensures !NamesSurface(Lookup(w.clients, k.connection, id).value.held, k)
    {
      assert BufferSound(w, k.connection, id, Lookup(w.clients, k.connection, id).value.held);
    }
    forall l | SurfaceOf(w.clients, l).Some? && l.connection == k.connection && l != k
      ensures !SurfaceNames(SurfaceOf(w.clients, l).value, k.objectId)
    {
      assert SurfaceNamesLive(w, l.connection, SurfaceOf(w.clients, l).value);
    }
  }

  lemma FenceIsLoose(w: World, k: ObjectKey)
    requires SceneSound(w, None) && BuffersSound(w) && WindowsSound(w, None) && LiveFence(w.clients, k.connection, k.objectId)
    requires forall id | SurfaceOf(w.clients, SurfaceKey(k.connection, id)).Some? ::
               !WaitsOn(SurfaceOf(w.clients, SurfaceKey(k.connection, id)).value, k.objectId)
    ensures Loose(w, k)
  {
    forall id | LiveBuffer(w.clients, k.connection, id)
      ensures !NamesSurface(Lookup(w.clients, k.connection, id).value.held, k)
    {
      assert BufferSound(w, k.connection, id, Lookup(w.clients, k.connection, id).value.held);
    }
    forall l | SurfaceOf(w.clients, l).Some? && l.connection == k.connection && l != k
      ensures !SurfaceNames(SurfaceOf(w.clients, l).value, k.objectId)
    {
      assert SurfaceOf(w.clients, SurfaceKey(k.connection, l.objectId)).Some?;
      assert SurfaceNamesLive(w, l.connection, SurfaceOf(w.clients, l).value);
    }
  }

  /** A surface waits on a fence for what it shows, or for what is attached to it. */
  predicate WaitsOn(s: SurfaceState, f: ObjectId) {
    s.acquireFence == Some(f) || (s.current.Some? && s.current.value.acquireFence == Some(f))
  }

  lemma SurfaceIsLoose(w: World, k: SurfaceKey)
    requires BuffersSound(w) && WindowsSound(w, Some(k)) && SurfaceOf(w.clients, k).Some?
    requires k !in w.stack && k !in w.positions && w.pointerTarget != Some(k) && w.keyboardFocus != Some(k)
    requires forall id | LiveBuffer(w.clients, k.connection, id) ::
               !NamesSurface(Lookup(w.clients, k.connection, id).value.held, k)
    ensures Loose(w, k)
  {
    forall l | SurfaceOf(w.clients, l).Some? && l.connection == k.connection && l != k
      ensures !SurfaceNames(SurfaceOf(w.clients, l).value, k.objectId)
    {
      assert SurfaceNamesLive(w, l.connection, SurfaceOf(w.clients, l).value);
    }
  }

  /** Out of the scene, as a surface being destroyed is. */
  function Unplaced(w: World, k: SurfaceKey): World {
    w.(positions := w.positions - {k}, stack := WithoutKey(w.stack, k))
  }

  lemma UnplacedScene(w: World, k: SurfaceKey)
    requires SceneSound(w, None)
    ensures SceneSound(Unplaced(w, k), Some(k))
  {
  }

  lemma UnplacedHolds(w: World, k: SurfaceKey)
    requires Holds(w, None)
    ensures Holds(Unplaced(w, k), Some(k))
  {
    DyingHolds(w, k);
    assert SceneSound(Unplaced(w, k), Some(k)) by {
      Unlock();
      UnplacedScene(w, k);
    }
    SceneHolds(w, Unplaced(w, k), Some(k));
  }

  /** A window's handle no longer names it. */
  function Unhandled(w: World, h: nat): World {
    w.(toplevels := w.toplevels - {h})
  }

  lemma UnhandledHolds(w: World, k: ObjectKey)
    requires Holds(w, None) && IsToplevel(w.clients, k)
    ensures HandleOf(w.clients, k) < w.nextHandle
    ensures Holds(Unhandled(w, HandleOf(w.clients, k)), Some(k))
    ensures forall h | h in Unhandled(w, HandleOf(w.clients, k)).toplevels ::
              Unhandled(w, HandleOf(w.clients, k)).toplevels[h] != k
  {
    var v := Unhandled(w, HandleOf(w.clients, k));
    DyingHolds(w, k);
    assert WindowsSound(v, Some(k)) && HandleOf(w.clients, k) < w.nextHandle && (forall h | h in v.toplevels :: v.toplevels[h] != k) by {
      Unlock();
      UnhandledWindows(w, k);
    }
    UnhandledFold(w, v, k);
  }

  lemma UnhandledFold(w: World, v: World, k: ObjectKey)
    requires Holds(w, Some(k)) && v == w.(toplevels := v.toplevels) && WindowsSound(v, Some(k))
    ensures Holds(v, Some(k))
  {
    Unlock();
    BuffersDepend(w, v);
    UnhandledRest(w, v, k);
  }

  lemma UnhandledRest(w: World, v: World, k: ObjectKey)
    requires SceneSound(w, Some(k)) && NamesSound(w) && IdsSound(w, Some(k)) && QueueSound(w)
    requires v == w.(toplevels := v.toplevels)
    ensures SceneSound(v, Some(k)) && NamesSound(v) && IdsSound(v, Some(k)) && QueueSound(v)
  {
  }

  lemma UnhandledWindows(w: World, k: ObjectKey)
    requires WindowsSound(w, None) && IsToplevel(w.clients, k)
    ensures WindowsSound(Unhandled(w, HandleOf(w.clients, k)), Some(k))
    ensures forall h | h in Unhandled(w, HandleOf(w.clients, k)).toplevels ::
              Unhandled(w, HandleOf(w.clients, k)).toplevels[h] != k
  {
  }

  // ----- the order of going -----

  /** The listing order of `ids_reverse_creation` with a filter: newest creation first, an
      identifier once for every time it was created. */
  function NewestOf(order: seq<ObjectId>, wanted: set<ObjectId>): (ids: seq<ObjectId>)
    ensures forall id :: id in ids <==> id in order && id in wanted
  {
    if order == [] then []
    else
      var rest := NewestOf(order[..|order| - 1], wanted);
      assert order == order[..|order| - 1] + [order[|order| - 1]];
      if order[|order| - 1] in wanted then [order[|order| - 1]] + rest else rest
  }

  /** Whatever was created later is listed before whatever was created earlier. */
  lemma {:induction false} NewestOfSplit(earlier: seq<ObjectId>, later: seq<ObjectId>, wanted: set<ObjectId>)
    ensures NewestOf(earlier + later, wanted) == NewestOf(later, wanted) + NewestOf(earlier, wanted)
    decreases |later|
  {
    if later == [] {
      assert earlier + later == earlier;
    } else {
      var order := earlier + later;
      assert order[..|order| - 1] == earlier + later[..|later| - 1];
      NewestOfSplit(earlier, later[..|later| - 1], wanted);
    }
  }

  // ----- counters and histories over steps -----

  /** What every step does to the counters, the histories and the names that were issued: handles
      and connections are never issued twice. */
  ghost predicate Grown(w: World, v: World) {
    && v.limit == w.limit && v.limits == w.limits
    && w.nextConnection <= v.nextConnection && w.nextCommit <= v.nextCommit
    && w.nextHandle <= v.nextHandle && w.nextGlobal <= v.nextGlobal && w.log <= v.log && w.drained <= v.drained
    && (forall c | c in v.clients && c < w.nextConnection :: c in w.clients)
    && (forall h | h in v.toplevels && h < w.nextHandle :: h in w.toplevels && v.toplevels[h] == w.toplevels[h])
    && (forall n | n in v.globals && n < w.nextGlobal :: n in w.globals && v.globals[n] == w.globals[n])
  }

  lemma GrownTrans(u: World, v: World, w: World)
    requires Grown(u, v) && Grown(v, w)
    ensures Grown(u, w)
  {
  }

  /** Shows one of these buffers. */
  predicate ShowsOneOf(cs: Clients, k: SurfaceKey, doomed: set<ObjectKey>) {
    exists b | b in doomed :: ShowsBuffer(cs, k, b)
  }

  /** A stacked surface has nothing to show only if it had nothing before, or showed one of these
      buffers. */
  ghost predicate LostOnly(w: World, v: World, doomed: set<ObjectKey>) {
    forall k | Hollow(v, k) :: Hollow(w, k) || ShowsOneOf(w.clients, k, doomed)
  }

  /** What a step may do that destroys at most these buffers and closes at most these connections of
      its own accord. Folded in the same way as `Holds`. */
  ghost predicate Moved(w: World, v: World, doomed: set<ObjectKey>, closing: set<ConnectionId>) {
    forall key: Key | Opened(key) :: Grown(w, v) && LostOnly(w, v, doomed) && OnlyFull(w, v, closing)
  }

  /** What a step may do that destroys no buffer and closes no connection: no stacked surface loses
      what it shows, and whoever goes had a full queue. */
  ghost predicate Onward(w: World, v: World) {
    forall key: Key | Opened(key) :: Grown(w, v) && LostOnly(w, v, {}) && OnlyFull(w, v, {})
  }

  lemma MovedIff(w: World, v: World, doomed: set<ObjectKey>, closing: set<ConnectionId>)
    ensures Moved(w, v, doomed, closing) <==> Grown(w, v) && LostOnly(w, v, doomed) && OnlyFull(w, v, closing)
  {
    Unlock();
  }

  lemma OnwardRefl(w: World)
    ensures Onward(w, w)
  {
    Unlock();
  }

  lemma OnwardTrans(u: World, v: World, w: World)
    requires Onward(u, v) && Onward(v, w)
    ensures Onward(u, w)
  {
    OnwardMoved(v, w, {}, {});
    MovedTrans(u, v, w, {}, {});
    MovedIff(u, w, {}, {});
  }

  lemma OnwardMoved(w: World, v: World, doomed: set<ObjectKey>, closing: set<ConnectionId>)
    requires Onward(w, v)
    ensures Moved(w, v, doomed, closing)
  {
    Unlock();
  }

  /** A change that takes no content and closes nobody, and then another. */
  lemma MovedTrans(u: World, v: World, w: World, doomed: set<ObjectKey>, closing: set<ConnectionId>)
    requires Onward(u, v) && Moved(v, w, doomed, closing)
    requires forall k | ShowsOneOf(v.clients, k, doomed) :: Hollow(u, k) || ShowsOneOf(u.clients, k, doomed)
    ensures Moved(u, w, doomed, closing)
  {
    Unlock();
    GrownTrans(u, v, w);
    OnlyFullTrans(u, v, w, {}, closing);
    assert {} + closing == closing;
    forall k | Hollow(w, k) ensures Hollow(u, k) || ShowsOneOf(u.clients, k, doomed) {
      assert Hollow(v, k) || ShowsOneOf(v.clients, k, doomed);
    }
  }

  /** Surfaces show what they showed. */
  ghost predicate SameSurfaces(cs: Clients, ds: Clients) {
    forall k :: SurfaceOf(ds, k) == SurfaceOf(cs, k)
  }

  lemma SameShows(cs: Clients, ds: Clients, doomed: set<ObjectKey>)
    requires SameSurfaces(cs, ds)
    ensures forall k :: ShowsOneOf(ds, k, doomed) <==> ShowsOneOf(cs, k, doomed)
  {
    forall k ensures ShowsOneOf(ds, k, doomed) <==> ShowsOneOf(cs, k, doomed) {
      assert SurfaceOf(ds, k) == SurfaceOf(cs, k);
      if ShowsOneOf(ds, k, doomed) {
        var b :| b in doomed && ShowsBuffer(ds, k, b);
        assert ShowsBuffer(cs, k, b);
      }
      if ShowsOneOf(cs, k, doomed) {
        var b :| b in doomed && ShowsBuffer(cs, k, b);
        assert ShowsBuffer(ds, k, b);
      }
    }
  }

  lemma ShrunkLost(w: World, v: World)
    requires Shrunk(w, v)
    ensures Grown(w, v) && LostOnly(w, v, {})
  {
    KeptKeys(w.stack, w.clients.Keys - v.clients.Keys, {});
    forall k | Hollow(v, k) ensures Hollow(w, k) {
      SameLookup(w.clients, v.clients, k.connection, k.objectId);
    }
  }

  lemma CascadedOnward(w: World, v: World)
    requires Cascaded(w, v)
    ensures Onward(w, v)
  {
    CascadedIff(w, v);
    ShrunkLost(w, v);
    Unlock();
  }

  lemma CascadedHolds(w: World, v: World, x: Dying)
    requires Holds(w, x) && Cascaded(w, v) && Ready(v)
    ensures Holds(v, x)
  {
    ReadyFacts(v);
    CascadedIff(w, v);
    ShrunkHolds(w, v, x);
  }

  lemma CascadedRegistries(w: World, v: World)
    requires Cascaded(w, v)
    ensures v.limits == w.limits && v.nextConnection == w.nextConnection
    ensures forall c | c in v.clients :: v.clients[c].registry == w.clients[c].registry
  {
    CascadedIff(w, v);
  }

  lemma CascadedFields(w: World, v: World)
    requires Cascaded(w, v)
    ensures v.fields.Keys <= w.fields.Keys
  {
    CascadedIff(w, v);
  }

  /** The scene and the focus after a cascade. */
  lemma CascadedScene(w: World, v: World)
    requires Cascaded(w, v)
    ensures forall k | k in v.stack :: k in w.stack
    ensures v.positions.Keys <= w.positions.Keys
    ensures v.keyboardFocus == KeepKey(w.keyboardFocus, w.clients.Keys - v.clients.Keys, {})
    ensures v.pointerTarget == KeepKey(w.pointerTarget, w.clients.Keys - v.clients.Keys, {})
  {
    CascadedIff(w, v);
    KeptKeys(w.stack, w.clients.Keys - v.clients.Keys, {});
  }

  lemma CascadedLookups(w: World, v: World)
    requires Cascaded(w, v)
    ensures v.clients.Keys <= w.clients.Keys
    ensures forall c, id :: Lookup(v.clients, c, id) == if c in v.clients then Lookup(w.clients, c, id) else None
  {
    CascadedIff(w, v);
    forall c, id ensures Lookup(v.clients, c, id) == if c in v.clients then Lookup(w.clients, c, id) else None {
      SameLookup(w.clients, v.clients, c, id);
    }
  }

  predicate IsSession(cs: Clients, c: ConnectionId, id: ObjectId) {
    Lookup(cs, c, id).Some? && Lookup(cs, c, id).value.SessionObject?
  }

  lemma FocusHolds(w: World, keyboard: Option<SurfaceKey>, pointer: Option<SurfaceKey>, x: Dying)
    requires Holds(w, x)
    requires pointer.Some? && pointer != w.pointerTarget ==> SurfaceOf(w.clients, pointer.value).Some?
    requires keyboard.Some? && keyboard != w.keyboardFocus ==>
               keyboard.value.connection < w.nextConnection && FocusLive(w.clients, keyboard.value)
    ensures Holds(w.(keyboardFocus := keyboard, pointerTarget := pointer), x)
  {
    Unlock();
    var v := w.(keyboardFocus := keyboard, pointerTarget := pointer);
    assert SceneSound(v, x);
    SceneHolds(w, v, x);
  }

  lemma FocusOnward(w: World, v: World)
    requires v == w.(keyboardFocus := v.keyboardFocus, pointerTarget := v.pointerTarget)
    ensures Onward(w, v)
  {
    Unlock();
  }

  /** Every live object of a connection is in its creation order. */
  lemma AllListed(w: World, c: ConnectionId)
    requires Holds(w, None) && c in w.clients
    ensures forall id | id in w.clients[c].registry.live :: id in w.clients[c].registry.order
  {
    Unlock();
    assert Sound(w.clients[c].registry, DyingIn(c, None));
  }

  /** An object nothing else names. */
  predicate Unnamed(o: Object) {
    !o.SurfaceObject? && !o.BufferObject? && !o.FenceObject? && !o.ToplevelObject?
  }

  lemma UnnamedIsLoose(w: World, k: ObjectKey)
    requires Holds(w, None) && Lookup(w.clients, k.connection, k.objectId).Some?
    requires Unnamed(Lookup(w.clients, k.connection, k.objectId).value)
    ensures Loose(w, k)
  {
    DyingHolds(w, k);
    Unlock();
    assert !IsToplevel(w.clients, k);
    PlainIsLoose(w, k);
  }

  lemma FenceLoose(w: World, k: ObjectKey)
    requires Holds(w, None) && LiveFence(w.clients, k.connection, k.objectId)
    requires forall id | SurfaceOf(w.clients, SurfaceKey(k.connection, id)).Some? ::
               !WaitsOn(SurfaceOf(w.clients, SurfaceKey(k.connection, id)).value, k.objectId)
    ensures Loose(w, k)
  {
    Unlock();
    FenceIsLoose(w, k);
  }

  lemma WindowIsLoose(w: World, k: ObjectKey, v: World)
    requires Cascaded(w, v) && k.connection in v.clients && Holds(v, Some(k)) && IsToplevel(w.clients, k)
    requires forall h | h in w.toplevels :: w.toplevels[h] != k
    ensures Lookup(v.clients, k.connection, k.objectId).Some? && Loose(v, k)
  {
    CascadedLookups(w, v);
    CascadedIff(w, v);
    Unlock();
    PlainIsLoose(v, k);
  }

  /** A surface whose buffers were released, once out of the scene and the focus, is named by nothing. */
  lemma UnplacedIsLoose(w: World, k: SurfaceKey, v: World)
    requires SurfaceOf(w.clients, k).Some? && k.connection in v.clients && Holds(v, Some(k))
    requires k !in v.stack && k !in v.positions && v.pointerTarget != Some(k) && v.keyboardFocus != Some(k)
    requires forall c, id :: Lookup(v.clients, c, id) == if c in v.clients then Lookup(w.clients, c, id) else None
    requires forall id | LiveBuffer(w.clients, k.connection, id) ::
               !NamesSurface(Lookup(w.clients, k.connection, id).value.held, k)
    ensures Lookup(v.clients, k.connection, k.objectId).Some? && Loose(v, k)
  {
    Unlock();
    forall id | LiveBuffer(v.clients, k.connection, id)
      ensures !NamesSurface(Lookup(v.clients, k.connection, id).value.held, k)
    {
      assert LiveBuffer(w.clients, k.connection, id);
    }
    SurfaceIsLoose(v, k);
  }
}
