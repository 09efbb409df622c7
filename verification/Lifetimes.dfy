/** Objects coming and going: creation, removal, and the two events after which an identifier is
    free again. Each keeps what holds between steps. */
module Lifetimes {
  import opened Basics
  import opened Model
  import opened Registry
  import opened World
  import opened Steps

  // ----- changes that no lookup sees -----

  /** Every lookup gives what it gave; counts, identifiers set aside, events and histories may differ. */
  ghost predicate SameView(w: World, v: World) {
    && v == w.(clients := v.clients, log := v.log, events := v.events, drained := v.drained)
    && v.clients.Keys == w.clients.Keys
    && (forall c, id :: Lookup(v.clients, c, id) == Lookup(w.clients, c, id))
  }

  lemma ViewScene(w: World, v: World, x: Dying)
    requires SceneSound(w, x) && SameView(w, v)
    ensures SceneSound(v, x)
  {
    forall k ensures SurfaceOf(v.clients, k) == SurfaceOf(w.clients, k) {
    }
    forall k | HasContent(v.clients, k) && x != Some(k) ensures k in v.stack {
      assert HasContent(w.clients, k);
    }
  }

  lemma ViewBuffers(w: World, v: World)
    requires BuffersSound(w) && SameView(w, v)
    ensures BuffersSound(v)
  {
    forall c, id | LiveBuffer(v.clients, c, id) ensures BufferSound(v, c, id, Lookup(v.clients, c, id).value.held) {
      assert LiveBuffer(w.clients, c, id);
      assert BufferSound(w, c, id, Lookup(w.clients, c, id).value.held);
    }
    forall k | SurfaceOf(v.clients, k).Some?
      ensures SurfaceNamesLive(v, k.connection, SurfaceOf(v.clients, k).value)
    {
      assert SurfaceNamesLive(w, k.connection, SurfaceOf(w.clients, k).value);
    }
  }

  lemma ViewWindows(w: World, v: World, x: Dying)
    requires WindowsSound(w, x) && SameView(w, v)
    ensures WindowsSound(v, x)
  {
    forall k: ObjectKey
      ensures IsToplevel(v.clients, k) <==> IsToplevel(w.clients, k)
      ensures IsToplevel(v.clients, k) ==> HandleOf(v.clients, k) == HandleOf(w.clients, k)
                                           && WindowSurface(v.clients, k) == WindowSurface(w.clients, k)
    {
    }
  }

  /** What such a change can still upset is the identifiers and the queue. */
  lemma ViewHolds(w: World, v: World, x: Dying)
    requires Holds(w, x) && SameView(w, v) && IdsSound(v, x) && QueueSound(v)
    ensures Holds(v, x)
  {
    Unlock();
    ViewScene(w, v, x);
    ViewBuffers(w, v);
    ViewWindows(w, v, x);
  }

  // ----- creation -----

  /** The state with one object more, its identifier taken. */
  function Born(w: World, k: ObjectKey, o: Object): World
    requires k.connection in w.clients
  {
    var client := w.clients[k.connection];
    var r := client.registry;
    var registry := r.(live := r.live[k.objectId := o], used := r.used + {k.objectId}, order := r.order + [k.objectId]);
    w.(clients := w.clients[k.connection := client.(registry := registry)],
       log := w.log + [Created(k.connection, k.objectId)])
  }

  /** Nothing is attached to a new surface and nobody has a new buffer. */
  predicate Inert(o: Object) {
    match o
    case SurfaceObject(s) => s.attachment.Unchanged? && s.acquireFence.None? && s.current.None?
    case BufferObject(_, held) => held.Available?
    case _ => true
  }

  lemma BornLookup(w: World, k: ObjectKey, o: Object, c: ConnectionId, id: ObjectId)
    requires k.connection in w.clients
    ensures Lookup(Born(w, k, o).clients, c, id) == if SurfaceKey(c, id) == k then Some(o) else Lookup(w.clients, c, id)
  {
  }

  /** An identifier that is not taken is no live object's. */
  lemma FreshIsAbsent(w: World, k: ObjectKey)
    requires IdsSound(w, None) && k.connection in w.clients && k.objectId !in w.clients[k.connection].registry.used
    ensures Lookup(w.clients, k.connection, k.objectId).None?
  {
    assert Sound(w.clients[k.connection].registry, DyingIn(k.connection, None));
  }

  lemma BornScene(w: World, k: ObjectKey, o: Object)
    requires SceneSound(w, None) && k.connection in w.clients && Lookup(w.clients, k.connection, k.objectId).None? && Inert(o)
    ensures SceneSound(Born(w, k, o), None)
  {
    var v := Born(w, k, o);
    assert SurfaceOf(w.clients, k).None?;
    forall l ensures SurfaceOf(v.clients, l) == if l == k then (if o.SurfaceObject? then Some(o.state) else None)
                                                else SurfaceOf(w.clients, l)
    {
      BornLookup(w, k, o, l.connection, l.objectId);
    }
    forall l | HasContent(v.clients, l) ensures l in v.stack {
      assert HasContent(w.clients, l);
    }
  }

  lemma BornBuffers(w: World, k: ObjectKey, o: Object)
    requires BuffersSound(w) && k.connection in w.clients && Lookup(w.clients, k.connection, k.objectId).None? && Inert(o)
    ensures BuffersSound(Born(w, k, o))
  {
    var v := Born(w, k, o);
    forall c, id ensures Lookup(v.clients, c, id) == if SurfaceKey(c, id) == k then Some(o) else Lookup(w.clients, c, id) {
      BornLookup(w, k, o, c, id);
    }
    forall c, id | LiveBuffer(v.clients, c, id) ensures BufferSound(v, c, id, Lookup(v.clients, c, id).value.held) {
      if SurfaceKey(c, id) != k {
        assert LiveBuffer(w.clients, c, id);
        assert BufferSound(w, c, id, Lookup(w.clients, c, id).value.held);
      }
    }
    forall l | SurfaceOf(v.clients, l).Some?
      ensures SurfaceNamesLive(v, l.connection, SurfaceOf(v.clients, l).value)
    {
      if l != k {
        assert SurfaceNamesLive(w, l.connection, SurfaceOf(w.clients, l).value);
      }
    }
  }

  lemma HistoryOne(log: seq<Entry>, e: Entry, c: ConnectionId, id: ObjectId)
    ensures IdHistory(log + [e], c, id)
            == match e
               case Created(d, n) => if d == c && n == id then Taken else IdHistory(log, c, id)
               case Queued(event) =>
                 if event.connection != c || event.objectId != id then IdHistory(log, c, id)
                 else if event.kind.ObjectDestroyed? && IdHistory(log, c, id) == Taken then Gone
                 else if event.kind.IdRetired? && IdHistory(log, c, id) == Gone then Unused
                 else IdHistory(log, c, id)
  {
    assert (log + [e])[..|log|] == log;
  }

  lemma OrderOne(log: seq<Entry>, e: Entry)
    requires ReuseOrdered(log)
    requires e.Created? ==> IdHistory(log, e.connection, e.id) == Unused
    ensures ReuseOrdered(log + [e])
  {
    var more := log + [e];
    forall i | 0 <= i < |more| && more[i].Created?
      ensures IdHistory(more[..i], more[i].connection, more[i].id) == Unused
    {
      if i < |log| {
        assert more[..i] == log[..i] && more[i] == log[i];
      } else {
        assert more[..i] == log;
      }
    }
  }

  lemma BornIds(w: World, k: ObjectKey, o: Object)
    requires IdsSound(w, None) && k.connection in w.clients && k.objectId !in w.clients[k.connection].registry.used
    ensures IdsSound(Born(w, k, o), None)
  {
    var v := Born(w, k, o);
    var e := Created(k.connection, k.objectId);
    assert None != Some(k);
    OrderOne(w.log, e);
    forall c, id | c in v.clients
      ensures IdHistory(v.log, c, id) == if id in v.clients[c].registry.used then Taken else Unused
    {
      HistoryOne(w.log, e, c, id);
      assert None != Some(SurfaceKey(c, id));
    }
    forall c | c in v.clients ensures c < v.nextConnection && Sound(v.clients[c].registry, DyingIn(c, None)) {
      assert Sound(w.clients[c].registry, DyingIn(c, None));
    }
  }

  lemma BornQueue(w: World, k: ObjectKey, o: Object)
    requires QueueSound(w) && k.connection in w.clients
    ensures QueueSound(Born(w, k, o))
  {
    var e := Created(k.connection, k.objectId);
    assert (w.log + [e])[..|w.log|] == w.log;
  }

  lemma BornWindows(w: World, k: ObjectKey, o: Object)
    requires WindowsSound(w, None) && k.connection in w.clients && Lookup(w.clients, k.connection, k.objectId).None?
    requires !o.ToplevelObject?
    ensures WindowsSound(Born(w, k, o), None)
  {
    var v := Born(w, k, o);
    forall l: ObjectKey
      ensures IsToplevel(v.clients, l) <==> IsToplevel(w.clients, l)
      ensures IsToplevel(v.clients, l) ==> HandleOf(v.clients, l) == HandleOf(w.clients, l)
                                           && WindowSurface(v.clients, l) == WindowSurface(w.clients, l)
    {
      BornLookup(w, k, o, l.connection, l.objectId);
    }
  }

  /** A new object that is not a window keeps everything. */
  lemma BornHolds(w: World, k: ObjectKey, o: Object)
    requires Holds(w, None) && k.connection in w.clients && k.objectId !in w.clients[k.connection].registry.used
    requires Inert(o) && !o.ToplevelObject?
    ensures Holds(Born(w, k, o), None)
  {
    Unlock();
    FreshIsAbsent(w, k);
    BornScene(w, k, o);
    BornBuffers(w, k, o);
    BornWindows(w, k, o);
    BornIds(w, k, o);
    BornQueue(w, k, o);
  }

  /** A new window: the next handle, and never that handle again. */
  function WindowBorn(w: World, k: ObjectKey, surface: ObjectId): World
    requires k.connection in w.clients
  {
    Born(w, k, ToplevelObject(surface, w.nextHandle)).(toplevels := w.toplevels[w.nextHandle := k],
                                                       nextHandle := w.nextHandle + 1)
  }

  lemma WindowBornSound(w: World, k: ObjectKey, surface: ObjectId)
    requires WindowsSound(w, None) && k.connection in w.clients && Lookup(w.clients, k.connection, k.objectId).None?
    requires forall l | IsToplevel(w.clients, l) && l.connection == k.connection :: WindowSurface(w.clients, l) != surface
    ensures WindowsSound(WindowBorn(w, k, surface), None)
  {
    var v := WindowBorn(w, k, surface);
    forall l: ObjectKey
      ensures IsToplevel(v.clients, l) <==> l == k || IsToplevel(w.clients, l)
      ensures IsToplevel(v.clients, l) && l != k ==> HandleOf(v.clients, l) == HandleOf(w.clients, l)
                                                     && WindowSurface(v.clients, l) == WindowSurface(w.clients, l)
      ensures l == k ==> HandleOf(v.clients, l) == w.nextHandle && WindowSurface(v.clients, l) == surface
    {
      BornLookup(w, k, ToplevelObject(surface, w.nextHandle), l.connection, l.objectId);
    }
  }

  lemma WindowOnlyHolds(w: World, v: World)
    requires SceneSound(w, None) && BuffersSound(w) && NamesSound(w) && IdsSound(w, None) && QueueSound(w)
    requires v == w.(toplevels := v.toplevels, nextHandle := v.nextHandle)
    ensures SceneSound(v, None) && BuffersSound(v) && NamesSound(v) && IdsSound(v, None) && QueueSound(v)
  {
    BuffersDepend(w, v);
  }

  lemma WindowBornHolds(w: World, k: ObjectKey, surface: ObjectId)
    requires Holds(w, None) && k.connection in w.clients && k.objectId !in w.clients[k.connection].registry.used
    requires forall l | IsToplevel(w.clients, l) && l.connection == k.connection :: WindowSurface(w.clients, l) != surface
    ensures Holds(WindowBorn(w, k, surface), None)
  {
    Unlock();
    var o := ToplevelObject(surface, w.nextHandle);
    FreshIsAbsent(w, k);
    BornScene(w, k, o);
    BornBuffers(w, k, o);
    BornIds(w, k, o);
    BornQueue(w, k, o);
    WindowOnlyHolds(Born(w, k, o), WindowBorn(w, k, surface));
    WindowBornSound(w, k, surface);
  }
}
