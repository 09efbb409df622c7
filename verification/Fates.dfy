/** What destroying objects takes, exactly: which objects go, what their going takes from the scene and
    from other objects, and that everything else of every connection that is left stays as it was. */
module Fates {
  import opened Basics
  import opened Model
  import opened World
  import opened Cascade
  import opened Steps
  import opened Lifetimes
  import opened Destruction

  /** Objects that go, objects that leave the scene, the focus and the handles before they go, buffers
      that go, and buffers that go back to their clients for a reason of their own. */
  datatype Fate = Fate(falls: set<ObjectKey>, left: set<ObjectKey>, dropped: set<ObjectKey>, freed: set<ObjectKey>)

  function Nothing(): Fate {
    Fate({}, {}, {}, {})
  }

  function Both(a: Fate, b: Fate): Fate {
    Fate(a.falls + b.falls, a.left + b.left, a.dropped + b.dropped, a.freed + b.freed)
  }

  function Falling(ks: set<ObjectKey>): Fate {
    Fate(ks, {}, {}, {})
  }

  function Leaving(k: ObjectKey): Fate {
    Fate({}, {k}, {}, {})
  }

  function Dropping(b: ObjectKey): Fate {
    Fate({}, {}, {b}, {})
  }

  function Freeing(bs: set<ObjectKey>): Fate {
    Fate({}, {}, {}, bs)
  }

  lemma FallingBoth(a: set<ObjectKey>, b: set<ObjectKey>)
    ensures Both(Falling(a), Falling(b)) == Falling(a + b)
    ensures Both(Freeing(a), Freeing(b)) == Freeing(a + b)
  {
  }

  lemma NothingMore(f: Fate)
    ensures Both(f, Nothing()) == f && Both(Nothing(), f) == f
  {
  }

  /** Whatever is in the scene, the focus or the handles only while it lives. */
  function Out(f: Fate): set<ObjectKey> {
    f.falls + f.left + f.dropped
  }

  /** What becomes of an object: it goes; a buffer goes back to its client when the surface that had it
      goes, or of its own accord; a surface forgets the buffers that go; anything else stays. */
  function After(o: Object, k: ObjectKey, f: Fate): Option<Object> {
    if k in f.falls || k in f.dropped then None
    else match o
      case BufferObject(_, held) =>
        Some(if k in f.freed || (!held.Available? && held.surface in f.falls) then o.(held := Available) else o)
      case SurfaceObject(_) => Some(Forget(o, k.connection, f.dropped))
      case _ => Some(o)
  }

  function Remains(cs: Clients, ds: Clients, k: ObjectKey, f: Fate): Option<Object> {
    var o := Lookup(cs, k.connection, k.objectId);
    if k.connection in ds && o.Some? then After(o.value, k, f) else None
  }

  predicate SameButObjects(a: Connection, b: Connection) {
    && b == a.(pendingEvents := b.pendingEvents, registry := b.registry)
    && b.registry.order == a.registry.order
  }

  ghost predicate ObjectsLeft(cs: Clients, ds: Clients, f: Fate) {
    && ds.Keys <= cs.Keys
    && (forall c | c in ds :: SameButObjects(cs[c], ds[c]))
    && (forall c, id :: Lookup(ds, c, id) == Remains(cs, ds, SurfaceKey(c, id), f))
  }

  ghost predicate SceneLeft(w: World, v: World, out: set<ObjectKey>) {
    var gone := w.clients.Keys - v.clients.Keys;
    && v.positions == KeepPositions(w.positions, gone, out) && v.stack == KeepKeys(w.stack, gone, out)
    && v.toplevels == KeepWindows(w.toplevels, gone, out)
    && v.keyboardFocus == KeepKey(w.keyboardFocus, gone, out) && v.pointerTarget == KeepKey(w.pointerTarget, gone, out)
  }

  /** Names are given up by the connections that went, and by no other. */
  ghost predicate NamesLeft(w: World, v: World) {
    var gone := w.clients.Keys - v.clients.Keys;
    && v.shortcuts == KeepShortcuts(w.shortcuts, gone) && v.fields == KeepFields(w.fields, gone)
    && v.inputMethod == KeepKey(w.inputMethod, gone, {})
  }

  ghost predicate SameRest(w: World, v: World) {
    v == w.(clients := v.clients, positions := v.positions, stack := v.stack, toplevels := v.toplevels,
            keyboardFocus := v.keyboardFocus, pointerTarget := v.pointerTarget, shortcuts := v.shortcuts,
            fields := v.fields, inputMethod := v.inputMethod, composing := v.composing, composition := v.composition,
            events := v.events, log := v.log)
  }

  /** A buffer somebody has goes back to its client. */
  predicate Frees(cs: Clients, b: ObjectKey, f: Fate) {
    && LiveBuffer(cs, b.connection, b.objectId) && b !in f.falls && b !in f.dropped
    && var held := Lookup(cs, b.connection, b.objectId).value.held;
       !held.Available? && (b in f.freed || held.surface in f.falls)
  }

  /** Clients are told of every buffer they get back. */
  ghost predicate FreedTold(w: World, v: World, f: Fate) {
    forall b | Frees(w.clients, b, f) :: Told(w, v, Notice(b, BufferRelease))
  }

  /** Exactly this was taken, by destruction and by connections going whose queues were full; and shells
      were told of the windows, clients of the buffers. Folded in the same way as `Holds`. */
  ghost predicate Reduced(w: World, v: World, f: Fate) {
    forall key: Key | Opened(key) ::
      && SameRest(w, v) && ObjectsLeft(w.clients, v.clients, f) && SceneLeft(w, v, Out(f)) && NamesLeft(w, v)
      && w.log <= v.log && ShellsKnow(w, v) && OnlyFull(w, v, {}) && FreedTold(w, v, f)
  }

  lemma ReducedIff(w: World, v: World, f: Fate)
    ensures Reduced(w, v, f) <==> && SameRest(w, v) && ObjectsLeft(w.clients, v.clients, f) && SceneLeft(w, v, Out(f))
                                  && NamesLeft(w, v) && w.log <= v.log && ShellsKnow(w, v) && OnlyFull(w, v, {})
                                  && FreedTold(w, v, f)
  {
    Unlock();
  }

  // ----- one after another -----

  lemma AfterTwice(o: Object, k: ObjectKey, f: Fate, g: Fate)
    ensures After(o, k, Both(f, g)) == if After(o, k, f).Some? then After(After(o, k, f).value, k, g) else None
  {
  }

  lemma ObjectsTwice(a: Clients, b: Clients, c: Clients, f: Fate, g: Fate)
    requires ObjectsLeft(a, b, f) && ObjectsLeft(b, c, g)
    ensures ObjectsLeft(a, c, Both(f, g))
  {
    forall n, id ensures Lookup(c, n, id) == Remains(a, c, SurfaceKey(n, id), Both(f, g)) {
      var k := SurfaceKey(n, id);
      assert Lookup(b, n, id) == Remains(a, b, k, f);
      assert Lookup(c, n, id) == Remains(b, c, k, g);
      if Lookup(a, n, id).Some? {
        AfterTwice(Lookup(a, n, id).value, k, f, g);
      }
    }
  }

  lemma SceneTwice(u: World, v: World, w: World, first: set<ObjectKey>, second: set<ObjectKey>)
    requires SceneLeft(u, v, first) && SceneLeft(v, w, second)
    requires v.clients.Keys <= u.clients.Keys && w.clients.Keys <= v.clients.Keys
    ensures SceneLeft(u, w, first + second)
  {
    var a, b := u.clients.Keys - v.clients.Keys, v.clients.Keys - w.clients.Keys;
    assert u.clients.Keys - w.clients.Keys == a + b;
    KeepKeysTwice(u.stack, a, first, b, second);
    KeepMapsTwice(u.positions, u.toplevels, a, first, b, second);
  }

  lemma NamesTwice(u: World, v: World, w: World)
    requires NamesLeft(u, v) && NamesLeft(v, w)
    requires v.clients.Keys <= u.clients.Keys && w.clients.Keys <= v.clients.Keys
    ensures NamesLeft(u, w)
  {
    var a, b := u.clients.Keys - v.clients.Keys, v.clients.Keys - w.clients.Keys;
    assert u.clients.Keys - w.clients.Keys == a + b;
    KeepNamesTwice(u.shortcuts, u.fields, a, b);
  }

  lemma FreedTwice(u: World, v: World, w: World, f: Fate, g: Fate)
    requires ObjectsLeft(u.clients, v.clients, f) && FreedTold(u, v, f) && FreedTold(v, w, g)
    requires u.log <= v.log <= w.log && w.clients.Keys <= v.clients.Keys
    ensures FreedTold(u, w, Both(f, g))
  {
    forall b | Frees(u.clients, b, Both(f, g)) ensures Told(u, w, Notice(b, BufferRelease)) {
      if Frees(u.clients, b, f) {
        ToldKept(u, v, w, Notice(b, BufferRelease));
      } else if b.connection in v.clients {
        assert Lookup(v.clients, b.connection, b.objectId) == Remains(u.clients, v.clients, b, f);
        assert Frees(v.clients, b, g);
        ToldSince(u, v, w, Notice(b, BufferRelease));
      } else {
        ToldGone(u, w, Notice(b, BufferRelease));
      }
    }
  }

  lemma ReducedTrans(u: World, v: World, w: World, f: Fate, g: Fate)
    requires Reduced(u, v, f) && Reduced(v, w, g)
    ensures Reduced(u, w, Both(f, g))
  {
    ReducedIff(u, v, f);
    ReducedIff(v, w, g);
    ObjectsTwice(u.clients, v.clients, w.clients, f, g);
    SceneTwice(u, v, w, Out(f), Out(g));
    assert Out(f) + Out(g) == Out(Both(f, g));
    NamesTwice(u, v, w);
    FreedTwice(u, v, w, f, g);
    forall k | IsShell(w.clients, k) ensures IsShell(v.clients, k) {
      assert Lookup(w.clients, k.connection, k.objectId) == Remains(v.clients, w.clients, k, g);
    }
    KnownTrans(u, v, w);
    FullTwice(u, v, w);
    ReducedIff(u, w, Both(f, g));
  }

  lemma FullTwice(u: World, v: World, w: World)
    requires OnlyFull(u, v, {}) && OnlyFull(v, w, {}) && u.log <= v.log <= w.log && SameRest(u, v) && SameRest(v, w)
    ensures OnlyFull(u, w, {})
  {
    var none: set<ConnectionId> := {};
    OnlyFullTrans(u, v, w, none, none);
    assert none + none == none;
  }

  /** The same, said of fewer or more objects that make no difference. */
  ghost predicate SameFate(w: World, v: World, f: Fate, g: Fate) {
    && (forall k: ObjectKey | k.connection in v.clients && Lookup(w.clients, k.connection, k.objectId).Some? ::
          && After(Lookup(w.clients, k.connection, k.objectId).value, k, f)
             == After(Lookup(w.clients, k.connection, k.objectId).value, k, g)
          && (Frees(w.clients, k, g) ==> Frees(w.clients, k, f)))
    && (forall k: ObjectKey | k.connection !in w.clients.Keys - v.clients.Keys && Named(w, k) ::
          k in Out(f) <==> k in Out(g))
  }

  /** In the scene, the focus or the handles. */
  ghost predicate Named(w: World, k: ObjectKey) {
    || k in w.stack || k in w.positions || w.keyboardFocus == Some(k) || w.pointerTarget == Some(k)
    || exists h :: h in w.toplevels && w.toplevels[h] == k
  }

  lemma ReducedAlike(w: World, v: World, f: Fate, g: Fate)
    requires Reduced(w, v, f) && SameFate(w, v, f, g)
    ensures Reduced(w, v, g)
  {
    ReducedIff(w, v, f);
    forall c, id ensures Lookup(v.clients, c, id) == Remains(w.clients, v.clients, SurfaceKey(c, id), g) {
      assert Lookup(v.clients, c, id) == Remains(w.clients, v.clients, SurfaceKey(c, id), f);
    }
    SceneAlike(w, v, f, g);
    forall b | Frees(w.clients, b, g) ensures Told(w, v, Notice(b, BufferRelease)) {
      if b.connection !in v.clients {
        ToldGone(w, v, Notice(b, BufferRelease));
      }
    }
    ReducedIff(w, v, g);
  }

  lemma SceneAlike(w: World, v: World, f: Fate, g: Fate)
    requires SceneLeft(w, v, Out(f))
    requires forall k: ObjectKey | k.connection !in w.clients.Keys - v.clients.Keys && Named(w, k) ::
               k in Out(f) <==> k in Out(g)
    ensures SceneLeft(w, v, Out(g))
  {
    var gone := w.clients.Keys - v.clients.Keys;
    forall k | Named(w, k) ensures Stays(k, gone, Out(f)) <==> Stays(k, gone, Out(g)) {
    }
    KeepKeysAlike(w.stack, gone, Out(f), gone, Out(g));
    assert KeepWindows(w.toplevels, gone, Out(f)) == KeepWindows(w.toplevels, gone, Out(g)) by {
      forall h | h in w.toplevels ensures Stays(w.toplevels[h], gone, Out(f)) <==> Stays(w.toplevels[h], gone, Out(g)) {
        assert Named(w, w.toplevels[h]);
      }
    }
  }

  // ----- what each change takes -----

  lemma AfterNothing(o: Object, k: ObjectKey)
    ensures After(o, k, Nothing()) == Some(o)
  {
  }

  /** The scene as it was, with none of these in it. */
  lemma SceneKept(w: World, v: World, out: set<ObjectKey>)
    requires v.clients.Keys == w.clients.Keys && v.positions == w.positions && v.stack == w.stack
    requires v.toplevels == w.toplevels && v.keyboardFocus == w.keyboardFocus && v.pointerTarget == w.pointerTarget
    requires forall k: ObjectKey | Named(w, k) :: k !in out
    ensures SceneLeft(w, v, out)
  {
    var gone := w.clients.Keys - v.clients.Keys;
    assert gone == {};
    KeepKeysAlike(w.stack, gone, out, {}, {});
    KeepAllKeys(w.stack);
    forall h | h in w.toplevels ensures Stays(w.toplevels[h], gone, out) {
      assert Named(w, w.toplevels[h]);
    }
  }

  lemma NamesKept(w: World, v: World)
    requires v.clients.Keys == w.clients.Keys
    requires v.shortcuts == w.shortcuts && v.fields == w.fields && v.inputMethod == w.inputMethod
    ensures NamesLeft(w, v)
  {
    assert w.clients.Keys - v.clients.Keys == {};
  }

  /** One connection's objects changed, and nothing told. */
  lemma OneReduced(w: World, v: World, c: ConnectionId, f: Fate)
    requires v == w.(clients := v.clients) && c in w.clients && v.clients.Keys == w.clients.Keys
    requires ObjectsLeft(w.clients, v.clients, f) && FreedTold(w, v, f)
    requires forall k: ObjectKey | Named(w, k) :: k !in Out(f)
    ensures Reduced(w, v, f)
  {
    SceneKept(w, v, Out(f));
    NamesKept(w, v);
    SameWindowsKnown(w, v);
    ReducedIff(w, v, f);
  }

  /** A change no lookup sees takes nothing. */
  lemma ViewReduced(w: World, v: World)
    requires SameView(w, v) && w.log <= v.log && v.drained == w.drained
    requires forall c | c in v.clients :: SameButObjects(w.clients[c], v.clients[c])
    ensures Reduced(w, v, Nothing())
  {
    forall c, id ensures Lookup(v.clients, c, id) == Remains(w.clients, v.clients, SurfaceKey(c, id), Nothing()) {
      if Lookup(w.clients, c, id).Some? {
        AfterNothing(Lookup(w.clients, c, id).value, SurfaceKey(c, id));
      }
    }
    SceneKept(w, v, Out(Nothing()));
    NamesKept(w, v);
    SameWindowsKnown(w, v);
    ReducedIff(w, v, Nothing());
  }

  lemma ReducedRefl(w: World)
    ensures Reduced(w, w, Nothing())
  {
    ViewReduced(w, w);
  }

  lemma CascadedReduced(w: World, v: World)
    requires Cascaded(w, v)
    ensures Reduced(w, v, Nothing())
  {
    CascadedIff(w, v);
    forall c, id ensures Lookup(v.clients, c, id) == Remains(w.clients, v.clients, SurfaceKey(c, id), Nothing()) {
      SameLookup(w.clients, v.clients, c, id);
      if Lookup(w.clients, c, id).Some? {
        AfterNothing(Lookup(w.clients, c, id).value, SurfaceKey(c, id));
      }
    }
    assert Out(Nothing()) == {};
    ReducedIff(w, v, Nothing());
  }

  lemma AppendedReduced(w: World, e: Event)
    requires e.connection in w.clients
    ensures Reduced(w, Appended(w, e), Nothing())
  {
    AppendedView(w, e);
    ViewReduced(w, Appended(w, e));
  }

  lemma FreedReduced(w: World, k: ObjectKey)
    requires k.connection in w.clients && Lookup(w.clients, k.connection, k.objectId).None?
    ensures Reduced(w, Freed(w, k), Nothing())
  {
    FreedView(w, k);
    ViewReduced(w, Freed(w, k));
  }

  /** An object nothing names, removed. */
  lemma RemovedReduced(w: World, k: ObjectKey)
    requires Holds(w, Some(k)) && k.connection in w.clients && Loose(w, k)
    ensures Reduced(w, Removed(w, k), Falling({k}))
  {
    var v, f := Removed(w, k), Falling({k});
    LooseFrees(w, k);
    RemovedObjects(w, k);
    OneReduced(w, v, k.connection, f);
  }

  lemma LooseFrees(w: World, k: ObjectKey)
    requires Holds(w, Some(k)) && Loose(w, k)
    ensures forall b :: !Frees(w.clients, b, Falling({k}))
  {
    forall b ensures !Frees(w.clients, b, Falling({k})) {
      if LiveBuffer(w.clients, b.connection, b.objectId) {
        HeldSound(w, k, b);
      }
    }
  }

  lemma RemovedObjects(w: World, k: ObjectKey)
    requires k.connection in w.clients && forall b :: !Frees(w.clients, b, Falling({k}))
    ensures ObjectsLeft(w.clients, Removed(w, k).clients, Falling({k}))
  {
    var v, f := Removed(w, k), Falling({k});
    forall c, id ensures Lookup(v.clients, c, id) == Remains(w.clients, v.clients, SurfaceKey(c, id), f) {
      RemovedLookup(w, k, c, id);
      if Lookup(w.clients, c, id).Some? && SurfaceKey(c, id) != k {
        AfterOther(w, SurfaceKey(c, id), f);
      }
    }
  }

  /** Whoever has a buffer is of its own connection. */
  lemma HeldSound(w: World, k: ObjectKey, b: ObjectKey)
    requires Holds(w, Some(k)) && LiveBuffer(w.clients, b.connection, b.objectId)
    ensures var held := Lookup(w.clients, b.connection, b.objectId).value.held;
            !held.Available? ==> held.surface.connection == b.connection && SurfaceOf(w.clients, held.surface).Some?
  {
    Unlock();
    assert BufferSound(w, b.connection, b.objectId, Lookup(w.clients, b.connection, b.objectId).value.held);
  }

  /** What does not go, is not freed and loses no buffer stays as it is. */
  lemma AfterOther(w: World, k: ObjectKey, f: Fate)
    requires Lookup(w.clients, k.connection, k.objectId).Some? && k !in f.falls && f.dropped == {} && !Frees(w.clients, k, f)
    ensures After(Lookup(w.clients, k.connection, k.objectId).value, k, f) == Lookup(w.clients, k.connection, k.objectId)
  {
  }

  /** A buffer made available and its client told. */
  lemma ReleasedReduced(w: World, b: ObjectKey, v: World)
    requires LiveBuffer(w.clients, b.connection, b.objectId)
    requires Sent(Released(w, b), Notice(b, BufferRelease), v)
    ensures Reduced(w, v, Freeing({b}))
  {
    var r, f := Released(w, b), Freeing({b});
    ReleasedObjects(w, b);
    assert Out(f) == {};
    SceneKept(w, r, {});
    NamesKept(w, r);
    CascadedReduced(r, v);
    SentTold(r, Notice(b, BufferRelease), v);
    ToldSince(w, r, v, Notice(b, BufferRelease));
    FreeingTold(w, b, v);
    LaterReduced(w, r, v, f);
  }

  lemma FreeingTold(w: World, b: ObjectKey, v: World)
    requires Told(w, v, Notice(b, BufferRelease))
    ensures FreedTold(w, v, Freeing({b}))
  {
  }

  /** A change within the connections there are, and then a cascade that tells of it. */
  lemma LaterReduced(w: World, r: World, v: World, f: Fate)
    requires SameRest(w, r) && ObjectsLeft(w.clients, r.clients, f) && SceneLeft(w, r, Out(f)) && NamesLeft(w, r)
    requires r.log == w.log && r.toplevels == w.toplevels && r.clients.Keys == w.clients.Keys
    requires Reduced(r, v, Nothing()) && FreedTold(w, v, f)
    ensures Reduced(w, v, f)
  {
    ReducedIff(r, v, Nothing());
    ObjectsTwice(w.clients, r.clients, v.clients, f, Nothing());
    NothingMore(f);
    SceneTwice(w, r, v, Out(f), Out(Nothing()));
    assert Out(f) + Out(Nothing()) == Out(f);
    NamesTwice(w, r, v);
    KnownSince(w, r, v);
    FullTwice(w, r, v);
    ReducedIff(w, v, f);
  }

  lemma ReleasedObjects(w: World, b: ObjectKey)
    requires LiveBuffer(w.clients, b.connection, b.objectId)
    ensures ObjectsLeft(w.clients, Released(w, b).clients, Freeing({b}))
  {
    var o := Lookup(w.clients, b.connection, b.objectId).value.(held := Available);
    forall c, id
      ensures Lookup(Released(w, b).clients, c, id)
              == Remains(w.clients, Released(w, b).clients, SurfaceKey(c, id), Freeing({b}))
    {
      WithObjectLookup(w.clients, b, o, c, id);
    }
  }

  /** What is neither a surface nor a window is nowhere in the scene, the focus or the handles. */
  lemma NotNamed(w: World, k: ObjectKey)
    requires Holds(w, None) && Lookup(w.clients, k.connection, k.objectId).Some?
    requires SurfaceOf(w.clients, k).None? && !IsToplevel(w.clients, k)
    ensures !Named(w, k)
  {
    Unlock();
  }

  lemma DroppedObjects(cs: Clients, b: ObjectKey)
    requires b.connection in cs
    ensures ObjectsLeft(cs, DroppedClients(cs, b), Dropping(b))
  {
    forall c, id
      ensures Lookup(DroppedClients(cs, b), c, id) == Remains(cs, DroppedClients(cs, b), SurfaceKey(c, id), Dropping(b))
    {
      DroppedLookup(cs, b, c, id);
    }
  }

  /** A buffer gone, and forgotten by whatever named it. */
  lemma DroppedReduced(w: World, b: ObjectKey)
    requires Holds(w, None) && LiveBuffer(w.clients, b.connection, b.objectId)
    ensures Reduced(w, Dropped(w, b), Dropping(b))
  {
    var v, f := Dropped(w, b), Dropping(b);
    DroppedObjects(w.clients, b);
    NotNamed(w, b);
    OneReduced(w, v, b.connection, f);
  }

  /** The focus taken from a surface. */
  function Unfocused(w: World, k: SurfaceKey): World {
    w.(keyboardFocus := if w.keyboardFocus == Some(k) then None else w.keyboardFocus,
       pointerTarget := if w.pointerTarget == Some(k) then None else w.pointerTarget)
  }

  /** A surface out of the scene, and then out of the focus, its client told meanwhile. */
  lemma LeavingReduced(w: World, k: SurfaceKey, told: World)
    requires Holds(w, None) && SurfaceOf(w.clients, k).Some? && Cascaded(Unplaced(w, k), told)
    ensures Reduced(w, Unfocused(told, k), Leaving(k))
  {
    var u, v, f := Unplaced(w, k), Unfocused(told, k), Leaving(k);
    CascadedReduced(u, told);
    ReducedIff(u, told, Nothing());
    LeavingObjects(w.clients, told.clients, f);
    LeavingScene(w, k, told);
    assert Out(f) == {k};
    KnownSince(w, u, told);
    assert ShellsKnow(w, v) by {
      Unlock();
    }
    assert OnlyFull(w, v, {}) by {
      FullTwice(w, u, told);
      forall c | c in w.clients && c !in v.clients ensures Overran(w, v, c) {
        OverranKept(w, told, v, c);
      }
    }
    ReducedIff(w, v, f);
  }

  lemma LeavingObjects(cs: Clients, ds: Clients, f: Fate)
    requires ObjectsLeft(cs, ds, Nothing()) && f.falls == {} && f.dropped == {} && f.freed == {}
    ensures ObjectsLeft(cs, ds, f)
  {
    forall c, id ensures Lookup(ds, c, id) == Remains(cs, ds, SurfaceKey(c, id), f) {
      assert Lookup(ds, c, id) == Remains(cs, ds, SurfaceKey(c, id), Nothing());
    }
  }

  lemma LeavingScene(w: World, k: SurfaceKey, told: World)
    requires Holds(w, None) && SurfaceOf(w.clients, k).Some? && SceneLeft(Unplaced(w, k), told, Out(Nothing()))
    ensures SceneLeft(w, Unfocused(told, k), {k})
  {
    var gone := w.clients.Keys - told.clients.Keys;
    assert Out(Nothing()) == {} && {k} + {} == {k} && {} + gone == gone;
    KeepKeysTwice(w.stack, {}, {k}, gone, {});
    NoWindow(w, k);
    assert KeepPositions(w.positions - {k}, gone, {}) == KeepPositions(w.positions, gone, {k});
    assert KeepWindows(w.toplevels, gone, {}) == KeepWindows(w.toplevels, gone, {k});
  }

  lemma NoWindow(w: World, k: SurfaceKey)
    requires Holds(w, None) && SurfaceOf(w.clients, k).Some?
    ensures forall h | h in w.toplevels :: w.toplevels[h] != k
  {
    Unlock();
  }

  /** A window's handle retired, and the shells told. */
  lemma UnhandledReduced(w: World, k: ObjectKey, told: World)
    requires Holds(w, None) && IsToplevel(w.clients, k)
    requires var h := HandleOf(w.clients, k);
             Cascaded(Unhandled(w, h), told) && AllTold(Unhandled(w, h), told, Shells(w.clients), ShellToplevelGone(h))
    ensures Reduced(w, told, Leaving(k))
  {
    var h, f := HandleOf(w.clients, k), Leaving(k);
    var u := Unhandled(w, h);
    CascadedReduced(u, told);
    ReducedIff(u, told, Nothing());
    LeavingObjects(w.clients, told.clients, f);
    UnhandledScene(w, k, told);
    assert Out(f) == {k};
    FullTwice(w, u, told);
    UnhandledKnown(w, h, told);
    ReducedIff(w, told, f);
  }

  lemma UnhandledKnown(w: World, h: nat, told: World)
    requires Cascaded(Unhandled(w, h), told) && AllTold(Unhandled(w, h), told, Shells(w.clients), ShellToplevelGone(h))
    ensures ShellsKnow(w, told)
  {
    var u := Unhandled(w, h);
    CascadedIff(u, told);
    Unlock();
    forall g, k | g in w.toplevels && g !in told.toplevels && IsShell(told.clients, k) ensures Told(w, told, GoneNotice(k, g)) {
      SameLookup(u.clients, told.clients, k.connection, k.objectId);
      if g == h {
        assert Told(u, told, Notice(k, ShellToplevelGone(h)));
      }
      ToldSince(w, u, told, GoneNotice(k, g));
    }
  }

  lemma UnhandledScene(w: World, k: ObjectKey, told: World)
    requires Holds(w, None) && IsToplevel(w.clients, k)
    requires SceneLeft(Unhandled(w, HandleOf(w.clients, k)), told, Out(Nothing()))
    ensures SceneLeft(w, told, {k})
  {
    var gone := w.clients.Keys - told.clients.Keys;
    var h := HandleOf(w.clients, k);
    assert Out(Nothing()) == {};
    assert SurfaceOf(w.clients, k).None?;
    NoScene(w, k);
    KeepKeysAlike(w.stack, gone, {}, gone, {k});
    assert KeepPositions(w.positions, gone, {}) == KeepPositions(w.positions, gone, {k});
    assert KeepWindows(w.toplevels - {h}, gone, {}) == KeepWindows(w.toplevels, gone, {k}) by {
      OneHandle(w, k);
    }
  }

  lemma NoScene(w: World, k: ObjectKey)
    requires Holds(w, None) && Lookup(w.clients, k.connection, k.objectId).Some? && SurfaceOf(w.clients, k).None?
    ensures k !in w.stack && k !in w.positions && w.keyboardFocus != Some(k) && w.pointerTarget != Some(k)
  {
    Unlock();
  }

  lemma OneHandle(w: World, k: ObjectKey)
    requires Holds(w, None) && IsToplevel(w.clients, k)
    ensures forall h | h in w.toplevels :: w.toplevels[h] == k <==> h == HandleOf(w.clients, k)
  {
    Unlock();
  }

  /** Objects of a connection that went can be said to have gone before it. */
  lemma GoneFalls(u: World, w: World, f: Fate, ks: set<ObjectKey>)
    requires Holds(u, None) && Reduced(u, w, f)
    requires forall k | k in ks :: k.connection in u.clients && k.connection !in w.clients
    ensures Reduced(u, w, Both(f, Falling(ks)))
  {
    var g := Both(f, Falling(ks));
    forall k: ObjectKey | k.connection in w.clients && Lookup(u.clients, k.connection, k.objectId).Some?
      ensures After(Lookup(u.clients, k.connection, k.objectId).value, k, f)
              == After(Lookup(u.clients, k.connection, k.objectId).value, k, g)
      ensures Frees(u.clients, k, g) ==> Frees(u.clients, k, f)
    {
      ElsewhereAlike(u, k, f, ks);
    }
    ReducedAlike(u, w, f, g);
  }

  lemma ElsewhereAlike(u: World, k: ObjectKey, f: Fate, ks: set<ObjectKey>)
    requires Holds(u, None) && Lookup(u.clients, k.connection, k.objectId).Some?
    requires forall l | l in ks :: l.connection != k.connection
    ensures var g := Both(f, Falling(ks));
            && After(Lookup(u.clients, k.connection, k.objectId).value, k, f)
               == After(Lookup(u.clients, k.connection, k.objectId).value, k, g)
            && (Frees(u.clients, k, g) ==> Frees(u.clients, k, f))
  {
    if LiveBuffer(u.clients, k.connection, k.objectId) {
      DyingHolds(u, k);
      HeldSound(u, k, k);
    }
  }

  // ----- what follows -----

  lemma ReducedClients(w: World, v: World, f: Fate)
    requires Reduced(w, v, f)
    ensures v.clients.Keys <= w.clients.Keys && w.log <= v.log
  {
    ReducedIff(w, v, f);
  }

  lemma ReducedLookup(w: World, v: World, f: Fate, k: ObjectKey)
    requires Reduced(w, v, f)
    ensures Lookup(v.clients, k.connection, k.objectId) == Remains(w.clients, v.clients, k, f)
  {
    ReducedIff(w, v, f);
    assert k == SurfaceKey(k.connection, k.objectId);
  }

  lemma ReducedLookups(w: World, v: World, f: Fate)
    requires Reduced(w, v, f)
    ensures v.clients.Keys <= w.clients.Keys
    ensures forall c, id :: Lookup(v.clients, c, id) == Remains(w.clients, v.clients, SurfaceKey(c, id), f)
  {
    ReducedIff(w, v, f);
  }

  /** Surfaces that stay are what they were, if no buffer goes. */
  lemma ReducedSurfaces(w: World, v: World, f: Fate)
    requires Reduced(w, v, f) && f.dropped == {}
    ensures forall k :: SurfaceOf(v.clients, k)
                        == if k.connection in v.clients && k !in f.falls then SurfaceOf(w.clients, k) else None
  {
    forall k ensures SurfaceOf(v.clients, k)
                     == if k.connection in v.clients && k !in f.falls then SurfaceOf(w.clients, k) else None
    {
      ReducedLookup(w, v, f, k);
    }
  }

  /** What went is nowhere any more. */
  lemma ReducedOut(w: World, v: World, f: Fate, k: ObjectKey)
    requires Reduced(w, v, f) && k in Out(f)
    ensures !Named(v, k)
    ensures k in f.falls + f.dropped ==> Lookup(v.clients, k.connection, k.objectId).None?
  {
    ReducedIff(w, v, f);
    ReducedLookup(w, v, f, k);
    KeptKeys(w.stack, w.clients.Keys - v.clients.Keys, Out(f));
  }

  lemma ReducedGrown(w: World, v: World, f: Fate)
    requires SameRest(w, v) && ObjectsLeft(w.clients, v.clients, f) && SceneLeft(w, v, Out(f)) && w.log <= v.log
    ensures Grown(w, v)
  {
  }

  /** A stacked surface loses what it shows only to the buffers that go. */
  lemma ReducedLost(w: World, v: World, f: Fate)
    requires ObjectsLeft(w.clients, v.clients, f) && SceneLeft(w, v, Out(f))
    ensures LostOnly(w, v, f.dropped)
  {
    KeptKeys(w.stack, w.clients.Keys - v.clients.Keys, Out(f));
    forall k | Hollow(v, k) ensures Hollow(w, k) || ShowsOneOf(w.clients, k, f.dropped) {
      assert Lookup(v.clients, k.connection, k.objectId) == Remains(w.clients, v.clients, k, f);
      if HasContent(w.clients, k) {
        var b := SurfaceKey(k.connection, SurfaceOf(w.clients, k).value.current.value.buffer);
        assert k.connection in v.clients && b in f.dropped;
        assert ShowsBuffer(w.clients, k, b);
      }
    }
  }

  lemma ReducedMoved(w: World, v: World, f: Fate)
    requires Reduced(w, v, f)
    ensures Moved(w, v, f.dropped, {})
  {
    ReducedIff(w, v, f);
    ReducedGrown(w, v, f);
    ReducedLost(w, v, f);
    MovedIff(w, v, f.dropped, {});
  }

  lemma MovedMore(w: World, v: World, fewer: set<ObjectKey>, doomed: set<ObjectKey>, closing: set<ConnectionId>)
    requires Moved(w, v, fewer, {}) && fewer <= doomed
    ensures Moved(w, v, doomed, closing)
  {
    Unlock();
    forall k | ShowsOneOf(w.clients, k, fewer) ensures ShowsOneOf(w.clients, k, doomed) {
      var b :| b in fewer && ShowsBuffer(w.clients, k, b);
      assert b in doomed;
    }
  }

  lemma ReducedOnward(w: World, v: World, f: Fate)
    requires Reduced(w, v, f) && f.dropped == {}
    ensures Onward(w, v)
  {
    ReducedMoved(w, v, f);
    Unlock();
  }

  // ----- what a destruction takes -----

  /** The surfaces of one connection that are in any of these sessions. */
  function IdsUnder(cs: Clients, c: ConnectionId, sessions: set<ObjectKey>): (ids: set<ObjectId>)
    ensures forall id :: id in ids <==> && SurfaceOf(cs, SurfaceKey(c, id)).Some?
                                        && SurfaceKey(c, SurfaceOf(cs, SurfaceKey(c, id)).value.session) in sessions
  {
    if c in cs then set id | id in cs[c].registry.live && cs[c].registry.live[id].SurfaceObject?
                             && SurfaceKey(c, cs[c].registry.live[id].state.session) in sessions
    else {}
  }

  function SurfacesUnder(cs: Clients, c: ConnectionId, sessions: set<ObjectKey>): (ks: set<SurfaceKey>)
    ensures forall k: SurfaceKey :: k in ks <==> && k.connection == c && SurfaceOf(cs, k).Some?
                                                 && SurfaceKey(c, SurfaceOf(cs, k).value.session) in sessions
  {
    KeysOf(c, IdsUnder(cs, c, sessions))
  }

  function KeysOf(c: ConnectionId, ids: set<ObjectId>): (ks: set<ObjectKey>)
    ensures forall k: ObjectKey :: k in ks <==> k.connection == c && k.objectId in ids
  {
    var ks := set id | id in ids :: SurfaceKey(c, id);
    assert forall k: ObjectKey | k.connection == c && k.objectId in ids :: k == SurfaceKey(c, k.objectId) && k in ks;
    ks
  }

  /** The surfaces waiting on a fence. */
  function IdsWaiting(cs: Clients, f: ObjectKey): (ids: set<ObjectId>)
    ensures forall id :: id in ids <==> && SurfaceOf(cs, SurfaceKey(f.connection, id)).Some?
                                        && WaitsOn(SurfaceOf(cs, SurfaceKey(f.connection, id)).value, f.objectId)
  {
    var c := f.connection;
    if c in cs then set id | id in cs[c].registry.live && cs[c].registry.live[id].SurfaceObject?
                             && WaitsOn(cs[c].registry.live[id].state, f.objectId)
    else {}
  }

  function Waiting(cs: Clients, f: ObjectKey): (ks: set<SurfaceKey>)
    ensures forall k: SurfaceKey :: k in ks <==> && k.connection == f.connection && SurfaceOf(cs, k).Some?
                                                 && WaitsOn(SurfaceOf(cs, k).value, f.objectId)
  {
    KeysOf(f.connection, IdsWaiting(cs, f))
  }

  /** The sessions on a seat. */
  function IdsOn(cs: Clients, seat: ObjectKey): (ids: set<ObjectId>)
    ensures forall id :: id in ids <==> && IsSession(cs, seat.connection, id)
                                        && Lookup(cs, seat.connection, id).value.seat == Some(seat.objectId)
  {
    var c := seat.connection;
    if c in cs then set id | id in cs[c].registry.live && cs[c].registry.live[id].SessionObject?
                             && cs[c].registry.live[id].seat == Some(seat.objectId)
    else {}
  }

  function SessionsOn(cs: Clients, seat: ObjectKey): (ks: set<ObjectKey>)
    ensures forall k: ObjectKey :: k in ks <==> && k.connection == seat.connection && IsSession(cs, k.connection, k.objectId)
                                                && Lookup(cs, k.connection, k.objectId).value.seat == Some(seat.objectId)
  {
    KeysOf(seat.connection, IdsOn(cs, seat))
  }

  /** What destroying an object takes: a session its surfaces, a seat its sessions and theirs, a fence
      the surfaces waiting on it. Only a buffer's going is felt by what stays. */
  function FateOf(cs: Clients, k: ObjectKey): Fate {
    match Lookup(cs, k.connection, k.objectId)
    case None => Nothing()
    case Some(BufferObject(_, _)) => Dropping(k)
    case Some(FenceObject(_)) => Falling(Waiting(cs, k) + {k})
    case Some(SessionObject(_, _)) => Falling(SurfacesUnder(cs, k.connection, {k}) + {k})
    case Some(SeatObject(_)) =>
      Falling(SurfacesUnder(cs, k.connection, SessionsOn(cs, k)) + SessionsOn(cs, k) + {k})
    case Some(_) => Falling({k})
  }

  /** An object was destroyed: exactly what it takes is gone, and a buffer's going takes no other
      connection along unless its own went too. */
  ghost predicate DestroyedBy(w: World, k: ObjectKey, v: World) {
    && Reduced(w, v, FateOf(w.clients, k))
    && (LiveBuffer(w.clients, k.connection, k.objectId) && k.connection in v.clients ==> v.clients.Keys == w.clients.Keys)
  }

  /** Names are held by connections, not by objects: what an object's connection holds on its account, the
      input method's place among it, outlives the object. */
  lemma NamesOutlive(w: World, k: ObjectKey, v: World)
    requires DestroyedBy(w, k, v) && k.connection in v.clients
    ensures w.inputMethod == Some(k) ==> v.inputMethod == Some(k)
    ensures k in w.fields ==> k in v.fields && v.fields[k] == w.fields[k]
    ensures forall chord | chord in w.shortcuts && w.shortcuts[chord].holder == k.connection ::
              chord in v.shortcuts && v.shortcuts[chord] == w.shortcuts[chord]
  {
    ReducedIff(w, v, FateOf(w.clients, k));
  }

  /** An object whose going tells its client of nothing but that. */
  predicate Lone(cs: Clients, k: ObjectKey) {
    Lookup(cs, k.connection, k.objectId).Some?
    && (Lookup(cs, k.connection, k.objectId).value.BufferObject? || Lookup(cs, k.connection, k.objectId).value.Plain?)
  }

  // ----- in turn -----

  /** The buffers a release on behalf of a surface gives back. */
  function RelatedTo(cs: Clients, k: SurfaceKey, older: Option<CommitId>): (bs: set<ObjectKey>)
    ensures forall b: ObjectKey :: b in bs <==> && b.connection == k.connection && LiveBuffer(cs, b.connection, b.objectId)
                                                && Related(Lookup(cs, b.connection, b.objectId).value.held, k, older)
  {
    var c := k.connection;
    var ids := if c in cs then set id | id in cs[c].registry.live && cs[c].registry.live[id].BufferObject?
                                        && Related(cs[c].registry.live[id].held, k, older)
               else {};
    KeysOf(c, ids)
  }

  /** A buffer not given back yet is related as it was, while its connection is there. */
  lemma RelatedStays(u: World, v: World, k: SurfaceKey, older: Option<CommitId>, freed: set<ObjectKey>, b: ObjectKey)
    requires Reduced(u, v, Freeing(freed)) && b.connection == k.connection
    ensures b in RelatedTo(v.clients, k, older) ==> b in RelatedTo(u.clients, k, older)
    ensures b in RelatedTo(u.clients, k, older) && b !in freed && k.connection in v.clients ==> b in RelatedTo(v.clients, k, older)
  {
    ReducedLookup(u, v, Freeing(freed), b);
  }

  /** Buffers of a connection that went can be said to have been given back before it. */
  lemma FreedGone(u: World, w: World, freed: set<ObjectKey>, all: set<ObjectKey>)
    requires Reduced(u, w, Freeing(freed)) && freed <= all
    requires forall b | b in all && b !in freed :: b.connection !in w.clients
    ensures Reduced(u, w, Freeing(all))
  {
    ReducedAlike(u, w, Freeing(freed), Freeing(all));
  }

  /** With its buffers given back, no buffer names a surface. */
  lemma NoneNaming(u: World, v: World, k: SurfaceKey)
    requires Reduced(u, v, Freeing(RelatedTo(u.clients, k, None)))
    ensures forall id | LiveBuffer(v.clients, k.connection, id) ::
              !NamesSurface(Lookup(v.clients, k.connection, id).value.held, k)
  {
    forall id | LiveBuffer(v.clients, k.connection, id)
      ensures !NamesSurface(Lookup(v.clients, k.connection, id).value.held, k)
    {
      ReducedLookup(u, v, Freeing(RelatedTo(u.clients, k, None)), SurfaceKey(k.connection, id));
    }
  }

  lemma LeftIsLoose(w: World, k: SurfaceKey, v: World)
    requires SurfaceOf(w.clients, k).Some? && Reduced(w, v, Leaving(k)) && Holds(v, Some(k)) && k.connection in v.clients
    requires forall id | LiveBuffer(w.clients, k.connection, id) ::
               !NamesSurface(Lookup(w.clients, k.connection, id).value.held, k)
    ensures Lookup(v.clients, k.connection, k.objectId).Some? && Loose(v, k)
  {
    ReducedOut(w, v, Leaving(k), k);
    forall c, id ensures Lookup(v.clients, c, id) == if c in v.clients then Lookup(w.clients, c, id) else None {
      ReducedLookup(w, v, Leaving(k), SurfaceKey(c, id));
    }
    UnplacedIsLoose(w, k, v);
  }

  /** What leaves first, and gives back what it held first, just falls. */
  lemma JustFalls(u: World, w: World, k: ObjectKey, f: Fate)
    requires Reduced(u, w, f) && f.falls == {k} && f.left <= {k} && f.dropped == {} && f.freed <= RelatedTo(u.clients, k, None)
    ensures Reduced(u, w, Falling({k}))
  {
    assert Out(f) == Out(Falling({k}));
    ReducedAlike(u, w, f, Falling({k}));
  }

  /** The surfaces of one connection with these identifiers. */
  function SurfacesAmong(cs: Clients, c: ConnectionId, ids: seq<ObjectId>): (ks: set<SurfaceKey>)
    ensures forall k: SurfaceKey :: k in ks <==> k.connection == c && k.objectId in ids && SurfaceOf(cs, k).Some?
  {
    KeysOf(c, set id | id in ids && SurfaceOf(cs, SurfaceKey(c, id)).Some?)
  }

  /** Those listed from the newest creation to the oldest are all of them. */
  lemma AmongNewest(cs: Clients, c: ConnectionId, order: seq<ObjectId>, wanted: set<ObjectId>)
    requires forall id | id in wanted :: id in order
    ensures (forall id | id in wanted :: SurfaceOf(cs, SurfaceKey(c, id)).Some?) ==>
              SurfacesAmong(cs, c, NewestOf(order, wanted)) == KeysOf(c, wanted)
    ensures (forall id | id in wanted :: IsSession(cs, c, id)) ==>
              SessionsAmong(cs, c, NewestOf(order, wanted)) == KeysOf(c, wanted)
  {
  }

  function SessionsAmong(cs: Clients, c: ConnectionId, ids: seq<ObjectId>): (ks: set<ObjectKey>)
    ensures forall k: ObjectKey :: k in ks <==> k.connection == c && k.objectId in ids && IsSession(cs, c, k.objectId)
  {
    KeysOf(c, set id | id in ids && IsSession(cs, c, id))
  }

  /** What goes with them. */
  function SessionsFall(cs: Clients, c: ConnectionId, ids: seq<ObjectId>): set<ObjectKey> {
    SurfacesUnder(cs, c, SessionsAmong(cs, c, ids)) + SessionsAmong(cs, c, ids)
  }

  lemma AmongNext(cs: Clients, c: ConnectionId, ids: seq<ObjectId>, i: nat)
    requires i < |ids|
    ensures SurfacesAmong(cs, c, ids[..i + 1])
            == SurfacesAmong(cs, c, ids[..i]) + if SurfaceOf(cs, SurfaceKey(c, ids[i])).Some? then {SurfaceKey(c, ids[i])} else {}
    ensures SessionsAmong(cs, c, ids[..i + 1])
            == SessionsAmong(cs, c, ids[..i]) + if IsSession(cs, c, ids[i]) then {SurfaceKey(c, ids[i])} else {}
  {
    assert ids[..i + 1] == ids[..i] + [ids[i]];
  }

  lemma SurfacesMore(cs: Clients, c: ConnectionId, ids: seq<ObjectId>, i: nat)
    requires i < |ids|
    ensures SurfacesAmong(cs, c, ids[..i + 1])
            == SurfacesAmong(cs, c, ids[..i]) + if SurfaceOf(cs, SurfaceKey(c, ids[i])).Some? then {SurfaceKey(c, ids[i])} else {}
    ensures SurfacesAmong(cs, c, ids[..i]) + SurfacesAmong(cs, c, ids[..i + 1]) == SurfacesAmong(cs, c, ids[..i + 1])
  {
    AmongNext(cs, c, ids, i);
  }

  /** The first of these surfaces have fallen, and no other. Folded in the same way as `Holds`. */
  ghost predicate SurfacesFallen(u: World, w: World, c: ConnectionId, ids: seq<ObjectId>, n: nat)
    requires n <= |ids|
  {
    forall key: Key | Opened(key) :: Reduced(u, w, Falling(SurfacesAmong(u.clients, c, ids[..n])))
  }

  lemma SurfacesFallenIff(u: World, w: World, c: ConnectionId, ids: seq<ObjectId>, n: nat)
    requires n <= |ids|
    ensures SurfacesFallen(u, w, c, ids, n) <==> Reduced(u, w, Falling(SurfacesAmong(u.clients, c, ids[..n])))
  {
    Unlock();
  }

  lemma NoneFallen(w: World, c: ConnectionId, ids: seq<ObjectId>)
    ensures SurfacesFallen(w, w, c, ids, 0)
  {
    assert SurfacesAmong(w.clients, c, ids[..0]) == {};
    ReducedRefl(w);
    SurfacesFallenIff(w, w, c, ids, 0);
  }

  lemma AllFallen(u: World, w: World, c: ConnectionId, ids: seq<ObjectId>)
    requires SurfacesFallen(u, w, c, ids, |ids|)
    ensures Reduced(u, w, Falling(SurfacesAmong(u.clients, c, ids)))
  {
    assert ids[..|ids|] == ids;
    SurfacesFallenIff(u, w, c, ids, |ids|);
  }

  /** One session more, whose surfaces are what they were, but for those that went before. */
  lemma SessionsNext(u: World, v: World, c: ConnectionId, ids: seq<ObjectId>, i: nat)
    requires i < |ids| && Reduced(u, v, Falling(SessionsFall(u.clients, c, ids[..i]))) && IsSession(v.clients, c, ids[i])
    ensures var k := SurfaceKey(c, ids[i]);
            SessionsFall(u.clients, c, ids[..i]) + (SurfacesUnder(v.clients, c, {k}) + {k})
            == SessionsFall(u.clients, c, ids[..i + 1])
  {
    var k, fallen := SurfaceKey(c, ids[i]), SessionsFall(u.clients, c, ids[..i]);
    AmongNext(u.clients, c, ids, i);
    ReducedLookup(u, v, Falling(fallen), k);
    ReducedSurfaces(u, v, Falling(fallen));
    assert fallen + SurfacesUnder(v.clients, c, {k}) == fallen + SurfacesUnder(u.clients, c, {k});
  }

  /** One that is not a session any more adds nothing. */
  lemma SessionsSame(u: World, v: World, c: ConnectionId, ids: seq<ObjectId>, i: nat)
    requires i < |ids| && Reduced(u, v, Falling(SessionsFall(u.clients, c, ids[..i])))
    requires c in v.clients && !IsSession(v.clients, c, ids[i])
    ensures SessionsFall(u.clients, c, ids[..i + 1]) == SessionsFall(u.clients, c, ids[..i])
  {
    AmongNext(u.clients, c, ids, i);
    ReducedLookup(u, v, Falling(SessionsFall(u.clients, c, ids[..i])), SurfaceKey(c, ids[i]));
  }

  lemma SessionsMore(cs: Clients, c: ConnectionId, ids: seq<ObjectId>, i: nat)
    requires i < |ids|
    ensures SessionsFall(cs, c, ids[..i]) + SessionsFall(cs, c, ids[..i + 1]) == SessionsFall(cs, c, ids[..i + 1])
  {
    AmongNext(cs, c, ids, i);
  }

  lemma NoneWaiting(u: World, v: World, k: ObjectKey, fallen: set<ObjectKey>)
    requires Reduced(u, v, Falling(fallen)) && Waiting(u.clients, k) <= fallen
    ensures forall id | SurfaceOf(v.clients, SurfaceKey(k.connection, id)).Some? ::
              !WaitsOn(SurfaceOf(v.clients, SurfaceKey(k.connection, id)).value, k.objectId)
  {
    ReducedSurfaces(u, v, Falling(fallen));
  }

  lemma ReducedGrants(w: World, v: World, f: Fate)
    requires Reduced(w, v, f)
    ensures forall c | c in v.clients :: c in w.clients && v.clients[c].capabilities == w.clients[c].capabilities
  {
    ReducedIff(w, v, f);
  }

  // ----- an object of a connection that went -----

  lemma FatesHere(cs: Clients, k: ObjectKey)
    ensures forall l | l in FateOf(cs, k).falls :: l.connection == k.connection
    ensures !LiveBuffer(cs, k.connection, k.objectId) ==> FateOf(cs, k) == Falling(FateOf(cs, k).falls)
  {
  }

  lemma GoneFate(u: World, w: World, k: ObjectKey)
    requires Holds(u, None) && Reduced(u, w, Nothing()) && k.connection in u.clients && k.connection !in w.clients
    ensures DestroyedBy(u, k, w)
  {
    if LiveBuffer(u.clients, k.connection, k.objectId) {
      GoneDropped(u, w, k);
    } else {
      GoneFallen(u, w, k);
    }
  }

  lemma GoneFallen(u: World, w: World, k: ObjectKey)
    requires Holds(u, None) && Reduced(u, w, Nothing()) && k.connection in u.clients && k.connection !in w.clients
    requires !LiveBuffer(u.clients, k.connection, k.objectId)
    ensures Reduced(u, w, FateOf(u.clients, k))
  {
    FatesHere(u.clients, k);
    var falls := FateOf(u.clients, k).falls;
    GoneFalls(u, w, Nothing(), falls);
    NothingMore(Falling(falls));
  }

  lemma GoneDropped(u: World, w: World, b: ObjectKey)
    requires Holds(u, None) && Reduced(u, w, Nothing()) && LiveBuffer(u.clients, b.connection, b.objectId)
    requires b.connection !in w.clients
    ensures Reduced(u, w, FateOf(u.clients, b))
  {
    var f := Dropping(b);
    GoneAlike(u, w, b, f);
    ReducedAlike(u, w, Nothing(), f);
    assert FateOf(u.clients, b) == f;
  }

  lemma GoneAlike(u: World, w: World, b: ObjectKey, f: Fate)
    requires Holds(u, None) && LiveBuffer(u.clients, b.connection, b.objectId) && b.connection !in w.clients && f == Dropping(b)
    ensures SameFate(u, w, Nothing(), f)
  {
    NotNamed(u, b);
    forall k: ObjectKey | k.connection in w.clients && Lookup(u.clients, k.connection, k.objectId).Some?
      ensures After(Lookup(u.clients, k.connection, k.objectId).value, k, f)
              == After(Lookup(u.clients, k.connection, k.objectId).value, k, Nothing())
    {
    }
  }

  // ----- each kind of object -----

  lemma AloneDestroyed(w: World, k: ObjectKey, v: World)
    requires Reduced(w, v, Falling({k})) && Lookup(w.clients, k.connection, k.objectId).Some?
    requires var o := Lookup(w.clients, k.connection, k.objectId).value; o.SurfaceObject? || o.ToplevelObject? || o.Plain?
    ensures DestroyedBy(w, k, v)
  {
    assert FateOf(w.clients, k) == Falling({k});
  }

  lemma BufferDestroyed(w: World, b: ObjectKey, v: World)
    requires Reduced(w, v, Dropping(b)) && LiveBuffer(w.clients, b.connection, b.objectId)
    requires b.connection in v.clients ==> v.clients.Keys == w.clients.Keys
    ensures DestroyedBy(w, b, v)
  {
    assert FateOf(w.clients, b) == Dropping(b);
  }

  lemma FenceDestroyed(w: World, k: ObjectKey, v: World)
    requires Reduced(w, v, Falling(Waiting(w.clients, k) + {k})) && LiveFence(w.clients, k.connection, k.objectId)
    ensures DestroyedBy(w, k, v)
  {
    assert FateOf(w.clients, k) == Falling(Waiting(w.clients, k) + {k});
  }

  lemma SessionDestroyed(w: World, k: ObjectKey, v: World)
    requires Reduced(w, v, Falling(SurfacesUnder(w.clients, k.connection, {k}) + {k}))
    requires IsSession(w.clients, k.connection, k.objectId)
    ensures DestroyedBy(w, k, v)
  {
    assert FateOf(w.clients, k) == Falling(SurfacesUnder(w.clients, k.connection, {k}) + {k});
  }

  lemma SeatDestroyed(w: World, k: ObjectKey, v: World)
    requires Reduced(w, v, Falling(SurfacesUnder(w.clients, k.connection, SessionsOn(w.clients, k)) + SessionsOn(w.clients, k) + {k}))
    requires Lookup(w.clients, k.connection, k.objectId).Some? && Lookup(w.clients, k.connection, k.objectId).value.SeatObject?
    ensures DestroyedBy(w, k, v)
  {
    assert FateOf(w.clients, k)
           == Falling(SurfacesUnder(w.clients, k.connection, SessionsOn(w.clients, k)) + SessionsOn(w.clients, k) + {k});
  }

  lemma DestroyedMoved(w: World, k: ObjectKey, v: World)
    requires DestroyedBy(w, k, v)
    ensures Moved(w, v, {k}, {})
  {
    ReducedMoved(w, v, FateOf(w.clients, k));
    MovedMore(w, v, FateOf(w.clients, k).dropped, {k}, {});
  }

  /** Destroying a buffer takes the content of exactly the surfaces that show it. */
  lemma DestroyedShown(w: World, b: ObjectKey, v: World)
    requires Holds(w, None) && LiveBuffer(w.clients, b.connection, b.objectId) && DestroyedBy(w, b, v)
    requires b.connection in v.clients
    ensures forall k :: Hollow(v, k) <==> Hollow(w, k) || (k in w.stack && ShowsBuffer(w.clients, k, b))
  {
    assert FateOf(w.clients, b) == Dropping(b);
    DroppedShown(w, b, v);
  }

  lemma DroppedShown(w: World, b: ObjectKey, v: World)
    requires Holds(w, None) && LiveBuffer(w.clients, b.connection, b.objectId) && Reduced(w, v, Dropping(b))
    requires v.clients.Keys == w.clients.Keys
    ensures forall k :: Hollow(v, k) <==> Hollow(w, k) || (k in w.stack && ShowsBuffer(w.clients, k, b))
  {
    SameStack(w, b, v);
    forall k ensures Hollow(v, k) <==> Hollow(w, k) || (k in w.stack && ShowsBuffer(w.clients, k, b)) {
      DroppedHollow(w, b, v, k);
    }
  }

  lemma DroppedHollow(w: World, b: ObjectKey, v: World, k: SurfaceKey)
    requires Holds(w, None) && LiveBuffer(w.clients, b.connection, b.objectId) && Reduced(w, v, Dropping(b))
    requires v.stack == w.stack && v.clients.Keys == w.clients.Keys
    ensures Hollow(v, k) <==> Hollow(w, k) || (k in w.stack && ShowsBuffer(w.clients, k, b))
  {
    ReducedLookup(w, v, Dropping(b), k);
    Stacked(w, k);
  }

  lemma SameStack(w: World, b: ObjectKey, v: World)
    requires Holds(w, None) && LiveBuffer(w.clients, b.connection, b.objectId) && Reduced(w, v, Dropping(b))
    requires v.clients.Keys == w.clients.Keys
    ensures v.stack == w.stack
  {
    ReducedIff(w, v, Dropping(b));
    NotNamed(w, b);
    assert w.clients.Keys - v.clients.Keys == {};
    forall k | k in w.stack ensures k !in Out(Dropping(b)) {
      assert Named(w, k);
    }
    KeepKeysAlike(w.stack, {}, Out(Dropping(b)), {}, {});
    KeepAllKeys(w.stack);
  }

  /** Whatever has content is stacked. */
  lemma AllStacked(w: World)
    requires Holds(w, None)
    ensures forall k | HasContent(w.clients, k) :: k in w.stack
  {
    Unlock();
  }

  lemma Stacked(w: World, k: SurfaceKey)
    requires Holds(w, None)
    ensures k in w.stack ==> k.connection in w.clients && SurfaceOf(w.clients, k).Some?
  {
    Unlock();
  }
}
