/** What a client may hold, over whole runs: nobody has an object that needs a grant it lacks, nobody has
    more of anything than the limits allow, and the chords and fields kept outside connections stay within
    theirs. */
module Provision {
  import opened Basics
  import opened Geometry
  import opened Model
  import opened World
  import opened Cascade
  import opened Steps
  import opened Lifetimes
  import opened Destruction
  import opened Transitions
  import opened Requests
  import opened Fates
  import opened Effects
  import opened Runs
  import opened Admission

  /** An object its client has the grants for. A buffer needs the grant to import and, unless it was carved
      out of shared memory, that of its transport. */
  predicate Licensed(o: Object, granted: set<Capability>) {
    match o
    case SurfaceObject(_) => SurfaceCreate in granted
    case BufferObject(transport, _) => BufferImport in granted && (transport == SoftwareShm || transport in granted)
    case FenceObject(_) => ExplicitGpuFence in granted
    case _ => true
  }

  function OfKind(live: map<ObjectId, Object>, kind: Kind): set<ObjectId> {
    set id | id in live && KindOf(live[id]) == kind
  }

  function CountOf(live: map<ObjectId, Object>, kind: Kind): nat {
    |OfKind(live, kind)|
  }

  /** A client within its limits. The display, which it has from the start, is an object too. */
  predicate Within(live: map<ObjectId, Object>, limits: Limits) {
    && |live| <= (if limits.maxObjects == 0 then 1 else limits.maxObjects)
    && CountOf(live, Surface) <= limits.maxSurfaces && CountOf(live, Toplevel) <= limits.maxSurfaces
    && CountOf(live, Buffer) <= limits.maxBuffers && CountOf(live, Buffer) <= limits.maxImportedHandles
  }

  ghost predicate Entitled(client: Connection, limits: Limits) {
    && (forall id | id in client.registry.live :: Licensed(client.registry.live[id], client.capabilities))
    && Within(client.registry.live, limits)
  }

  /** Folded, as is the next. */
  ghost predicate Provisioned(w: World) {
    forall key: Key | Opened(key) ::
      && (forall c | c in w.clients :: Entitled(w.clients[c], w.limits))
      && |w.shortcuts| <= 256 && |w.fields| <= 256
  }

  // ----- steps that create nothing -----

  /** Of the same kind, and of the same transport if it is a buffer. */
  predicate Alike(a: Object, b: Object) {
    KindOf(a) == KindOf(b) && (a.BufferObject? ==> b.transport == a.transport)
  }

  predicate Keeps(a: Connection, b: Connection) {
    && b.capabilities == a.capabilities
    && forall id | id in b.registry.live :: id in a.registry.live && Alike(a.registry.live[id], b.registry.live[id])
  }

  /** Nobody has anything new. */
  ghost predicate NoMore(w: World, v: World) {
    forall key: Key | Opened(key) ::
      && v.limits == w.limits && v.clients.Keys <= w.clients.Keys
      && (forall c | c in v.clients :: Keeps(w.clients[c], v.clients[c]))
      && v.shortcuts.Keys <= w.shortcuts.Keys && v.fields.Keys <= w.fields.Keys
  }

  lemma FewerCounted(live: map<ObjectId, Object>, left: map<ObjectId, Object>, kind: Kind)
    requires forall id | id in left :: id in live && KindOf(live[id]) == KindOf(left[id])
    ensures CountOf(left, kind) <= CountOf(live, kind)
  {
    FewerElements(OfKind(live, kind), OfKind(left, kind));
  }

  lemma FewerWithin(live: map<ObjectId, Object>, left: map<ObjectId, Object>, limits: Limits)
    requires forall id | id in left :: id in live && KindOf(live[id]) == KindOf(left[id])
    requires Within(live, limits)
    ensures Within(left, limits)
  {
    FewerElements(live.Keys, left.Keys);
    FewerCounted(live, left, Surface);
    FewerCounted(live, left, Toplevel);
    FewerCounted(live, left, Buffer);
  }

  lemma KeepsEntitled(a: Connection, b: Connection, limits: Limits)
    requires Entitled(a, limits) && Keeps(a, b)
    ensures Entitled(b, limits)
  {
    FewerWithin(a.registry.live, b.registry.live, limits);
  }

  lemma FewerNames(w: World, v: World)
    requires v.shortcuts.Keys <= w.shortcuts.Keys && v.fields.Keys <= w.fields.Keys
    ensures |v.shortcuts| <= |w.shortcuts| && |v.fields| <= |w.fields|
  {
    FewerElements(w.shortcuts.Keys, v.shortcuts.Keys);
    FewerElements(w.fields.Keys, v.fields.Keys);
    assert |w.shortcuts.Keys| == |w.shortcuts| && |v.shortcuts.Keys| == |v.shortcuts|;
    assert |w.fields.Keys| == |w.fields| && |v.fields.Keys| == |v.fields|;
  }

  lemma NoMoreProvisioned(w: World, v: World)
    requires Provisioned(w) && NoMore(w, v)
    ensures Provisioned(v)
  {
    Unlock();
    forall c | c in v.clients ensures Entitled(v.clients[c], v.limits) {
      KeepsEntitled(w.clients[c], v.clients[c], w.limits);
    }
    FewerNames(w, v);
  }

  lemma NoMoreTrans(u: World, v: World, w: World)
    requires NoMore(u, v) && NoMore(v, w)
    ensures NoMore(u, w)
  {
    Unlock();
  }

  lemma CascadedNoMore(w: World, v: World)
    requires Cascaded(w, v)
    ensures NoMore(w, v)
  {
    Unlock();
  }

  lemma ReducedNoMore(w: World, v: World, f: Fate)
    requires Reduced(w, v, f)
    ensures NoMore(w, v)
  {
    Unlock();
    forall c | c in v.clients ensures Keeps(w.clients[c], v.clients[c]) {
      forall id | id in v.clients[c].registry.live
        ensures id in w.clients[c].registry.live && Alike(w.clients[c].registry.live[id], v.clients[c].registry.live[id])
      {
        assert Lookup(v.clients, c, id) == Remains(w.clients, v.clients, SurfaceKey(c, id), f);
      }
    }
  }

  /** Objects changed, but neither created nor turned into others. */
  lemma ObjectsNoMore(w: World, v: World)
    requires v.limits == w.limits && v.shortcuts == w.shortcuts && v.fields == w.fields && v.clients.Keys <= w.clients.Keys
    requires forall c | c in v.clients :: v.clients[c].capabilities == w.clients[c].capabilities
    requires forall c, id | Lookup(v.clients, c, id).Some? ::
               Lookup(w.clients, c, id).Some? && Alike(Lookup(w.clients, c, id).value, Lookup(v.clients, c, id).value)
    ensures NoMore(w, v)
  {
    forall c | c in v.clients ensures Keeps(w.clients[c], v.clients[c]) {
      forall id | id in v.clients[c].registry.live
        ensures id in w.clients[c].registry.live && Alike(w.clients[c].registry.live[id], v.clients[c].registry.live[id])
      {
        assert Lookup(v.clients, c, id).Some?;
      }
    }
  }

  lemma PutNoMore(w: World, k: ObjectKey, o: Object)
    requires Lookup(w.clients, k.connection, k.objectId).Some? && Alike(Lookup(w.clients, k.connection, k.objectId).value, o)
    ensures NoMore(w, Put(w, k, o))
  {
    var v := Put(w, k, o);
    forall c, id | Lookup(v.clients, c, id).Some?
      ensures Lookup(w.clients, c, id).Some? && Alike(Lookup(w.clients, c, id).value, Lookup(v.clients, c, id).value)
    {
      WithObjectLookup(w.clients, k, o, c, id);
    }
    ObjectsNoMore(w, v);
  }

  // ----- steps that create -----

  lemma OneMore(live: map<ObjectId, Object>, id: ObjectId, o: Object, kind: Kind)
    requires id !in live
    ensures CountOf(live[id := o], kind) == CountOf(live, kind) + if KindOf(o) == kind then 1 else 0
  {
    var before, after := OfKind(live, kind), OfKind(live[id := o], kind);
    assert after == if KindOf(o) == kind then before + {id} else before;
    assert id !in before;
  }

  /** What a client needs to be given an object. */
  predicate MayHold(client: Connection, limits: Limits, id: ObjectId, o: Object) {
    && id !in client.registry.live && |client.registry.live| < limits.maxObjects && Licensed(o, client.capabilities)
    && (o.SurfaceObject? ==> CountOf(client.registry.live, Surface) < limits.maxSurfaces)
    && (o.ToplevelObject? ==> CountOf(client.registry.live, Toplevel) < limits.maxSurfaces)
    && (o.BufferObject? ==> && CountOf(client.registry.live, Buffer) < limits.maxBuffers
                            && CountOf(client.registry.live, Buffer) < limits.maxImportedHandles)
  }

  lemma HeldWithin(live: map<ObjectId, Object>, limits: Limits, id: ObjectId, o: Object)
    requires Within(live, limits) && id !in live && |live| < limits.maxObjects
    requires o.SurfaceObject? ==> CountOf(live, Surface) < limits.maxSurfaces
    requires o.ToplevelObject? ==> CountOf(live, Toplevel) < limits.maxSurfaces
    requires o.BufferObject? ==> CountOf(live, Buffer) < limits.maxBuffers && CountOf(live, Buffer) < limits.maxImportedHandles
    ensures Within(live[id := o], limits)
  {
    OneMore(live, id, o, Surface);
    OneMore(live, id, o, Toplevel);
    OneMore(live, id, o, Buffer);
  }

  lemma BornProvisioned(w: World, k: ObjectKey, o: Object)
    requires Provisioned(w) && k.connection in w.clients && MayHold(w.clients[k.connection], w.limits, k.objectId, o)
    ensures Provisioned(Born(w, k, o))
  {
    Unlock();
    var v := Born(w, k, o);
    HeldWithin(w.clients[k.connection].registry.live, w.limits, k.objectId, o);
    forall c | c in v.clients ensures Entitled(v.clients[c], v.limits) {
      assert c != k.connection ==> v.clients[c] == w.clients[c];
      assert Entitled(w.clients[c], w.limits);
    }
  }

  /** An identifier nobody has taken is not live. */
  lemma RoomHolds(w: World, c: ConnectionId, id: ObjectId, o: Object)
    requires Holds(w, None) && AllocationRefused(w, c, id).None?
    requires Licensed(o, w.clients[c].capabilities)
    requires !o.SurfaceObject? && !o.ToplevelObject? && !o.BufferObject?
    ensures MayHold(w.clients[c], w.limits, id, o)
  {
    Unlock();
  }

  lemma PlainProvisioned(w: World, k: ObjectKey, o: Object)
    requires Holds(w, None) && Provisioned(w) && AllocationRefused(w, k.connection, k.objectId).None?
    requires o.SeatObject? || o.SessionObject? || o.Plain?
    ensures Provisioned(Born(w, k, o))
  {
    RoomHolds(w, k.connection, k.objectId, o);
    BornProvisioned(w, k, o);
  }

  lemma NotLive(w: World, c: ConnectionId, id: ObjectId)
    requires Holds(w, None) && HasRoom(w, c, id)
    ensures id !in w.clients[c].registry.live
  {
    Unlock();
  }

  // ----- requests -----

  lemma SentNoMore(w: World, e: Event, v: World)
    requires Sent(w, e, v)
    ensures NoMore(w, v)
  {
    CascadedNoMore(w, v);
  }

  lemma RecomposedNoMore(w: World, v: World)
    requires Recomposed(w, v)
    ensures NoMore(w, v)
  {
    CascadedNoMore(w, v);
  }

  /** A change to what is kept outside the connections, but not of the chords and fields. */
  lemma ElsewhereNoMore(w: World, v: World)
    requires v.limits == w.limits && v.clients == w.clients && v.shortcuts.Keys <= w.shortcuts.Keys
    requires v.fields.Keys <= w.fields.Keys
    ensures NoMore(w, v)
  {
  }

  /** An object asked for. */
  lemma OwnedIs(w: World, c: ConnectionId, kind: Kind)
    requires c in w.clients
    ensures Owned(w, c, kind) == CountOf(w.clients[c].registry.live, kind)
  {
    assert OfKind(w.clients[c].registry.live, kind)
           == set id | id in w.clients[c].registry.live && KindOf(w.clients[c].registry.live[id]) == kind;
  }

  lemma CreatedProvisioned(w: World, c: ConnectionId, r: Request, o: Object)
    requires Holds(w, None) && Provisioned(w) && c in w.clients && NewId(r).Some? && Refusal(w, c, r).None?
    requires || o.Plain? || o.SeatObject?
             || (r.CreateSurface? && o.SurfaceObject?) || (r.GetToplevel? && o.ToplevelObject?)
             || (r.CreateBuffer? && o.BufferObject? && o.transport == SoftwareShm)
             || (r.ImportBuffer? && o.BufferObject? && o.transport == r.transport)
    ensures Provisioned(Born(w, SurfaceKey(c, NewId(r).value), o))
  {
    RefusalIff(w, c, r);
    OwnedIs(w, c, Surface);
    OwnedIs(w, c, Toplevel);
    OwnedIs(w, c, Buffer);
    NotLive(w, c, NewId(r).value);
    BornProvisioned(w, SurfaceKey(c, NewId(r).value), o);
  }

  lemma CommitsNoMore(w: World, k: SurfaceKey, b: ObjectId, offset: Point, v: World)
    requires Commits(w, k, b, offset, v)
    ensures NoMore(w, v)
  {
    forall c, id | Lookup(v.clients, c, id).Some?
      ensures Lookup(w.clients, c, id).Some? && Alike(Lookup(w.clients, c, id).value, Lookup(v.clients, c, id).value)
    {
      if c == k.connection && id == b {
        assert Lookup(v.clients, k.connection, b).Some?;
      }
    }
    ObjectsNoMore(w, v);
  }

  lemma CommittedNoMore(w: World, k: SurfaceKey, b: ObjectId, offset: Point)
    requires SurfaceOf(w.clients, k).Some? && LiveBuffer(w.clients, k.connection, b)
    ensures NoMore(w, Committed(w, k, b, offset))
  {
    CommittedCommits(w, k, b, offset);
    CommitsNoMore(w, k, b, offset, Committed(w, k, b, offset));
  }

  lemma AttachedNoMore(w: World, k: SurfaceKey, b: ObjectId, offset: Point, fence: Option<ObjectId>)
    requires SurfaceOf(w.clients, k).Some? && LiveBuffer(w.clients, k.connection, b)
    ensures NoMore(w, Attached(w, k, b, offset, fence))
  {
    var s := SurfaceOf(w.clients, k).value.(attachment := Set(b, offset), acquireFence := fence);
    PutNoMore(w, k, SurfaceObject(s));
    var first := Put(w, k, SurfaceObject(s));
    PutSurfaceLookups(w, k, s);
    PutNoMore(first, SurfaceKey(k.connection, b), Lookup(w.clients, k.connection, b).value.(held := Pending(k)));
    NoMoreTrans(w, first, Attached(w, k, b, offset, fence));
  }

  lemma AttachAcceptedNoMore(w: World, k: SurfaceKey, buffer: ObjectId, offset: Point, fence: Option<ObjectId>)
    requires SurfaceOf(w.clients, k).Some? && (buffer != NULL_ID ==> LiveBuffer(w.clients, k.connection, buffer))
    ensures NoMore(w, AttachAccepted(w, k, buffer, offset, fence))
  {
    if buffer == NULL_ID {
      PutNoMore(w, k, SurfaceObject(SurfaceOf(w.clients, k).value.(attachment := Detach)));
    } else {
      AttachedNoMore(w, k, buffer, offset, fence);
    }
  }

  lemma CommitAcceptedNoMore(w: World, k: SurfaceKey)
    requires SurfaceOf(w.clients, k).Some? && CommitAccepted(w, k).Some?
    ensures NoMore(w, CommitAccepted(w, k).value)
  {
    var s := SurfaceOf(w.clients, k).value;
    if Carried(s).Some? {
      CommittedNoMore(w, k, Carried(s).value.0, Carried(s).value.1);
    } else {
      PutNoMore(w, k, SurfaceObject(s.(attachment := Unchanged, acquireFence := None)));
    }
  }

  /** A request about a surface nobody is told of. */
  lemma DrawnNoMore(w: World, c: ConnectionId, r: Request, v: World)
    requires c in w.clients && Refusal(w, c, r).None? && Accepted(w, c, r) == Some(v)
    requires r.Attach? || r.Commit? || r.RequestFrame?
    ensures NoMore(w, v)
  {
    var k := SurfaceKey(c, r.surface);
    if r.Attach? {
      AttachAcceptedNoMore(w, k, r.buffer, r.offset, r.fence);
    } else if r.Commit? {
      CommitAcceptedNoMore(w, k);
    } else {
      PutNoMore(w, k, SurfaceObject(SurfaceOf(w.clients, k).value.(frameRequested := true)));
    }
  }

  lemma ArrangedNoMore(w: World, c: ConnectionId, r: Request, v: World)
    requires c in w.clients && Refusal(w, c, r).None? && Accepted(w, c, r) == Some(v)
    requires r.ShellPlace? || r.ShellRaise? || r.UnregisterShortcut?
    ensures NoMore(w, v)
  {
    if r.UnregisterShortcut? {
      ElsewhereNoMore(w, WithoutClaims(w, c, r.shortcut));
    } else if r.ShellPlace? {
      ElsewhereNoMore(w, Placed(w, ShellSurface(w, c, r.handle).value, r.position));
    } else {
      ElsewhereNoMore(w, RaiseAccepted(w, ShellSurface(w, c, r.handle).value));
    }
  }

  lemma ClaimProvisioned(w: World, chord: Chord, claim: Claim)
    requires Provisioned(w) && |w.shortcuts| < 256
    ensures Provisioned(WithClaim(w, chord, claim))
  {
    Unlock();
  }

  lemma FieldProvisioned(w: World, k: ObjectKey, composes: bool)
    requires Provisioned(w) && |w.fields| < 256
    ensures Provisioned(WithField(w, k, composes))
  {
    Unlock();
  }

  lemma QuietProvisioned(w: World, c: ConnectionId, r: Request, v: World)
    requires Holds(w, None) && Provisioned(w) && c in w.clients && Refusal(w, c, r).None? && Quiet(r)
    requires Accepted(w, c, r) == Some(v)
    ensures Provisioned(v)
  {
    if r.Attach? || r.Commit? || r.RequestFrame? {
      DrawnNoMore(w, c, r, v);
      NoMoreProvisioned(w, v);
    } else if r.ShellPlace? || r.ShellRaise? || r.UnregisterShortcut? {
      ArrangedNoMore(w, c, r, v);
      NoMoreProvisioned(w, v);
    } else if r.RegisterShortcut? {
      ClaimProvisioned(w, r.chord, Claim(c, r.manager, r.shortcut));
    } else {
      CreatedProvisioned(w, c, r, v.clients[c].registry.live[NewId(r).value]);
    }
  }

  lemma DetachedOpen(w: World, k: SurfaceKey, v: World) returns (b: ObjectKey, released: World)
    requires DetachedFrom(w, k, v)
    ensures LiveBuffer(w.clients, b.connection, b.objectId) && Sent(Released(w, b), Notice(b, BufferRelease), released)
    ensures DetachedOr(released, k, v)
  {
    Unlock();
    b := SurfaceKey(k.connection, SurfaceOf(w.clients, k).value.current.value.buffer);
    released :| Sent(Released(w, b), Notice(b, BufferRelease), released) && DetachedOr(released, k, v);
  }

  lemma DetachedNoMore(w: World, k: SurfaceKey, v: World)
    requires DetachedFrom(w, k, v)
    ensures NoMore(w, v)
  {
    var b, released := DetachedOpen(w, k, v);
    PutNoMore(w, b, Lookup(w.clients, b.connection, b.objectId).value.(held := Available));
    SentNoMore(Released(w, b), Notice(b, BufferRelease), released);
    NoMoreTrans(w, Released(w, b), released);
    if SurfaceOf(released.clients, k).Some? {
      DetachedSurface(released, k);
      NoMoreTrans(w, released, v);
    }
  }

  lemma DetachedSurface(w: World, k: SurfaceKey)
    requires SurfaceOf(w.clients, k).Some?
    ensures NoMore(w, Detached(w, k))
  {
    var s := SurfaceOf(w.clients, k).value;
    var unstacked := w.(stack := WithoutKey(w.stack, k));
    ElsewhereNoMore(w, unstacked);
    PutNoMore(unstacked, k, SurfaceObject(s.(current := None)));
    PutSurfaceLookups(unstacked, k, s.(current := None));
    PutNoMore(Emptied(w, k), k, SurfaceObject(s.(current := None, attachment := Unchanged, acquireFence := None)));
    NoMoreTrans(w, unstacked, Emptied(w, k));
    NoMoreTrans(w, Emptied(w, k), Detached(w, k));
  }

  lemma RefocusedNoMore(w: World, now: Option<SurfaceKey>, v: World)
    requires FocusGiven(w, now, v)
    ensures NoMore(w, v)
  {
    if w.keyboardFocus == now {
      ElsewhereNoMore(w, v);
    } else {
      Unlock();
      var left, told, settled :| FocusMoves(w, now, left, told, settled, v);
      FocusMovesNoMore(w, now, left, told, settled, v);
    }
  }

  lemma ToldNoMore(w: World, k: SurfaceKey, surfaceEvent: EventKind, keyboardEvent: EventKind, v: World)
    requires FocusTold(w, k, surfaceEvent, keyboardEvent, v)
    ensures NoMore(w, v)
  {
    Unlock();
    var told :| Sent(w, Notice(k, surfaceEvent), told) && Cascaded(told, v)
                && AllTold(told, v, Keyboards(told.clients, k.connection), keyboardEvent);
    SentNoMore(w, Notice(k, surfaceEvent), told);
    CascadedNoMore(told, v);
    NoMoreTrans(w, told, v);
  }

  lemma FocusMovesNoMore(w: World, now: Option<SurfaceKey>, left: World, told: World, settled: World, v: World)
    requires FocusMoves(w, now, left, told, settled, v)
    ensures NoMore(w, v)
  {
    ElsewhereNoMore(w, w);
    if w.keyboardFocus.Some? {
      ToldNoMore(w, w.keyboardFocus.value, KeyboardLeave, KeyFocusLost, left);
    }
    ElsewhereNoMore(left, left);
    if now.Some? {
      ToldNoMore(left, now.value, KeyboardEnter, KeyFocusGained, told);
    }
    NoMoreTrans(w, left, told);
    ElsewhereNoMore(told, Focused(told, now));
    NoMoreTrans(w, told, Focused(told, now));
    RecomposedNoMore(Focused(told, now), settled);
    NoMoreTrans(w, Focused(told, now), settled);
    CascadedNoMore(settled, v);
    NoMoreTrans(w, settled, v);
  }

  lemma MethodTaken(w: World, k: ObjectKey, v: World) returns (taken: World)
    requires MethodBound(w, k, v)
    ensures Recomposed(WithMethod(w, k), taken) && BornOr(taken, k, Plain(InputMethod), v)
  {
    Unlock();
    taken :| Recomposed(WithMethod(w, k), taken) && BornOr(taken, k, Plain(InputMethod), v);
  }

  /** Room for an object lasts while its connection does. */
  lemma RoomLasts(w: World, k: ObjectKey, taken: World)
    requires Holds(w, None) && AllocationRefused(w, k.connection, k.objectId).None?
    requires Cascaded(WithMethod(w, k), taken) && k.connection in taken.clients
    ensures MayHold(taken.clients[k.connection], taken.limits, k.objectId, Plain(InputMethod))
  {
    RoomHolds(w, k.connection, k.objectId, Plain(InputMethod));
    Unlock();
    assert taken.clients[k.connection].registry == w.clients[k.connection].registry && taken.limits == w.limits;
  }

  /** A bound input method takes its place first, which may close connections. */
  lemma MethodProvisioned(w: World, k: ObjectKey, v: World)
    requires Holds(w, None) && Provisioned(w) && AllocationRefused(w, k.connection, k.objectId).None? && MethodBound(w, k, v)
    ensures Provisioned(v)
  {
    var taken := MethodTaken(w, k, v);
    ElsewhereNoMore(w, WithMethod(w, k));
    RecomposedNoMore(WithMethod(w, k), taken);
    NoMoreTrans(w, WithMethod(w, k), taken);
    NoMoreProvisioned(w, taken);
    if k.connection in taken.clients {
      RoomLasts(w, k, taken);
      BornProvisioned(taken, k, Plain(InputMethod));
    }
  }

  lemma BoundProvisioned(w: World, c: ConnectionId, r: Request, v: World)
    requires Holds(w, None) && Provisioned(w) && c in w.clients && r.Bind? && Refusal(w, c, r).None?
    requires GlobalBound(w, SurfaceKey(c, r.id), r.name, v)
    ensures Provisioned(v)
  {
    var k := SurfaceKey(c, r.id);
    if w.globals[r.name].kind.InputMethod? {
      MethodProvisioned(w, k, v);
    } else if w.globals[r.name].kind.ShellControlKind? {
      PlainProvisioned(w, k, Plain(ShellControlKind));
      CascadedNoMore(Born(w, k, Plain(ShellControlKind)), v);
      NoMoreProvisioned(Born(w, k, Plain(ShellControlKind)), v);
    } else {
      PlainProvisioned(w, k, Bound(w.globals[r.name].kind));
    }
  }

  lemma WindowProvisioned(w: World, c: ConnectionId, r: Request, v: World)
    requires Holds(w, None) && Provisioned(w) && c in w.clients && r.GetToplevel? && Refusal(w, c, r).None?
    requires Cascaded(WindowBorn(w, SurfaceKey(c, r.id), r.surface), v)
    ensures Provisioned(v)
  {
    var o := ToplevelObject(r.surface, w.nextHandle);
    CreatedProvisioned(w, c, r, o);
    var born, window := Born(w, SurfaceKey(c, r.id), o), WindowBorn(w, SurfaceKey(c, r.id), r.surface);
    ElsewhereNoMore(born, window);
    CascadedNoMore(window, v);
    NoMoreTrans(born, window, v);
    NoMoreProvisioned(born, v);
  }

  lemma AnnouncedProvisioned(w: World, c: ConnectionId, r: Request, v: World)
    requires Holds(w, None) && Provisioned(w) && c in w.clients && Refusal(w, c, r).None?
    requires !Quiet(r) && !r.Destroy? && Announced(w, c, r, v)
    ensures Provisioned(v)
  {
    if r.CreateRegistry? {
      var k := SurfaceKey(c, r.id);
      PlainProvisioned(w, k, Plain(Kind.Registry));
      CascadedNoMore(Born(w, k, Plain(Kind.Registry)), v);
      NoMoreProvisioned(Born(w, k, Plain(Kind.Registry)), v);
    } else if r.Bind? {
      BoundProvisioned(w, c, r, v);
    } else if r.GetToplevel? {
      WindowProvisioned(w, c, r, v);
    } else if r.EnableText? {
      FieldProvisioned(w, SurfaceKey(c, r.input), r.composes);
      RecomposedNoMore(WithField(w, SurfaceKey(c, r.input), r.composes), v);
      NoMoreProvisioned(WithField(w, SurfaceKey(c, r.input), r.composes), v);
    } else {
      ToldOnlyNoMore(w, c, r, v);
      NoMoreProvisioned(w, v);
    }
  }

  lemma ToldOnlyNoMore(w: World, c: ConnectionId, r: Request, v: World)
    requires c in w.clients && Refusal(w, c, r).None? && Announced(w, c, r, v)
    requires r.SetTitle? || r.DisableText? || r.SendText? || r.ShellFocus? || r.ShellClose?
    ensures NoMore(w, v)
  {
    if r.SetTitle? {
      CascadedNoMore(w, v);
    } else if r.DisableText? {
      ElsewhereNoMore(w, WithoutField(w, SurfaceKey(c, r.input)));
      RecomposedNoMore(WithoutField(w, SurfaceKey(c, r.input)), v);
      NoMoreTrans(w, WithoutField(w, SurfaceKey(c, r.input)), v);
    } else if r.ShellFocus? {
      RefocusedNoMore(w, Some(ShellSurface(w, c, r.handle).value), v);
    } else if r.SendText? {
      ElsewhereNoMore(w, w);
      if v != w {
        SentNoMore(w, Event(w.composing.value.connection, w.composing.value.input, Announcement), v);
      }
    } else {
      SentNoMore(w, Notice(w.toplevels[r.handle], Close), v);
    }
  }

  lemma ClosedNoMore(w: World, c: ConnectionId, v: World)
    requires ClosedFrom(w, c, v)
    ensures NoMore(w, v)
  {
    ClosedShrunk(w, c);
    assert NoMore(w, Closed(w, c)) by {
      Unlock();
    }
    CascadedNoMore(Closed(w, c), v);
    NoMoreTrans(w, Closed(w, c), v);
  }

  lemma ReportedNoMore(w: World, c: ConnectionId, e: StateError, v: World)
    requires Reported(w, c, e, v)
    ensures NoMore(w, v)
  {
    var told := ReportTold(w, c, e, v);
    SentNoMore(w, ErrorNotice(c, e), told);
    if CategoryOf(e) == Protocol {
      if c in told.clients {
        ClosedNoMore(told, c, v);
        NoMoreTrans(w, told, v);
      }
    } else if CategoryOf(e) == ObjectError {
      ReducedNoMore(told, v, FateOf(told.clients, SurfaceKey(c, ErrorObject(e))));
      NoMoreTrans(w, told, v);
    }
  }

  lemma RefusedNoMore(w: World, c: ConnectionId, r: Request, v: World)
    requires c in w.clients && AskDid(w, c, r, v) && Refusal(w, c, r).Some?
    ensures NoMore(w, v)
  {
    var left := RefusedLeft(w, c, r, v);
    if left.clients == w.clients && left.shortcuts == w.shortcuts && left.fields == w.fields && left.limits == w.limits {
      ElsewhereNoMore(w, left);
    } else {
      var k := SurfaceKey(c, r.id);
      ElsewhereNoMore(w, WithMethod(w, k));
      RecomposedNoMore(WithMethod(w, k), left);
      NoMoreTrans(w, WithMethod(w, k), left);
    }
    ReportedNoMore(left, c, Refusal(w, c, r).value, v);
    NoMoreTrans(w, left, v);
  }

  lemma AskProvisioned(w: World, c: ConnectionId, r: Request, v: World)
    requires Holds(w, None) && Provisioned(w) && AskDid(w, c, r, v)
    ensures Provisioned(v)
  {
    if c in w.clients && Refusal(w, c, r).Some? {
      RefusedNoMore(w, c, r, v);
      NoMoreProvisioned(w, v);
    } else if c in w.clients {
      assert Effect(w, c, r, v) by {
        Unlock();
      }
      EffectProvisioned(w, c, r, v);
    } else {
      assert v == w by {
        Unlock();
      }
    }
  }

  lemma EffectProvisioned(w: World, c: ConnectionId, r: Request, v: World)
    requires Holds(w, None) && Provisioned(w) && c in w.clients && Refusal(w, c, r).None? && Effect(w, c, r, v)
    ensures Provisioned(v)
  {
    if Quiet(r) {
      if Accepted(w, c, r).Some? {
        QuietProvisioned(w, c, r, v);
      } else {
        DetachedNoMore(w, SurfaceKey(c, r.surface), v);
        NoMoreProvisioned(w, v);
      }
    } else if r.Destroy? {
      ReducedNoMore(w, v, FateOf(w.clients, SurfaceKey(c, r.target)));
      NoMoreProvisioned(w, v);
    } else {
      AnnouncedProvisioned(w, c, r, v);
    }
  }

  // ----- the other steps -----

  lemma ConnectedProvisioned(w: World, available: set<Capability>, granted: set<Capability>)
    requires Provisioned(w)
    ensures Provisioned(Connected(w, available, granted))
  {
    Unlock();
    var v := Connected(w, available, granted);
    var live := v.clients[w.nextConnection].registry.live;
    assert live == map[DISPLAY_ID := Plain(Display)];
    OneMore(map[], DISPLAY_ID, Plain(Display), Surface);
    OneMore(map[], DISPLAY_ID, Plain(Display), Toplevel);
    OneMore(map[], DISPLAY_ID, Plain(Display), Buffer);
    assert map[][DISPLAY_ID := Plain(Display)] == live;
    forall c | c in v.clients ensures Entitled(v.clients[c], v.limits) {
      assert c != w.nextConnection ==> v.clients[c] == w.clients[c];
    }
  }

  /** More grants take nothing away. */
  lemma GrantedProvisioned(w: World, c: ConnectionId, granted: set<Capability>, session: Option<ObjectId>)
    requires Provisioned(w) && c in w.clients && w.clients[c].capabilities <= granted
    ensures Provisioned(WithGrants(w, c, granted, session))
  {
    Unlock();
    var v := WithGrants(w, c, granted, session);
    forall d | d in v.clients ensures Entitled(v.clients[d], v.limits) {
      assert Entitled(w.clients[d], w.limits) && v.clients[d].registry == w.clients[d].registry;
    }
  }

  lemma TakenNoMore(w: World, v: World)
    requires v == TakenAll(w) || exists c :: v == TakenFor(w, c)
    ensures NoMore(w, v)
  {
  }

  lemma AttendProvisioned(server: set<Capability>, w: World, step: Step, v: World)
    requires Provisioned(w) && AttendDid(server, w, step, v)
    requires step.Arrive? || step.Leaves? || step.Grants? || step.Drains? || step.DrainsFor? || step.Advertises?
             || step.Withdraws?
    ensures Provisioned(v)
  {
    if step.Arrive? {
      ArriveProvisioned(server, w, step, v);
    } else if step.Grants? {
      GrantsProvisioned(server, w, step, v);
    } else {
      AttendNoMore(server, w, step, v);
      NoMoreProvisioned(w, v);
    }
  }

  lemma ArriveProvisioned(server: set<Capability>, w: World, step: Step, v: World)
    requires Provisioned(w) && AttendDid(server, w, step, v) && step.Arrive?
    ensures Provisioned(v)
  {
    var shared := Shared(server, step.capabilities);
    ConnectedProvisioned(w, shared, shared * (DEFAULT_GRANTS + BACKEND_FACTS));
    Unlock();
  }

  lemma GrantsProvisioned(server: set<Capability>, w: World, step: Step, v: World)
    requires Provisioned(w) && AttendDid(server, w, step, v) && step.Grants?
    ensures Provisioned(v)
  {
    var c := step.client;
    if c in w.clients {
      GrantedProvisioned(w, c, w.clients[c].capabilities + {step.capability}, w.clients[c].session);
    }
    Unlock();
  }

  lemma AttendNoMore(server: set<Capability>, w: World, step: Step, v: World)
    requires AttendDid(server, w, step, v)
    requires step.Leaves? || step.Drains? || step.DrainsFor? || step.Advertises? || step.Withdraws?
    ensures NoMore(w, v)
  {
    AttendOpen(server, w, step, v);
    ElsewhereNoMore(w, w);
    match step {
      case Leaves(c) =>
        if v != w {
          ClosedNoMore(w, c, v);
        }
      case Withdraws(name) =>
        if v != w {
          ElsewhereNoMore(w, NoLongerOffered(w, name));
          CascadedNoMore(NoLongerOffered(w, name), v);
          NoMoreTrans(w, NoLongerOffered(w, name), v);
        }
      case Advertises(_, _) => ElsewhereNoMore(w, v);
      case _ => TakenNoMore(w, v);
    }
  }

  lemma AttendOpen(server: set<Capability>, w: World, step: Step, v: World)
    requires AttendDid(server, w, step, v)
    ensures step.Leaves? ==> v == w || ClosedFrom(w, step.client, v)
    ensures step.Drains? ==> v == TakenAll(w)
    ensures step.DrainsFor? ==> v == TakenFor(w, step.client)
    ensures step.Advertises? ==> v.limits == w.limits && v.clients == w.clients && v.shortcuts == w.shortcuts && v.fields == w.fields
    ensures step.Withdraws? ==> v == w || Cascaded(NoLongerOffered(w, step.name), v)
  {
    Unlock();
  }

  lemma PresentedNoMore(w: World, k: SurfaceKey, v: World)
    requires Presented(w, k, v)
    ensures NoMore(w, v)
  {
    Unlock();
    var released, told :| Presentation(w, k, released, told, v);
    PresentationNoMore(w, k, released, told, v);
  }

  lemma PresentationNoMore(w: World, k: SurfaceKey, released: World, told: World, v: World)
    requires Presentation(w, k, released, told, v)
    ensures NoMore(w, v)
  {
    var s := SurfaceOf(w.clients, k).value;
    var freed := Freeing(RelatedTo(w.clients, k, Some(s.current.value.commit)));
    ReducedNoMore(w, released, freed);
    ElsewhereNoMore(released, released);
    CascadedRefl(released);
    if s.current.value.frameCallback {
      SentNoMore(released, Notice(k, FrameDone), told);
    }
    NoMoreTrans(w, released, told);
    if k.connection in told.clients {
      PresentedSurface(w, k, released, told);
      PutNoMore(told, k, SurfaceObject(s.(current := Some(s.current.value.(frameCallback := false)))));
      NoMoreTrans(w, told, v);
    }
  }

  lemma ReleasedNoMore(w: World, b: ObjectKey, v: World)
    requires LiveBuffer(w.clients, b.connection, b.objectId) && Sent(Released(w, b), Notice(b, BufferRelease), v)
    ensures NoMore(w, v)
  {
    PutNoMore(w, b, Lookup(w.clients, b.connection, b.objectId).value.(held := Available));
    SentNoMore(Released(w, b), Notice(b, BufferRelease), v);
    NoMoreTrans(w, Released(w, b), v);
  }

  lemma ShowOpen(w: World, step: Step, v: World)
    requires ShowDid(w, step, v)
    ensures step.Presents? ==> v == w || Presented(w, step.surface, v)
    ensures step.Releases? ==> v == w || (LiveBuffer(w.clients, step.buffer.connection, step.buffer.objectId)
                                          && Sent(Released(w, step.buffer), Notice(step.buffer, BufferRelease), v))
    ensures step.Places? || step.Raises? || step.Points? ==>
              v.limits == w.limits && v.clients == w.clients && v.shortcuts == w.shortcuts && v.fields == w.fields
    ensures step.Focuses? ==> v == w || FocusGiven(w, step.focus, v)
    ensures step.Tells? ==> Sent(w, Event(step.client, step.id, Announcement), v)
  {
    Unlock();
  }

  lemma ShowNoMore(w: World, step: Step, v: World)
    requires ShowDid(w, step, v)
    requires step.Presents? || step.Releases? || step.Places? || step.Raises? || step.Focuses? || step.Points? || step.Tells?
    ensures NoMore(w, v)
  {
    ShowOpen(w, step, v);
    ElsewhereNoMore(w, w);
    match step {
      case Presents(k) =>
        if v != w {
          PresentedNoMore(w, k, v);
        }
      case Releases(b) =>
        if v != w {
          ReleasedNoMore(w, b, v);
        }
      case Focuses(now) =>
        if v != w {
          RefocusedNoMore(w, now, v);
        }
      case Tells(c, id) => SentNoMore(w, Event(c, id, Announcement), v);
      case _ => ElsewhereNoMore(w, v);
    }
  }

  lemma WokenNoMore(w: World, k: ObjectKey, active: bool, v: World)
    requires Woken(w, k, active, v)
    ensures NoMore(w, v)
  {
    Unlock();
    PutNoMore(w, k, Lookup(w.clients, k.connection, k.objectId).value.(sessionActive := active));
    if !active {
      var told :| Dozes(WithActive(w, k, active), k, told, v);
      DozedNoMore(WithActive(w, k, active), k, told, v);
      NoMoreTrans(w, WithActive(w, k, active), v);
    }
  }

  lemma DozedNoMore(w: World, k: ObjectKey, told: World, v: World)
    requires Dozes(w, k, told, v)
    ensures NoMore(w, v)
  {
    ElsewhereNoMore(w, w);
    if FocusedIn(w, w.keyboardFocus, k) {
      SentNoMore(w, Notice(w.keyboardFocus.value, KeyboardLeave), told);
    }
    ElsewhereNoMore(told, v);
    NoMoreTrans(w, told, v);
  }

  lemma ProvideProvisioned(w: World, step: Step, v: World)
    requires Holds(w, None) && Provisioned(w) && ProvideDid(w, step, v)
    requires step.Seats? || step.Sessions? || step.Fences? || step.Signals? || step.Wakes?
    ensures Provisioned(v)
  {
    assert step.Wakes? ==> if IsSession(w.clients, step.key.connection, step.key.objectId)
                           then Woken(w, step.key, step.active, v) else v == w by {
      Unlock();
    }
    if step.Wakes? {
      ElsewhereNoMore(w, w);
      if v != w {
        WokenNoMore(w, step.key, step.active, v);
      }
      NoMoreProvisioned(w, v);
    } else if step.Sessions? {
      SessionProvisioned(w, step, v);
    } else {
      ObjectProvisioned(w, step, v);
    }
  }

  lemma SessionProvisioned(w: World, step: Step, v: World)
    requires Holds(w, None) && Provisioned(w) && ProvideDid(w, step, v) && step.Sessions?
    ensures Provisioned(v)
  {
    var k := step.key;
    if SessionRefused(w, k.connection, k.objectId, step.seat).None? {
      var o := SessionObject(step.seat, step.active);
      PlainProvisioned(w, k, o);
      GrantedProvisioned(Born(w, k, o), k.connection, w.clients[k.connection].capabilities, Some(k.objectId));
    }
    Unlock();
  }

  lemma ObjectProvisioned(w: World, step: Step, v: World)
    requires Holds(w, None) && Provisioned(w) && ProvideDid(w, step, v) && (step.Seats? || step.Fences? || step.Signals?)
    ensures Provisioned(v)
  {
    var k := step.key;
    if step.Seats? && AllocationRefused(w, k.connection, k.objectId).None? {
      PlainProvisioned(w, k, SeatObject(step.active));
    } else if step.Fences? && FenceRefused(w, k.connection, k.objectId).None? {
      RoomHolds(w, k.connection, k.objectId, FenceObject(false));
      BornProvisioned(w, k, FenceObject(false));
    } else if step.Signals? && LiveFence(w.clients, k.connection, k.objectId) {
      PutNoMore(w, k, FenceObject(true));
      NoMoreProvisioned(w, Put(w, k, FenceObject(true)));
    }
    Unlock();
  }

  /** A grant is taken, and with it every object that needs it. */
  lemma RevokedProvisioned(w: World, c: ConnectionId, taken: Capability, v: World)
    requires Provisioned(w) && Revoked(w, c, taken, v)
    ensures Provisioned(v)
  {
    Unlock();
    var told, f :| Revocation(w, c, taken, told, f, v);
    RevocationProvisioned(w, c, taken, told, f, v);
  }

  lemma RevocationProvisioned(w: World, c: ConnectionId, taken: Capability, told: World, f: Fate, v: World)
    requires Provisioned(w) && Revocation(w, c, taken, told, f, v)
    ensures Provisioned(v)
  {
    SentNoMore(WithoutGrant(w, c, taken), Event(c, DISPLAY_ID, CapabilityRevoked(taken)), told);
    ReducedNoMore(told, v, f);
    NoMoreTrans(WithoutGrant(w, c, taken), told, v);
    NoneNeeds(told, v, c, taken, f);
    Ungranted(w, c, taken, v);
  }

  lemma Ungranted(w: World, c: ConnectionId, taken: Capability, v: World)
    requires Provisioned(w) && c in w.clients && NoMore(WithoutGrant(w, c, taken), v)
    requires forall id :: !NeedsGrant(v.clients, c, id, taken)
    ensures Provisioned(v)
  {
    var u := WithoutGrant(w, c, taken);
    NoMoreOpen(u, v);
    assert forall d | d in w.clients :: Entitled(w.clients[d], w.limits) by {
      Unlock();
    }
    forall d | d in v.clients ensures Entitled(v.clients[d], v.limits) {
      ClientUngranted(w, c, taken, v, d);
    }
    FewerNames(u, v);
    assert |w.shortcuts| <= 256 && |w.fields| <= 256 by {
      Unlock();
    }
  }

  lemma NoMoreOpen(w: World, v: World)
    requires NoMore(w, v)
    ensures v.limits == w.limits && v.clients.Keys <= w.clients.Keys
    ensures forall c | c in v.clients :: Keeps(w.clients[c], v.clients[c])
    ensures v.shortcuts.Keys <= w.shortcuts.Keys && v.fields.Keys <= w.fields.Keys
  {
    Unlock();
  }

  lemma ClientUngranted(w: World, c: ConnectionId, taken: Capability, v: World, d: ConnectionId)
    requires c in w.clients && d in v.clients && d in w.clients && Entitled(w.clients[d], w.limits)
    requires Keeps(WithoutGrant(w, c, taken).clients[d], v.clients[d])
    requires forall id :: !NeedsGrant(v.clients, c, id, taken)
    ensures Entitled(v.clients[d], w.limits)
  {
    if d == c {
      forall id | id in v.clients[c].registry.live ensures !RequiresGrant(v.clients[c].registry.live[id], taken) {
        assert !NeedsGrant(v.clients, c, id, taken);
      }
      OwnUngranted(w.clients[c], v.clients[c], w.limits, taken);
    } else {
      KeepsEntitled(w.clients[d], v.clients[d], w.limits);
    }
  }

  lemma OwnUngranted(a: Connection, b: Connection, limits: Limits, taken: Capability)
    requires Entitled(a, limits) && b.capabilities == a.capabilities - {taken}
    requires forall id | id in b.registry.live :: id in a.registry.live && Alike(a.registry.live[id], b.registry.live[id])
    requires forall id | id in b.registry.live :: !RequiresGrant(b.registry.live[id], taken)
    ensures Entitled(b, limits)
  {
    FewerWithin(a.registry.live, b.registry.live, limits);
    StillLicensed(a, b, taken);
  }

  lemma StillLicensed(a: Connection, b: Connection, taken: Capability)
    requires forall id | id in a.registry.live :: Licensed(a.registry.live[id], a.capabilities)
    requires b.capabilities == a.capabilities - {taken}
    requires forall id | id in b.registry.live :: id in a.registry.live && Alike(a.registry.live[id], b.registry.live[id])
    requires forall id | id in b.registry.live :: !RequiresGrant(b.registry.live[id], taken)
    ensures forall id | id in b.registry.live :: Licensed(b.registry.live[id], b.capabilities)
  {
  }

  /** Whatever a step does, everybody stays within grants and limits. */
  lemma StepProvisioned(server: set<Capability>, w: World, step: Step, v: World)
    requires Holds(w, None) && Provisioned(w) && Went(server, w, step, v)
    ensures Provisioned(v)
  {
    WentIff(server, w, step, v);
    ElsewhereNoMore(w, w);
    if step.Asks? {
      assert AskDid(w, step.client, step.request, v) by {
        Unlock();
      }
      AskProvisioned(w, step.client, step.request, v);
    } else if step.Revokes? {
      assert if step.client in w.clients then Revoked(w, step.client, step.capability, v) else v == w by {
        Unlock();
      }
      if step.client in w.clients {
        RevokedProvisioned(w, step.client, step.capability, v);
      }
    } else if step.Seats? || step.Sessions? || step.Fences? || step.Signals? || step.Wakes? {
      assert ProvideDid(w, step, v) by {
        Unlock();
      }
      ProvideProvisioned(w, step, v);
    } else if step.Presents? || step.Releases? || step.Places? || step.Raises? || step.Focuses? || step.Points? || step.Tells? {
      assert ShowDid(w, step, v) by {
        Unlock();
      }
      ShowNoMore(w, step, v);
      NoMoreProvisioned(w, v);
    } else {
      assert AttendDid(server, w, step, v) by {
        Unlock();
      }
      AttendProvisioned(server, w, step, v);
    }
  }

  /** Over every run, from the empty compositor or any in which it is so: nobody ever has an object that
      needs a grant it lacks, or more than the limits allow. */
  lemma AlwaysProvisioned(server: set<Capability>, worlds: seq<World>, steps: seq<Step>, i: nat)
    requires Passed(server, worlds, steps) && i <= |steps| && Provisioned(worlds[0])
    ensures Provisioned(worlds[i])
  {
    var kept := (w: World) => Provisioned(w);
    forall w: World, step: Step, v: World | SoundWorlds()(w) && kept(w) && Goings(server)(w, step, v) ensures kept(v) {
      StepProvisioned(server, w, step, v);
    }
    Unlock();
    ChainKeeps(worlds, steps, SoundWorlds(), Goings(server), kept, i);
  }

  lemma EmptyProvisioned(limit: nat, limits: Limits)
    ensures Provisioned(Empty(limit, limits))
  {
  }
}
