/** What the changes a step makes come to, said of the objects and places they touch and of everything they
    leave alone. */
module Meanings {
  import opened Basics
  import opened Geometry
  import opened Model
  import opened World
  import opened Cascade
  import opened Steps
  import opened Lifetimes
  import opened Transitions
  import opened Requests
  import opened Fates
  import opened Effects

  // ----- objects -----

  /** Every other object is as it was, and nothing but objects is different. */
  ghost predicate OthersSame(w: World, v: World, ks: set<ObjectKey>) {
    && v == w.(clients := v.clients) && v.clients.Keys == w.clients.Keys
    && (forall c | c in w.clients :: SameButObjects(w.clients[c], v.clients[c]))
    && forall c, id | SurfaceKey(c, id) !in ks :: Lookup(v.clients, c, id) == Lookup(w.clients, c, id)
  }

  lemma PutMeans(w: World, k: ObjectKey, o: Object)
    requires k.connection in w.clients
    ensures OthersSame(w, Put(w, k, o), {k}) && Lookup(Put(w, k, o).clients, k.connection, k.objectId) == Some(o)
  {
    forall c, id ensures Lookup(Put(w, k, o).clients, c, id) == if SurfaceKey(c, id) == k then Some(o) else Lookup(w.clients, c, id) {
      WithObjectLookup(w.clients, k, o, c, id);
    }
  }

  /** An attach waits for the next commit: the surface has this buffer at this offset pending, and the fence
      that goes with it, and the buffer is pending for the surface. */
  lemma AttachMeans(w: World, k: SurfaceKey, b: ObjectId, offset: Point, fence: Option<ObjectId>)
    requires SurfaceOf(w.clients, k).Some? && LiveBuffer(w.clients, k.connection, b) && b != 0
    ensures var v, s := AttachAccepted(w, k, b, offset, fence), SurfaceOf(w.clients, k).value;
            && OthersSame(w, v, {k, SurfaceKey(k.connection, b)})
            && SurfaceOf(v.clients, k) == Some(SurfaceState(s.session, Set(b, offset), fence, s.current, s.frameRequested))
            && Lookup(v.clients, k.connection, b) == Some(BufferObject(Lookup(w.clients, k.connection, b).value.transport, Pending(k)))
  {
    var first := Put(w, k, SurfaceObject(SurfaceOf(w.clients, k).value.(attachment := Set(b, offset), acquireFence := fence)));
    PutMeans(w, k, SurfaceObject(SurfaceOf(w.clients, k).value.(attachment := Set(b, offset), acquireFence := fence)));
    PutMeans(first, SurfaceKey(k.connection, b), Lookup(w.clients, k.connection, b).value.(held := Pending(k)));
  }

  /** Attaching nothing waits too, and touches no buffer. */
  lemma DetachMeans(w: World, k: SurfaceKey, offset: Point, fence: Option<ObjectId>)
    requires SurfaceOf(w.clients, k).Some?
    ensures var v, s := AttachAccepted(w, k, 0, offset, fence), SurfaceOf(w.clients, k).value;
            && OthersSame(w, v, {k})
            && SurfaceOf(v.clients, k) == Some(SurfaceState(s.session, Detach, s.acquireFence, s.current, s.frameRequested))
  {
    PutMeans(w, k, SurfaceObject(SurfaceOf(w.clients, k).value.(attachment := Detach)));
  }

  /** A buffer given back is nobody's, and of the transport it had. */
  lemma ReleaseMeans(w: World, b: ObjectKey)
    requires LiveBuffer(w.clients, b.connection, b.objectId)
    ensures OthersSame(w, Released(w, b), {b})
    ensures Lookup(Released(w, b).clients, b.connection, b.objectId)
            == Some(BufferObject(Lookup(w.clients, b.connection, b.objectId).value.transport, Available))
  {
    PutMeans(w, b, Lookup(w.clients, b.connection, b.objectId).value.(held := Available));
  }

  /** Asking for a frame marks the surface and nothing else. */
  lemma AskMeans(w: World, k: SurfaceKey)
    requires SurfaceOf(w.clients, k).Some?
    ensures var v, s := Asked(w, k), SurfaceOf(w.clients, k).value;
            && OthersSame(w, v, {k})
            && SurfaceOf(v.clients, k) == Some(SurfaceState(s.session, s.attachment, s.acquireFence, s.current, true))
  {
    PutMeans(w, k, SurfaceObject(SurfaceOf(w.clients, k).value.(frameRequested := true)));
  }

  /** A commit waits for its fence exactly while there is one and it was not signaled. */
  lemma SignaledIff(w: World, k: SurfaceKey)
    requires SurfaceOf(w.clients, k).Some? && SurfaceOf(w.clients, k).value.current.Some?
    ensures var f := SurfaceOf(w.clients, k).value.current.value.acquireFence;
            FenceSignaled(w, k) <==> f.None? || Lookup(w.clients, k.connection, f.value) == Some(FenceObject(true))
  {
  }

  /** Of the buffers held for a surface, those held for commits before one are given back, and never the
      one of that commit or of a later one, or one that waits for a commit still to come. */
  lemma OlderIff(cs: Clients, k: SurfaceKey, shown: CommitId, b: ObjectKey)
    requires b.connection == k.connection && LiveBuffer(cs, b.connection, b.objectId)
    ensures b in RelatedTo(cs, k, Some(shown))
            <==> match Lookup(cs, b.connection, b.objectId).value.held
                 case Available => false
                 case Pending(_) => false
                 case CompositorHeld(surface, commit) => surface == k && commit < shown
  {
  }

  // ----- creation -----

  /** A new object is there under its identifier, taken and listed last, and its creation is in the history. */
  lemma BornMeans(w: World, k: ObjectKey, o: Object)
    requires k.connection in w.clients
    ensures var v := Born(w, k, o);
            && v == w.(clients := v.clients, log := w.log + [Created(k.connection, k.objectId)])
            && v.clients.Keys == w.clients.Keys && (forall c | c in w.clients && c != k.connection :: v.clients[c] == w.clients[c])
            && (forall c, id :: Lookup(v.clients, c, id) == if SurfaceKey(c, id) == k then Some(o) else Lookup(w.clients, c, id))
            && var a, b := w.clients[k.connection], v.clients[k.connection];
               && b.registry.order == a.registry.order + [k.objectId] && b.registry.used == a.registry.used + {k.objectId}
               && b == a.(registry := b.registry)
  {
    forall c, id
      ensures Lookup(Born(w, k, o).clients, c, id) == if SurfaceKey(c, id) == k then Some(o) else Lookup(w.clients, c, id)
    {
      BornLookup(w, k, o, c, id);
    }
  }

  /** A new window is over the surface named, under a handle nobody had, and the next handle is the next. */
  lemma WindowMeans(w: World, k: ObjectKey, surface: ObjectId)
    requires k.connection in w.clients && w.nextHandle !in w.toplevels
    ensures var v := WindowBorn(w, k, surface);
            && Lookup(v.clients, k.connection, k.objectId) == Some(ToplevelObject(surface, w.nextHandle))
            && v.nextHandle == w.nextHandle + 1 && w.nextHandle in v.toplevels && v.toplevels[w.nextHandle] == k
            && (forall h | h != w.nextHandle :: (h in v.toplevels <==> h in w.toplevels)
                                                && (h in w.toplevels ==> v.toplevels[h] == w.toplevels[h]))
  {
    BornLookup(w, k, ToplevelObject(surface, w.nextHandle), k.connection, k.objectId);
  }

  /** What a program is granted when it connects: only what both sides have or everybody gets, and never
      the control of a shell, of shortcuts or of an input method. */
  lemma ArrivalGrants(server: set<Capability>, client: set<Capability>, given: Capability)
    ensures given in Shared(server, client) <==>
              (given in server && given in client) || given == SurfaceCreate || given == BufferImport
    ensures given in Shared(server, client) * (DEFAULT_GRANTS + BACKEND_FACTS) <==>
              || given == SurfaceCreate || given == BufferImport
              || (&& given in server && given in client
                  && (given == SoftwareShm || given == GpuPrime || given == ExplicitGpuFence || given == RevocableSeat))
  {
  }

  // ----- places -----

  /** A surface is put where it is told, and stacked on top if it shows something and was not stacked. */
  lemma PlaceMeans(w: World, k: SurfaceKey, p: Point)
    ensures var v := Placed(w, k, p);
            && k in v.positions && v.positions[k] == p
            && (forall l | l != k :: (l in v.positions <==> l in w.positions) && (l in w.positions ==> v.positions[l] == w.positions[l]))
            && v.stack == w.stack + (if k in w.stack || !HasContent(w.clients, k) then [] else [k])
            && v == w.(positions := v.positions, stack := v.stack)
  {
  }

  /** A raised surface is on top, and the others are in the order they were. */
  lemma RaiseMeans(w: World, k: SurfaceKey, below: seq<SurfaceKey>, above: seq<SurfaceKey>)
    requires w.stack == below + [k] + above && k !in below && k !in above
    ensures Raised(w, k).stack == below + above + [k] && Raised(w, k) == w.(stack := Raised(w, k).stack)
  {
    WithoutOne(below, k, above);
  }

  lemma WithoutOne(below: seq<SurfaceKey>, k: SurfaceKey, above: seq<SurfaceKey>)
    requires k !in below && k !in above
    ensures KeepKeys(below + [k] + above, {}, {k}) == below + above
  {
    KeptSplit(below + [k], above, {k});
    KeptSplit(below, [k], {k});
    KeptAlone(below, k);
    KeptAlone(above, k);
    assert KeepKeys([k], {}, {k}) == [] by {
      assert [k][..0] == [];
    }
  }

  lemma {:induction false} KeptSplit(a: seq<SurfaceKey>, b: seq<SurfaceKey>, falls: set<ObjectKey>)
    ensures KeepKeys(a + b, {}, falls) == KeepKeys(a, {}, falls) + KeepKeys(b, {}, falls)
    decreases |b|
  {
    if b == [] {
      assert a + b == a;
    } else {
      assert (a + b)[..|a + b| - 1] == a + b[..|b| - 1];
      KeptSplit(a, b[..|b| - 1], falls);
    }
  }

  lemma {:induction false} KeptAlone(s: seq<SurfaceKey>, k: SurfaceKey)
    requires k !in s
    ensures KeepKeys(s, {}, {k}) == s
  {
    if s != [] {
      KeptAlone(s[..|s| - 1], k);
      assert s == s[..|s| - 1] + [s[|s| - 1]];
    }
  }

  // ----- names kept outside connections -----

  /** A text field wants text, composed or not as it says. */
  lemma FieldMeans(w: World, k: ObjectKey, composes: bool)
    ensures WithField(w, k, composes).fields == w.fields[k := TextField(k.connection, k.objectId, composes)]
    ensures k !in WithoutField(w, k).fields
    ensures forall l | l != k :: (l in WithoutField(w, k).fields <==> l in w.fields)
                                 && (l in w.fields ==> WithoutField(w, k).fields[l] == w.fields[l])
  {
  }

  /** Giving up a number gives up every chord the client claimed under it, and no other. */
  lemma UnclaimMeans(w: World, c: ConnectionId, shortcut: nat)
    ensures forall chord :: chord in WithoutClaims(w, c, shortcut).shortcuts
              <==> && chord in w.shortcuts
                   && !(w.shortcuts[chord].holder == c && w.shortcuts[chord].shortcut == shortcut)
    ensures forall chord | chord in WithoutClaims(w, c, shortcut).shortcuts ::
              WithoutClaims(w, c, shortcut).shortcuts[chord] == w.shortcuts[chord]
    ensures WithoutClaims(w, c, shortcut) == w.(shortcuts := WithoutClaims(w, c, shortcut).shortcuts)
  {
  }

  /** What is left of everything named by a connection that closes: nothing; and of what others named: all. */
  lemma CloseMeans(w: World, c: ConnectionId)
    ensures var v := Closed(w, c);
            && (forall d :: d in v.clients <==> d in w.clients && d != c) && (forall d | d in v.clients :: v.clients[d] == w.clients[d])
            && (forall k :: k in v.positions <==> k in w.positions && k.connection != c)
            && (forall k | k in v.positions :: v.positions[k] == w.positions[k])
            && (forall h :: h in v.toplevels <==> h in w.toplevels && w.toplevels[h].connection != c)
            && (forall h | h in v.toplevels :: v.toplevels[h] == w.toplevels[h])
            && (forall chord :: chord in v.shortcuts <==> chord in w.shortcuts && w.shortcuts[chord].holder != c)
            && (forall chord | chord in v.shortcuts :: v.shortcuts[chord] == w.shortcuts[chord])
            && (forall f :: f in v.fields <==> f in w.fields && f.connection != c)
            && (forall f | f in v.fields :: v.fields[f] == w.fields[f])
  {
  }

  lemma CloseFocus(w: World, c: ConnectionId)
    ensures var v := Closed(w, c);
            && (forall k :: k in v.stack <==> k in w.stack && k.connection != c)
            && v.keyboardFocus == (if w.keyboardFocus.Some? && w.keyboardFocus.value.connection == c then None else w.keyboardFocus)
            && v.pointerTarget == (if w.pointerTarget.Some? && w.pointerTarget.value.connection == c then None else w.pointerTarget)
            && v.inputMethod == (if w.inputMethod.Some? && w.inputMethod.value.connection == c then None else w.inputMethod)
            && v.events == w.events && v.log == w.log && v.drained == w.drained && v.globals == w.globals
  {
    KeptKeys(w.stack, {c}, {});
  }

  // ----- grants -----

  /** Which objects fall with a grant. The control of a shell, of shortcuts and of an input method takes
      none with it: what was bound with the grant stays, is told as before, and keeps what it claimed. */
  lemma GrantReaches(o: Object, taken: Capability)
    ensures RequiresGrant(o, taken)
            <==> match o
                 case SurfaceObject(_) => taken == SurfaceCreate
                 case BufferObject(transport, _) => taken == BufferImport || taken == transport
                 case FenceObject(_) => taken == ExplicitGpuFence
                 case SessionObject(_, _) => taken == PrivilegedSession
                 case SeatObject(_) => taken == RevocableSeat
                 case Plain(kind) => kind == InputStream && taken == ExtendedInput
                 case ToplevelObject(_, _) => false
    ensures !o.BufferObject? && taken in {ShellControl, ShortcutControl, InputMethodControl} ==> !RequiresGrant(o, taken)
  {
  }

  /** A compositor begins with nobody and nothing, and its first connection, commit, handle and global are 1. */
  lemma EmptyMeans(limit: nat, limits: Limits)
    ensures var w := Empty(limit, limits);
            && w.limit == limit && w.limits == limits && w.clients == map[] && w.globals == map[] && w.toplevels == map[]
            && w.stack == [] && w.positions == map[] && w.keyboardFocus.None? && w.pointerTarget.None?
            && w.shortcuts == map[] && w.fields == map[] && w.inputMethod.None? && w.composing.None?
            && w.events == [] && w.log == [] && w.drained == []
            && w.nextConnection == 1 && w.nextCommit == 1 && w.nextHandle == 1 && w.nextGlobal == 1
  {
  }

  // ----- what is composed into -----

  /** Once the composition settled, with an input method there and nobody gone, it is into the field wanted:
      that of the connection and the object wanted, or none if none is. */
  lemma ComposedInto(w: World, v: World)
    requires Recomposed(w, v) && v.clients.Keys == w.clients.Keys && w.inputMethod.Some? && v.inputMethod.Some?
    ensures exists wanted :: && Wants(w, wanted) && (v.composing.Some? <==> wanted.Some?)
                             && (wanted.Some? ==> && v.composing.value.connection == wanted.value.connection
                                                  && v.composing.value.input == wanted.value.input)
  {
    Unlock();
    var wanted :| Wants(w, wanted) && Composed(w, wanted, v);
  }

  // ----- what a shell is told -----

  lemma {:induction false} WindowsAreBelow(windows: map<nat, ObjectKey>, bound: nat)
    ensures forall r :: r in WindowsBelow(windows, bound) <==> r.handle < bound && r.handle in windows && windows[r.handle] == r.key
    ensures forall i, j | 0 <= i < j < |WindowsBelow(windows, bound)| ::
              WindowsBelow(windows, bound)[i].handle < WindowsBelow(windows, bound)[j].handle
  {
    if bound > 0 {
      WindowsAreBelow(windows, bound - 1);
      var before := WindowsBelow(windows, bound - 1);
      assert forall i | 0 <= i < |before| :: before[i] in before;
    }
  }

  lemma {:induction false} NoticesAre(records: seq<WindowRecord>, k: ObjectKey)
    ensures |WindowNotices(records, k)| == |records|
    ensures forall i | 0 <= i < |records| ::
              WindowNotices(records, k)[i] == Queued(Event(k.connection, k.objectId, ShellToplevel(records[i].handle)))
  {
    if records != [] {
      NoticesAre(records[..|records| - 1], k);
    }
  }

  /** The picture a shell begins with: a window for every handle, in ascending order, each exactly once; then
      the window that has the keyboard, or none; then that this was all. */
  lemma SnapshotMeans(w: World, k: ObjectKey)
    requires forall h | h in w.toplevels :: h < w.nextHandle
    ensures var log := SnapshotLog(w, k);
            && 2 <= |log| && log[|log| - 1] == Queued(Event(k.connection, k.objectId, ShellSnapshotDone))
            && log[|log| - 2] == Queued(Event(k.connection, k.objectId, ShellFocusChanged(
                                   if w.keyboardFocus.Some? then WindowOf(w, w.keyboardFocus.value) else 0)))
            && (forall i | 0 <= i < |log| - 2 ::
                  && log[i].Queued? && log[i].event.connection == k.connection && log[i].event.objectId == k.objectId
                  && log[i].event.kind.ShellToplevel? && log[i].event.kind.handle in w.toplevels)
            && (forall i, j | 0 <= i < j < |log| - 2 :: log[i].event.kind.handle < log[j].event.kind.handle)
            && (forall h | h in w.toplevels :: exists i :: 0 <= i < |log| - 2 && log[i].event.kind.handle == h)
  {
    var records := WindowsBelow(w.toplevels, w.nextHandle);
    WindowsAreBelow(w.toplevels, w.nextHandle);
    NoticesAre(records, k);
    var log := SnapshotLog(w, k);
    forall i | 0 <= i < |log| - 2 ensures log[i] == Queued(Event(k.connection, k.objectId, ShellToplevel(records[i].handle))) {
      assert records[i] in records;
    }
    forall h | h in w.toplevels ensures exists i :: 0 <= i < |log| - 2 && log[i].event.kind.handle == h {
      assert WindowRecord(h, w.toplevels[h]) in records;
      var i :| 0 <= i < |records| && records[i] == WindowRecord(h, w.toplevels[h]);
      assert log[i].event.kind.handle == h;
    }
  }
}
