/** The remaining changes a step makes at once: connections arriving, names claimed and given up,
    status changes, and events drained. Each keeps what holds between steps. */
module Transitions {
  import opened Basics
  import opened Geometry
  import opened Model
  import opened Registry
  import opened World
  import opened Cascade
  import opened Steps
  import opened Lifetimes
  import opened Destruction

  // ----- a connection arrives -----

  /** The state with one connection more, holding its display object and nothing else. */
  function Connected(w: World, available: set<Capability>, granted: set<Capability>): World {
    var client := Connection(0, None, available, granted, New(Plain(Display)));
    w.(clients := w.clients[w.nextConnection := client], nextConnection := w.nextConnection + 1,
       log := w.log + [Created(w.nextConnection, DISPLAY_ID)])
  }

  lemma {:induction false} NoHistory(log: seq<Entry>, c: ConnectionId, id: ObjectId)
    requires forall i | 0 <= i < |log| :: EntryConnection(log[i]) != c
    ensures IdHistory(log, c, id) == Unused && EventsFor(Pushed(log), c) == []
  {
    if log != [] {
      NoHistory(log[..|log| - 1], c, id);
      assert EntryConnection(log[|log| - 1]) != c;
      if log[|log| - 1].Queued? {
        EventsForOne(Pushed(log[..|log| - 1]), log[|log| - 1].event, c);
      }
    }
  }

  lemma ConnectedLookup(w: World, available: set<Capability>, granted: set<Capability>, c: ConnectionId, id: ObjectId)
    requires w.nextConnection !in w.clients
    ensures Lookup(Connected(w, available, granted).clients, c, id)
            == if c == w.nextConnection then (if id == DISPLAY_ID then Some(Plain(Display)) else None)
               else Lookup(w.clients, c, id)
  {
  }

  lemma ConnectedScene(w: World, available: set<Capability>, granted: set<Capability>)
    requires SceneSound(w, None) && w.nextConnection !in w.clients
    ensures SceneSound(Connected(w, available, granted), None)
  {
    var v := Connected(w, available, granted);
    forall k ensures SurfaceOf(v.clients, k) == SurfaceOf(w.clients, k) {
      ConnectedLookup(w, available, granted, k.connection, k.objectId);
    }
    forall k | HasContent(v.clients, k) ensures k in v.stack {
      assert HasContent(w.clients, k);
    }
  }

  lemma ConnectedBuffers(w: World, available: set<Capability>, granted: set<Capability>)
    requires BuffersSound(w) && w.nextConnection !in w.clients
    ensures BuffersSound(Connected(w, available, granted))
  {
    var v := Connected(w, available, granted);
    forall c, id
      ensures Lookup(v.clients, c, id)
              == if c == w.nextConnection then (if id == DISPLAY_ID then Some(Plain(Display)) else None)
                 else Lookup(w.clients, c, id)
    {
      ConnectedLookup(w, available, granted, c, id);
    }
    forall k ensures SurfaceOf(v.clients, k) == SurfaceOf(w.clients, k) {
      ConnectedLookup(w, available, granted, k.connection, k.objectId);
    }
    forall c, id | LiveBuffer(v.clients, c, id) ensures BufferSound(v, c, id, Lookup(v.clients, c, id).value.held) {
      assert BufferSound(w, c, id, Lookup(w.clients, c, id).value.held);
    }
    forall k | SurfaceOf(v.clients, k).Some?
      ensures SurfaceNamesLive(v, k.connection, SurfaceOf(v.clients, k).value)
    {
      assert SurfaceNamesLive(w, k.connection, SurfaceOf(w.clients, k).value);
    }
  }

  lemma ConnectedWindows(w: World, available: set<Capability>, granted: set<Capability>)
    requires WindowsSound(w, None) && w.nextConnection !in w.clients
    ensures WindowsSound(Connected(w, available, granted), None)
  {
    var v := Connected(w, available, granted);
    forall k: ObjectKey
      ensures IsToplevel(v.clients, k) <==> IsToplevel(w.clients, k)
      ensures IsToplevel(v.clients, k) ==> HandleOf(v.clients, k) == HandleOf(w.clients, k)
                                           && WindowSurface(v.clients, k) == WindowSurface(w.clients, k)
    {
      ConnectedLookup(w, available, granted, k.connection, k.objectId);
    }
  }

  lemma ConnectedIds(w: World, available: set<Capability>, granted: set<Capability>)
    requires IdsSound(w, None) && w.nextConnection !in w.clients
    ensures IdsSound(Connected(w, available, granted), None)
  {
    var v := Connected(w, available, granted);
    var n := w.nextConnection;
    var e := Created(n, DISPLAY_ID);
    NoHistory(w.log, n, DISPLAY_ID);
    OrderOne(w.log, e);
    forall c, id | c in v.clients
      ensures IdHistory(v.log, c, id) == if id in v.clients[c].registry.used then Taken else Unused
    {
      HistoryOne(w.log, e, c, id);
      if c == n {
        NoHistory(w.log, n, id);
      } else {
        assert None != Some(SurfaceKey(c, id));
      }
    }
    forall c | c in v.clients ensures c < v.nextConnection && Sound(v.clients[c].registry, DyingIn(c, None)) {
      if c != n {
        assert Sound(w.clients[c].registry, DyingIn(c, None));
      }
    }
  }

  lemma ConnectedQueue(w: World, available: set<Capability>, granted: set<Capability>)
    requires QueueSound(w) && w.nextConnection !in w.clients
    requires forall i | 0 <= i < |w.log| :: EntryConnection(w.log[i]) < w.nextConnection
    ensures QueueSound(Connected(w, available, granted))
  {
    var n := w.nextConnection;
    var v := Connected(w, available, granted);
    NoHistory(w.log, n, DISPLAY_ID);
    assert (w.log + [Created(n, DISPLAY_ID)])[..|w.log|] == w.log;
    assert EventsFor(w.events, n) == [];
    forall c | c in v.clients ensures v.clients[c].pendingEvents == |EventsFor(v.events, c)| <= v.limit {
      if c != n {
        assert c in w.clients;
      }
    }
  }

  lemma FreshConnection(w: World)
    requires Holds(w, None)
    ensures w.nextConnection !in w.clients
    ensures forall i | 0 <= i < |w.log| :: EntryConnection(w.log[i]) < w.nextConnection
  {
    Unlock();
  }

  lemma ConnectedHolds(w: World, available: set<Capability>, granted: set<Capability>)
    requires Holds(w, None)
    ensures Holds(Connected(w, available, granted), None)
  {
    FreshConnection(w);
    Unlock();
    ConnectedScene(w, available, granted);
    ConnectedBuffers(w, available, granted);
    ConnectedWindows(w, available, granted);
    ConnectedIds(w, available, granted);
    ConnectedQueue(w, available, granted);
    ConnectedNames(w, available, granted);
  }

  lemma ConnectedNames(w: World, available: set<Capability>, granted: set<Capability>)
    requires NamesSound(w)
    ensures NamesSound(Connected(w, available, granted))
  {
  }

  lemma ConnectedOnward(w: World, available: set<Capability>, granted: set<Capability>)
    requires w.nextConnection !in w.clients
    ensures Onward(w, Connected(w, available, granted))
  {
    Unlock();
    forall k | Hollow(Connected(w, available, granted), k) ensures Hollow(w, k) {
      ConnectedLookup(w, available, granted, k.connection, k.objectId);
    }
  }

  // ----- what a connection may do, and which session it has -----

  function WithGrants(w: World, c: ConnectionId, granted: set<Capability>, session: Option<ObjectId>): World
    requires c in w.clients
  {
    w.(clients := w.clients[c := w.clients[c].(capabilities := granted, session := session)])
  }

  lemma GrantsHold(w: World, c: ConnectionId, granted: set<Capability>, session: Option<ObjectId>)
    requires Holds(w, None) && c in w.clients
    ensures Holds(WithGrants(w, c, granted, session), None)
  {
    var v := WithGrants(w, c, granted, session);
    GrantsView(w, c, granted, session);
    assert IdsSound(v, None) && QueueSound(v) by {
      Unlock();
      TakenIds(w, v);
      GrantsQueue(w, c, granted, session);
    }
    ViewHolds(w, v, None);
  }

  lemma GrantsView(w: World, c: ConnectionId, granted: set<Capability>, session: Option<ObjectId>)
    requires c in w.clients
    ensures SameView(w, WithGrants(w, c, granted, session)) && Onward(w, WithGrants(w, c, granted, session))
  {
    Unlock();
  }

  lemma GrantsQueue(w: World, c: ConnectionId, granted: set<Capability>, session: Option<ObjectId>)
    requires QueueSound(w) && c in w.clients
    ensures QueueSound(WithGrants(w, c, granted, session))
  {
    var v := WithGrants(w, c, granted, session);
    assert forall d | d in v.clients :: v.clients[d].pendingEvents == w.clients[d].pendingEvents;
  }

  // ----- names -----

  /** Only claimed chords, fields wanting text, the input method and what is offered differ. */
  ghost predicate NamesOnly(w: World, v: World) {
    v == w.(shortcuts := v.shortcuts, fields := v.fields, inputMethod := v.inputMethod, globals := v.globals,
            nextGlobal := v.nextGlobal)
  }

  lemma NamesHold(w: World, v: World)
    requires Holds(w, None) && NamesOnly(w, v) && NamesSound(v)
    ensures Holds(v, None)
  {
    Unlock();
    BuffersDepend(w, v);
    NamesRest(w, v);
  }

  lemma NamesRest(w: World, v: World)
    requires NamesOnly(w, v) && SceneSound(w, None) && WindowsSound(w, None) && IdsSound(w, None) && QueueSound(w)
    ensures SceneSound(v, None) && WindowsSound(v, None) && IdsSound(v, None) && QueueSound(v)
  {
  }

  lemma NamesOnward(w: World, v: World)
    requires NamesOnly(w, v) && w.nextGlobal <= v.nextGlobal
    requires forall n | n in v.globals && n < w.nextGlobal :: n in w.globals && v.globals[n] == w.globals[n]
    ensures Onward(w, v)
  {
    Unlock();
  }

  function WithField(w: World, k: ObjectKey, composes: bool): World {
    w.(fields := w.fields[k := TextField(k.connection, k.objectId, composes)])
  }

  function WithoutField(w: World, k: ObjectKey): World {
    w.(fields := w.fields - {k})
  }

  function WithClaim(w: World, chord: Chord, claim: Claim): World {
    w.(shortcuts := w.shortcuts[chord := claim])
  }

  /** Every chord of one holder claimed under one number given up. */
  function WithoutClaims(w: World, c: ConnectionId, shortcut: nat): World {
    w.(shortcuts := map chord | chord in w.shortcuts
                                && !(w.shortcuts[chord].holder == c && w.shortcuts[chord].shortcut == shortcut)
                    :: w.shortcuts[chord])
  }

  function WithMethod(w: World, k: ObjectKey): World {
    w.(inputMethod := Some(k))
  }

  /** One global more, under a name not used before. */
  function Offered(w: World, kind: Kind, version: nat): World {
    w.(globals := w.globals[w.nextGlobal := Global(kind, version)], nextGlobal := w.nextGlobal + 1)
  }

  function NoLongerOffered(w: World, name: nat): World {
    w.(globals := w.globals - {name})
  }

  lemma OfferedHolds(w: World, kind: Kind, version: nat)
    requires Holds(w, None) && (kind.Seat? || PlainOf(kind))
    ensures Holds(Offered(w, kind, version), None) && Onward(w, Offered(w, kind, version))
    ensures w.nextGlobal !in w.globals
  {
    HeldNames(w);
    NamesHold(w, Offered(w, kind, version));
    NamesOnward(w, Offered(w, kind, version));
  }

  lemma NoLongerOfferedHolds(w: World, name: nat)
    requires Holds(w, None)
    ensures Holds(NoLongerOffered(w, name), None) && Onward(w, NoLongerOffered(w, name))
  {
    HeldNames(w);
    NamesHold(w, NoLongerOffered(w, name));
    NamesOnward(w, NoLongerOffered(w, name));
  }

  lemma FieldHolds(w: World, k: ObjectKey, composes: bool)
    requires Holds(w, None) && k.connection in w.clients
    ensures Holds(WithField(w, k, composes), None) && Holds(WithoutField(w, k), None)
  {
    HeldNames(w);
    NamesHold(w, WithField(w, k, composes));
    NamesHold(w, WithoutField(w, k));
  }

  lemma ClaimHolds(w: World, chord: Chord, claim: Claim)
    requires Holds(w, None) && claim.holder in w.clients
    ensures Holds(WithClaim(w, chord, claim), None)
  {
    HeldNames(w);
    NamesHold(w, WithClaim(w, chord, claim));
  }

  lemma WithoutClaimsHolds(w: World, c: ConnectionId, shortcut: nat)
    requires Holds(w, None)
    ensures Holds(WithoutClaims(w, c, shortcut), None)
  {
    HeldNames(w);
    NamesHold(w, WithoutClaims(w, c, shortcut));
  }

  lemma MethodHolds(w: World, k: ObjectKey)
    requires Holds(w, None) && k.connection in w.clients
    ensures Holds(WithMethod(w, k), None)
  {
    HeldNames(w);
    NamesHold(w, WithMethod(w, k));
  }

  lemma HeldNames(w: World)
    requires Holds(w, None)
    ensures NamesSound(w)
  {
    Unlock();
  }

  // ----- objects whose value changes and that nothing else depends on -----

  lemma StatusHolds(w: World, k: ObjectKey, o: Object)
    requires Holds(w, None) && Lookup(w.clients, k.connection, k.objectId).Some?
    requires KindOf(Lookup(w.clients, k.connection, k.objectId).value) == KindOf(o)
    requires o.SeatObject? || o.SessionObject? || o.FenceObject?
    ensures Holds(Put(w, k, o), None)
  {
    Unlock();
    StatusScene(w, k, o);
    StatusBuffers(w, k, o);
    PutShape(w, k, o);
    ShapeHolds(w, Put(w, k, o), None);
  }

  /** A surface keeps its content. */
  predicate KeepsContent(a: Object, b: Object) {
    a.SurfaceObject? && a.state.current.Some? ==> b.SurfaceObject? && b.state.current.Some?
  }

  lemma PutOnward(w: World, k: ObjectKey, o: Object)
    requires Lookup(w.clients, k.connection, k.objectId).Some?
    requires KeepsContent(Lookup(w.clients, k.connection, k.objectId).value, o)
    ensures Onward(w, Put(w, k, o))
  {
    Unlock();
    forall l | Hollow(Put(w, k, o), l) ensures Hollow(w, l) {
      WithObjectLookup(w.clients, k, o, l.connection, l.objectId);
    }
  }

  lemma StatusLookups(w: World, k: ObjectKey, o: Object)
    requires Lookup(w.clients, k.connection, k.objectId).Some?
    requires KindOf(Lookup(w.clients, k.connection, k.objectId).value) == KindOf(o)
    requires o.SeatObject? || o.SessionObject? || o.FenceObject?
    ensures var v := Put(w, k, o);
            && (forall l :: SurfaceOf(v.clients, l) == SurfaceOf(w.clients, l))
            && (forall c, id :: LiveBuffer(v.clients, c, id) <==> LiveBuffer(w.clients, c, id))
            && (forall c, id | LiveBuffer(w.clients, c, id) :: Lookup(v.clients, c, id) == Lookup(w.clients, c, id))
            && (forall c, id :: LiveFence(v.clients, c, id) <==> LiveFence(w.clients, c, id))
  {
    var v := Put(w, k, o);
    forall c, id
      ensures Lookup(v.clients, c, id) == if SurfaceKey(c, id) == k then Some(o) else Lookup(w.clients, c, id)
    {
      WithObjectLookup(w.clients, k, o, c, id);
    }
  }

  lemma StatusScene(w: World, k: ObjectKey, o: Object)
    requires SceneSound(w, None) && Lookup(w.clients, k.connection, k.objectId).Some?
    requires KindOf(Lookup(w.clients, k.connection, k.objectId).value) == KindOf(o)
    requires o.SeatObject? || o.SessionObject? || o.FenceObject?
    ensures SceneSound(Put(w, k, o), None)
  {
    StatusLookups(w, k, o);
    forall l ensures HasContent(Put(w, k, o).clients, l) <==> HasContent(w.clients, l) {
    }
  }

  lemma StatusBuffers(w: World, k: ObjectKey, o: Object)
    requires BuffersSound(w) && Lookup(w.clients, k.connection, k.objectId).Some?
    requires KindOf(Lookup(w.clients, k.connection, k.objectId).value) == KindOf(o)
    requires o.SeatObject? || o.SessionObject? || o.FenceObject?
    ensures BuffersSound(Put(w, k, o))
  {
    var v := Put(w, k, o);
    StatusLookups(w, k, o);
    forall c, id | LiveBuffer(v.clients, c, id) ensures BufferSound(v, c, id, Lookup(v.clients, c, id).value.held) {
      assert BufferSound(w, c, id, Lookup(w.clients, c, id).value.held);
    }
    forall l | SurfaceOf(v.clients, l).Some?
      ensures SurfaceNamesLive(v, l.connection, SurfaceOf(v.clients, l).value)
    {
      assert SurfaceNamesLive(w, l.connection, SurfaceOf(w.clients, l).value);
    }
  }

  // ----- frame callbacks -----

  /** The same surface, but for what it was asked about frames. */
  predicate SameButFrames(s: SurfaceState, t: SurfaceState) {
    && t == s.(current := t.current, frameRequested := t.frameRequested)
    && (if s.current.Some? then t.current.Some? && t.current.value == s.current.value.(frameCallback := t.current.value.frameCallback)
        else t.current.None?)
  }

  lemma FramesFit(w: World, k: SurfaceKey, t: SurfaceState)
    requires SceneSound(w, None) && BuffersSound(w) && SurfaceOf(w.clients, k).Some?
    requires SameButFrames(SurfaceOf(w.clients, k).value, t)
    ensures SurfaceNamesLive(w, k.connection, t)
    ensures t.current.Some? ==> k in w.stack
    ensures forall id | LiveBuffer(w.clients, k.connection, id) ::
              BufferFits(k, id, Lookup(w.clients, k.connection, id).value.held, t)
  {
    assert SurfaceNamesLive(w, k.connection, SurfaceOf(w.clients, k).value);
    ContentStacked(w, k);
    forall id | LiveBuffer(w.clients, k.connection, id)
      ensures BufferFits(k, id, Lookup(w.clients, k.connection, id).value.held, t)
    {
      assert BufferSound(w, k.connection, id, Lookup(w.clients, k.connection, id).value.held);
    }
  }

  lemma FramesHold(w: World, k: SurfaceKey, t: SurfaceState)
    requires Holds(w, None) && SurfaceOf(w.clients, k).Some? && SameButFrames(SurfaceOf(w.clients, k).value, t)
    ensures Holds(Put(w, k, SurfaceObject(t)), None)
  {
    assert SceneSound(w, None) && BuffersSound(w) by {
      Unlock();
    }
    FramesFit(w, k, t);
    PutSurfaceHolds(w, k, t, None);
  }

  // ----- events drained -----

  /** What is left in the queue when one connection's events are taken. */
  function Others(es: seq<Event>, c: ConnectionId): seq<Event> {
    if es == [] then []
    else
      var before := Others(es[..|es| - 1], c);
      if es[|es| - 1].connection == c then before else before + [es[|es| - 1]]
  }

  lemma {:induction false} OthersFor(es: seq<Event>, c: ConnectionId, d: ConnectionId)
    ensures EventsFor(Others(es, c), d) == if d == c then [] else EventsFor(es, d)
  {
    if es != [] {
      OthersFor(es[..|es| - 1], c, d);
      if es[|es| - 1].connection != c {
        EventsForOne(Others(es[..|es| - 1], c), es[|es| - 1], d);
      }
    }
  }

  lemma {:induction false} EventsForTwice(es: seq<Event>, c: ConnectionId, d: ConnectionId)
    ensures EventsFor(EventsFor(es, c), d) == if d == c then EventsFor(es, c) else []
  {
    if es != [] {
      EventsForTwice(es[..|es| - 1], c, d);
      if es[|es| - 1].connection == c {
        EventsForOne(EventsFor(es[..|es| - 1], c), es[|es| - 1], d);
      }
    }
  }

  lemma {:induction false} EventsForAppend(a: seq<Event>, b: seq<Event>, c: ConnectionId)
    ensures EventsFor(a + b, c) == EventsFor(a, c) + EventsFor(b, c)
  {
    if b == [] {
      assert a + b == a;
    } else {
      EventsForAppend(a, b[..|b| - 1], c);
      assert a + b == (a + b[..|b| - 1]) + [b[|b| - 1]];
      EventsForOne(a + b[..|b| - 1], b[|b| - 1], c);
    }
  }

  /** The state after one connection's events were taken. */
  function TakenFor(w: World, c: ConnectionId): World {
    w.(clients := if c in w.clients then w.clients[c := w.clients[c].(pendingEvents := 0)] else w.clients,
       events := Others(w.events, c), drained := w.drained + EventsFor(w.events, c))
  }

  lemma TakenForQueue(w: World, c: ConnectionId)
    requires QueueSound(w)
    ensures QueueSound(TakenFor(w, c))
  {
    var v := TakenFor(w, c);
    forall d
      ensures EventsFor(v.events, d) == if d == c then [] else EventsFor(w.events, d)
      ensures EventsFor(v.drained, d) == EventsFor(w.drained, d) + if d == c then EventsFor(w.events, c) else []
    {
      OthersFor(w.events, c, d);
      EventsForTwice(w.events, c, d);
      EventsForAppend(w.drained, EventsFor(w.events, c), d);
    }
  }

  lemma TakenForView(w: World, c: ConnectionId)
    ensures SameView(w, TakenFor(w, c)) && Onward(w, TakenFor(w, c))
  {
    Unlock();
  }

  lemma TakenForHolds(w: World, c: ConnectionId)
    requires Holds(w, None)
    ensures Holds(TakenFor(w, c), None)
  {
    var v := TakenFor(w, c);
    TakenForView(w, c);
    assert IdsSound(v, None) && QueueSound(v) by {
      Unlock();
      TakenForQueue(w, c);
      TakenIds(w, v);
    }
    ViewHolds(w, v, None);
  }

  lemma TakenIds(w: World, v: World)
    requires IdsSound(w, None) && SameView(w, v) && v.log == w.log
    requires forall c | c in w.clients :: v.clients[c].registry == w.clients[c].registry
    ensures IdsSound(v, None)
  {
    forall c | c in v.clients ensures c < v.nextConnection && Sound(v.clients[c].registry, DyingIn(c, None)) {
      assert Sound(w.clients[c].registry, DyingIn(c, None));
    }
  }

  /** The state after the whole queue was taken. */
  function TakenAll(w: World): World {
    w.(clients := map c | c in w.clients :: w.clients[c].(pendingEvents := 0), events := [], drained := w.drained + w.events)
  }

  lemma TakenAllQueue(w: World)
    requires QueueSound(w)
    ensures QueueSound(TakenAll(w))
  {
    forall c ensures EventsFor(w.drained + w.events, c) == EventsFor(w.drained, c) + EventsFor(w.events, c) {
      EventsForAppend(w.drained, w.events, c);
    }
  }

  lemma TakenAllView(w: World)
    ensures SameView(w, TakenAll(w)) && Onward(w, TakenAll(w))
  {
    Unlock();
  }

  lemma TakenAllHolds(w: World)
    requires Holds(w, None)
    ensures Holds(TakenAll(w), None)
  {
    var v := TakenAll(w);
    TakenAllView(w);
    assert IdsSound(v, None) && QueueSound(v) by {
      Unlock();
      TakenAllQueue(w);
      TakenIds(w, v);
    }
    ViewHolds(w, v, None);
  }

  // ----- a connection goes -----

  lemma CloseHolds(w: World, c: ConnectionId, v: World)
    requires Holds(w, None) && c in w.clients && Cascaded(Closed(w, c), v) && Ready(v)
    ensures Holds(v, None) && Moved(w, v, {}, {c})
  {
    var u := Closed(w, c);
    ReadyFacts(v);
    ClosedShrunk(w, c);
    CascadedIff(u, v);
    ShrunkTrans(w, u, v);
    ShrunkHolds(w, v, None);
    ShrunkLost(w, v);
    forall d | d in w.clients && d !in v.clients && d !in {c} ensures Overran(w, v, d) {
      OverranSince(w, u, v, d);
    }
    MovedIff(w, v, {}, {c});
  }

  // ----- counters and histories over the changes above -----

  lemma BornOnward(w: World, k: ObjectKey, o: Object)
    requires Holds(w, None) && k.connection in w.clients && k.objectId !in w.clients[k.connection].registry.used
    ensures Onward(w, Born(w, k, o))
  {
    HeldAbsent(w, k);
    BornAdvances(w, k, o);
  }

  lemma HeldAbsent(w: World, k: ObjectKey)
    requires Holds(w, None) && k.connection in w.clients && k.objectId !in w.clients[k.connection].registry.used
    ensures Lookup(w.clients, k.connection, k.objectId).None?
  {
    assert IdsSound(w, None) by {
      Unlock();
    }
    FreshIsAbsent(w, k);
  }

  lemma BornAdvances(w: World, k: ObjectKey, o: Object)
    requires k.connection in w.clients && Lookup(w.clients, k.connection, k.objectId).None?
    ensures Onward(w, Born(w, k, o))
  {
    Unlock();
    forall l | Hollow(Born(w, k, o), l) ensures Hollow(w, l) {
      BornLookup(w, k, o, l.connection, l.objectId);
    }
  }

  lemma WindowBornOnward(w: World, k: ObjectKey, surface: ObjectId)
    requires Holds(w, None) && k.connection in w.clients && k.objectId !in w.clients[k.connection].registry.used
    ensures Onward(w, WindowBorn(w, k, surface))
  {
    var born := Born(w, k, ToplevelObject(surface, w.nextHandle));
    BornOnward(w, k, ToplevelObject(surface, w.nextHandle));
    HandleOnward(born, WindowBorn(w, k, surface));
    OnwardTrans(w, born, WindowBorn(w, k, surface));
  }

  lemma HandleOnward(w: World, v: World)
    requires v == w.(toplevels := v.toplevels, nextHandle := w.nextHandle + 1)
    requires forall h | h in v.toplevels && h < w.nextHandle :: h in w.toplevels && v.toplevels[h] == w.toplevels[h]
    ensures Onward(w, v)
  {
    Unlock();
  }

  lemma AttachedOnward(w: World, k: SurfaceKey, b: ObjectId, offset: Point, fence: Option<ObjectId>)
    requires SurfaceOf(w.clients, k).Some? && LiveBuffer(w.clients, k.connection, b)
    ensures Onward(w, Attached(w, k, b, offset, fence))
  {
    var s := SurfaceOf(w.clients, k).value.(attachment := Set(b, offset), acquireFence := fence);
    var v := Put(w, k, SurfaceObject(s));
    PutOnward(w, k, SurfaceObject(s));
    WithObjectLookup(w.clients, k, SurfaceObject(s), k.connection, b);
    PutOnward(v, SurfaceKey(k.connection, b), Lookup(w.clients, k.connection, b).value.(held := Pending(k)));
    OnwardTrans(w, v, Attached(w, k, b, offset, fence));
  }

  lemma CommittedOnward(w: World, k: SurfaceKey, b: ObjectId, offset: Point)
    requires SurfaceOf(w.clients, k).Some? && LiveBuffer(w.clients, k.connection, b)
    ensures Onward(w, Committed(w, k, b, offset))
  {
    var s := CommitState(SurfaceOf(w.clients, k).value, b, offset, w.nextCommit);
    CommittedObjects(w.clients, k, b, offset, w.nextCommit);
    CommitFills(w, Committed(w, k, b, offset), k, s, b, CompositorHeld(k, w.nextCommit));
    Unlock();
  }

  lemma CommitFills(w: World, v: World, k: SurfaceKey, s: SurfaceState, b: ObjectId, held: BufferState)
    requires CommitObjects(w.clients, v.clients, k, s, b, held) && s.current.Some? && v.stack == Mapped(w, k).stack
    ensures LostOnly(w, v, {})
  {
    forall l | Hollow(v, l) ensures Hollow(w, l) {
      assert l != k && SurfaceOf(v.clients, l) == SurfaceOf(w.clients, l);
    }
  }

  lemma EmptiedOnward(w: World, k: SurfaceKey)
    requires SurfaceOf(w.clients, k).Some?
    ensures Onward(w, Emptied(w, k))
  {
    Unlock();
    PutSurfaceLookups(w.(stack := WithoutKey(w.stack, k)), k, SurfaceOf(w.clients, k).value.(current := None));
    forall l | Hollow(Emptied(w, k), l) ensures Hollow(w, l) {
    }
  }

  /** A surface without content, out of the stack, and nothing pending. */
  function Detached(w: World, k: SurfaceKey): World
    requires SurfaceOf(w.clients, k).Some?
  {
    var s := SurfaceOf(w.clients, k).value;
    Put(Emptied(w, k), k, SurfaceObject(s.(current := None, attachment := Unchanged, acquireFence := None)))
  }

  lemma DetachedHolds(w: World, k: SurfaceKey)
    requires Holds(w, None) && SurfaceOf(w.clients, k).Some? && !SurfaceOf(w.clients, k).value.attachment.Set?
    ensures Holds(Detached(w, k), None) && Onward(w, Detached(w, k))
    ensures SurfaceOf(Detached(w, k).clients, k)
            == Some(SurfaceOf(w.clients, k).value.(current := None, attachment := Unchanged, acquireFence := None))
    ensures k !in Detached(w, k).stack
  {
    EmptiedHolds(w, k);
    EmptiedOnward(w, k);
    var v := Emptied(w, k);
    WithObjectLookup(w.clients, k, SurfaceObject(SurfaceOf(w.clients, k).value.(current := None)), k.connection, k.objectId);
    DropPendingHolds(v, k);
    PutOnward(v, k, SurfaceObject(SurfaceOf(v.clients, k).value.(attachment := Unchanged, acquireFence := None)));
    OnwardTrans(w, v, Detached(w, k));
  }

  lemma SceneOnward(w: World, v: World)
    requires SceneOnly(w, v) && forall k | k in v.stack :: k in w.stack || HasContent(w.clients, k)
    ensures Onward(w, v)
  {
    Unlock();
  }

  /** A handle spent on a window that was then refused. */
  lemma SpentHolds(w: World)
    requires Holds(w, None)
    ensures Holds(w.(nextHandle := w.nextHandle + 1), None) && Onward(w, w.(nextHandle := w.nextHandle + 1))
  {
    Unlock();
    WindowOnlyHolds(w, w.(nextHandle := w.nextHandle + 1));
  }

  /** What a surface shows and what is attached to it are live buffers. */
  lemma NamedIsLive(w: World, k: SurfaceKey)
    requires Holds(w, None) && SurfaceOf(w.clients, k).Some?
    ensures var s := SurfaceOf(w.clients, k).value;
            && (s.current.Some? ==> LiveBuffer(w.clients, k.connection, s.current.value.buffer))
            && (s.attachment.Set? ==> LiveBuffer(w.clients, k.connection, s.attachment.buffer))
  {
    Unlock();
    assert SurfaceNamesLive(w, k.connection, SurfaceOf(w.clients, k).value);
  }

  // ----- presentation -----

  /** The fence a shown commit waits on, if any, has been signaled. */
  predicate FenceSignaled(w: World, k: SurfaceKey) {
    HasContent(w.clients, k) &&
    var f := SurfaceOf(w.clients, k).value.current.value.acquireFence;
    f.None? || (LiveFence(w.clients, k.connection, f.value) && Lookup(w.clients, k.connection, f.value).value.signaled)
  }

  /** The fence a shown commit names is live, so asking about it cannot fail. */
  lemma NamedFence(w: World, k: SurfaceKey)
    requires Holds(w, None) && HasContent(w.clients, k)
    ensures var f := SurfaceOf(w.clients, k).value.current.value.acquireFence;
            f.Some? ==> LiveFence(w.clients, k.connection, f.value)
  {
    Unlock();
    assert SurfaceNamesLive(w, k.connection, SurfaceOf(w.clients, k).value);
  }

  /** With nothing held for an earlier commit, a surface holds at most what it shows. */
  lemma HeldByCurrent(w: World, k: SurfaceKey)
    requires Holds(w, None) && HasContent(w.clients, k)
    requires forall id | LiveBuffer(w.clients, k.connection, id) ::
               !Related(Lookup(w.clients, k.connection, id).value.held, k, Some(SurfaceOf(w.clients, k).value.current.value.commit))
    ensures forall id | LiveBuffer(w.clients, k.connection, id) ::
              var held := Lookup(w.clients, k.connection, id).value.held;
              held.CompositorHeld? && held.surface == k ==>
                id == SurfaceOf(w.clients, k).value.current.value.buffer
                && held.commit == SurfaceOf(w.clients, k).value.current.value.commit
  {
    Unlock();
    forall id | LiveBuffer(w.clients, k.connection, id)
      ensures var held := Lookup(w.clients, k.connection, id).value.held;
              held.CompositorHeld? && held.surface == k ==>
                id == SurfaceOf(w.clients, k).value.current.value.buffer
                && held.commit == SurfaceOf(w.clients, k).value.current.value.commit
    {
      assert BufferSound(w, k.connection, id, Lookup(w.clients, k.connection, id).value.held);
    }
  }

  /** The one fault the scene can have is a stacked surface with nothing to show. */
  lemma FaultlessIff(w: World)
    requires Holds(w, None)
    ensures (forall k :: !Hollow(w, k))
            <==> && (forall k | k in w.stack :: HasContent(w.clients, k) && k in w.positions)
                 && (forall k | k in w.positions :: k.connection in w.clients)
  {
    assert SceneSound(w, None) by {
      Unlock();
    }
    if forall k :: !Hollow(w, k) {
      assert forall k | k in w.stack :: !Hollow(w, k);
    }
  }

  lemma GlobalsKnown(w: World)
    requires Holds(w, None)
    ensures forall n | n in w.globals :: n < w.nextGlobal && (w.globals[n].kind.Seat? || PlainOf(w.globals[n].kind))
  {
    Unlock();
  }

  /** Handles and windows name each other. */
  lemma WindowsKnown(w: World)
    requires Holds(w, None)
    ensures forall h | h in w.toplevels ::
              h < w.nextHandle && IsToplevel(w.clients, w.toplevels[h]) && HandleOf(w.clients, w.toplevels[h]) == h
    ensures forall k | IsToplevel(w.clients, k) ::
              HandleOf(w.clients, k) in w.toplevels && w.toplevels[HandleOf(w.clients, k)] == k
  {
    Unlock();
  }

  lemma FewerFields(w: World, v: World)
    requires Cascaded(w, v)
    ensures |v.fields| <= |w.fields|
  {
    CascadedIff(w, v);
    assert v.fields.Keys <= w.fields.Keys;
    FewerElements(w.fields.Keys, v.fields.Keys);
  }

  /** Before anything connected. */
  function Empty(limit: nat, limits: Limits): World {
    World(limit, limits, map[], 1, map[], 1, 1, 1, map[], [], map[], None, None, map[], map[], None, None, 0, [], [], [])
  }

  lemma EmptyHolds(limit: nat, limits: Limits)
    ensures Holds(Empty(limit, limits), None)
  {
    Unlock();
  }

  /** A buffer that was released is still shown, and nobody has it. */
  lemma ReleasedStillShown(w: World, k: SurfaceKey, b: ObjectKey)
    requires LiveBuffer(w.clients, b.connection, b.objectId) && ShowsBuffer(w.clients, k, b)
    ensures var v := Appended(Released(w, b), Event(b.connection, b.objectId, BufferRelease));
            && ShowsBuffer(v.clients, k, b) && LiveBuffer(v.clients, b.connection, b.objectId)
            && Lookup(v.clients, b.connection, b.objectId).value.held.Available?
            && v.stack == w.stack && v.clients[b.connection].pendingEvents == w.clients[b.connection].pendingEvents + 1
  {
    var o := Lookup(w.clients, b.connection, b.objectId).value.(held := Available);
    var e := Event(b.connection, b.objectId, BufferRelease);
    WithObjectLookup(w.clients, b, o, k.connection, k.objectId);
    WithObjectLookup(w.clients, b, o, b.connection, b.objectId);
    AppendedView(Released(w, b), e);
    var v := Appended(Released(w, b), e);
    assert Lookup(v.clients, k.connection, k.objectId) == Lookup(Released(w, b).clients, k.connection, k.objectId);
    assert Lookup(v.clients, b.connection, b.objectId) == Lookup(Released(w, b).clients, b.connection, b.objectId);
  }
}
