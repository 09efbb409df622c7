/** A run from the start that ends in a scene fault, though everything asked in it is granted. */
module Trace {
  import opened Basics
  import opened Geometry
  import opened Model
  import opened World
  import opened Cascade
  import opened Steps
  import opened Lifetimes
  import opened Destruction
  import opened Fates
  import opened Transitions
  import opened Requests
  import opened Effects
  import opened Compositor

  const LIMITS := Limits(64, 1024, 256, 64, 64)

  /** A surface, a buffer for it, and the buffer shown. */
  const REQUESTS: seq<Request> := [CreateSurface(3), ImportBuffer(4, SoftwareShm, true), Attach(3, 4, Point(0, 0), None), Commit(3)]

  /** A request is accepted and does its one change and nothing else. Folded in the same way as
      `Holds`. */
  ghost predicate Obeyed(w: World, c: ConnectionId, r: Request, v: World) {
    forall key: Key | Opened(key) :: c in w.clients && Refusal(w, c, r).None? && Accepted(w, c, r) == Some(v)
  }

  /** A connection with these objects, nothing queued and nothing committed yet. */
  ghost predicate Young(w: World, c: ConnectionId, ids: set<ObjectId>) {
    && c in w.clients && w.limits == LIMITS && w.limit == 256 && w.nextCommit == 1
    && w.clients[c].pendingEvents == 0 && {SurfaceCreate, BufferImport, SoftwareShm} <= w.clients[c].capabilities
    && w.clients[c].registry.live.Keys == ids && w.clients[c].registry.used == ids
  }

  lemma BornYoung(w: World, k: ObjectKey, o: Object, ids: set<ObjectId>)
    requires Young(w, k.connection, ids)
    ensures Young(Born(w, k, o), k.connection, ids + {k.objectId})
  {
  }

  /** Identifiers from two on that are not taken can be allocated, and no quota is reached. */
  lemma Roomy(w: World, c: ConnectionId, ids: set<ObjectId>, id: ObjectId, kind: Kind)
    requires Young(w, c, ids) && |ids| < 64 && id !in ids && 2 <= id
    ensures AllocationRefused(w, c, id).None? && CheckQuota(w, c, kind).None?
  {
    var live := w.clients[c].registry.live;
    assert |live| == |live.Keys|;
    FewerElements(live.Keys, Counted(live, kind));
    assert KindLimit(LIMITS, kind) >= 64;
  }

  lemma SurfaceAllowed(w: World, c: ConnectionId)
    requires Young(w, c, {DISPLAY_ID, 2}) && w.clients[c].session == Some(2)
    requires Lookup(w.clients, c, 2) == Some(SessionObject(None, true))
    requires AllocationRefused(w, c, 3).None? && CheckQuota(w, c, Surface).None?
    ensures SurfaceRefused(w, c, 3).None?
  {
  }

  lemma SurfaceObeyed(w: World, c: ConnectionId)
    requires Young(w, c, {DISPLAY_ID, 2}) && w.clients[c].session == Some(2)
    requires Lookup(w.clients, c, 2) == Some(SessionObject(None, true))
    ensures Refusal(w, c, REQUESTS[0]).None? && Accepted(w, c, REQUESTS[0]).Some?
    ensures var v := Accepted(w, c, REQUESTS[0]).value;
            && Young(v, c, {DISPLAY_ID, 2, 3})
            && SurfaceOf(v.clients, SurfaceKey(c, 3)) == Some(SurfaceState(2, Unchanged, None, None, false))
  {
    Roomy(w, c, {DISPLAY_ID, 2}, 3, Surface);
    BornYoung(w, SurfaceKey(c, 3), SurfaceObject(SurfaceState(2, Unchanged, None, None, false)), {DISPLAY_ID, 2});
    assert {DISPLAY_ID, 2} + {3} == {DISPLAY_ID, 2, 3};
    SurfaceAllowed(w, c);
  }

  lemma BufferObeyed(w: World, c: ConnectionId)
    requires Young(w, c, {DISPLAY_ID, 2, 3})
    requires SurfaceOf(w.clients, SurfaceKey(c, 3)) == Some(SurfaceState(2, Unchanged, None, None, false))
    ensures Refusal(w, c, REQUESTS[1]).None? && Accepted(w, c, REQUESTS[1]).Some?
    ensures var v := Accepted(w, c, REQUESTS[1]).value;
            && Young(v, c, {DISPLAY_ID, 2, 3, 4})
            && SurfaceOf(v.clients, SurfaceKey(c, 3)) == Some(SurfaceState(2, Unchanged, None, None, false))
            && Lookup(v.clients, c, 4) == Some(BufferObject(SoftwareShm, Available))
  {
    Roomy(w, c, {DISPLAY_ID, 2, 3}, 4, Buffer);
    BornYoung(w, SurfaceKey(c, 4), BufferObject(SoftwareShm, Available), {DISPLAY_ID, 2, 3});
    assert {DISPLAY_ID, 2, 3} + {4} == {DISPLAY_ID, 2, 3, 4};
    assert ImportRefused(w, c, 4, SoftwareShm, true).None?;
  }

  lemma AttachObeyed(w: World, c: ConnectionId)
    requires Young(w, c, {DISPLAY_ID, 2, 3, 4})
    requires SurfaceOf(w.clients, SurfaceKey(c, 3)) == Some(SurfaceState(2, Unchanged, None, None, false))
    requires Lookup(w.clients, c, 4) == Some(BufferObject(SoftwareShm, Available))
    ensures Refusal(w, c, REQUESTS[2]).None? && Accepted(w, c, REQUESTS[2]).Some?
    ensures var v := Accepted(w, c, REQUESTS[2]).value;
            && c in v.clients && v.clients[c].pendingEvents == 0 && v.nextCommit == 1 && v.limit == 256
            && SurfaceOf(v.clients, SurfaceKey(c, 3)) == Some(SurfaceState(2, Set(4, Point(0, 0)), None, None, false))
            && LiveBuffer(v.clients, c, 4)
  {
    var k := SurfaceKey(c, 3);
    var s := SurfaceState(2, Set(4, Point(0, 0)), None, None, false);
    var o := BufferObject(SoftwareShm, Pending(k));
    var mid := WithObject(w.clients, k, SurfaceObject(s));
    assert AttachRefused(w, c, 3, 4, None).None?;
    WithObjectLookup(w.clients, k, SurfaceObject(s), c, 3);
    WithObjectLookup(mid, SurfaceKey(c, 4), o, c, 3);
    WithObjectLookup(mid, SurfaceKey(c, 4), o, c, 4);
    assert Accepted(w, c, REQUESTS[2]) == Some(Attached(w, k, 4, Point(0, 0), None));
  }

  lemma CommitShows(w: World, k: SurfaceKey, b: ObjectId)
    requires SurfaceOf(w.clients, k).Some? && LiveBuffer(w.clients, k.connection, b) && k.objectId != b
    ensures var v := Committed(w, k, b, Point(0, 0));
            && ShowsBuffer(v.clients, k, SurfaceKey(k.connection, b)) && LiveBuffer(v.clients, k.connection, b)
            && Lookup(v.clients, k.connection, b).value.held.CompositorHeld?
            && v.clients[k.connection].pendingEvents == w.clients[k.connection].pendingEvents && v.limit == w.limit
  {
    CommittedLookup(w.clients, k, b, Point(0, 0), w.nextCommit, k.connection, k.objectId);
    CommittedLookup(w.clients, k, b, Point(0, 0), w.nextCommit, k.connection, b);
  }

  lemma CommitObeyed(w: World, c: ConnectionId)
    requires c in w.clients && w.clients[c].pendingEvents == 0 && w.nextCommit == 1 && w.limit == 256
    requires SurfaceOf(w.clients, SurfaceKey(c, 3)) == Some(SurfaceState(2, Set(4, Point(0, 0)), None, None, false))
    requires LiveBuffer(w.clients, c, 4)
    ensures Refusal(w, c, REQUESTS[3]).None? && Accepted(w, c, REQUESTS[3]).Some?
    ensures var v := Accepted(w, c, REQUESTS[3]).value;
            && ShowsBuffer(v.clients, SurfaceKey(c, 3), SurfaceKey(c, 4)) && LiveBuffer(v.clients, c, 4)
            && Lookup(v.clients, c, 4).value.held.CompositorHeld? && v.limit == 256
            && v.clients[c].pendingEvents == 0
  {
    CommitShows(w, SurfaceKey(c, 3), 4);
    assert Accepted(w, c, REQUESTS[3]) == Some(Committed(w, SurfaceKey(c, 3), 4, Point(0, 0)));
  }

  /** A connection and its session, which the platform gives it. */
  method Begin() returns (s: State, c: ConnectionId, ghost connected: World)
    ensures fresh(s) && Holds(s.w, None)
    ensures connected == Connected(Empty(256, LIMITS), DEFAULT_GRANTS + {SoftwareShm}, DEFAULT_GRANTS + {SoftwareShm})
    ensures c in connected.clients
    ensures s.w == WithGrants(Born(connected, SurfaceKey(c, 2), SessionObject(None, true)), c,
                              connected.clients[c].capabilities, Some(2))
    ensures Young(s.w, c, {DISPLAY_ID, 2}) && s.w.clients[c].session == Some(2)
    ensures Lookup(s.w.clients, c, 2) == Some(SessionObject(None, true))
  {
    s := new State(LIMITS, 256, {SoftwareShm});
    var r := s.Connect({SoftwareShm}, {});
    c := r.value;
    connected := s.w;
    assert ({SoftwareShm} + DEFAULT_GRANTS) * {SoftwareShm} + DEFAULT_GRANTS == DEFAULT_GRANTS + {SoftwareShm};
    assert (DEFAULT_GRANTS + {SoftwareShm}) * (DEFAULT_GRANTS + BACKEND_FACTS) == DEFAULT_GRANTS + {SoftwareShm};
    assert Young(s.w, c, {DISPLAY_ID});
    Roomy(s.w, c, {DISPLAY_ID}, 2, Session);
    BornYoung(s.w, SurfaceKey(c, 2), SessionObject(None, true), {DISPLAY_ID});
    assert {DISPLAY_ID} + {2} == {DISPLAY_ID, 2};
    var e := s.CreateSession(SurfaceKey(c, 2), None, true);
  }

  /** A request dispatched and accepted. */
  method Obey(s: State, c: ConnectionId, r: Request)
    requires Holds(s.w, None) && c in s.w.clients && Quiet(r) && Refusal(s.w, c, r).None? && Accepted(s.w, c, r).Some?
    modifies s`w
    ensures Holds(s.w, None) && s.w == Accepted(old(s.w), c, r).value && Obeyed(old(s.w), c, r, s.w)
  {
    var e := s.Dispatch(c, r);
  }

  /** The four requests, each accepted. */
  method Show(s: State, c: ConnectionId) returns (ghost worlds: seq<World>)
    requires Holds(s.w, None) && Young(s.w, c, {DISPLAY_ID, 2}) && s.w.clients[c].session == Some(2)
    requires Lookup(s.w.clients, c, 2) == Some(SessionObject(None, true))
    modifies s`w
    ensures |worlds| == 5 && worlds[0] == old(s.w) && worlds[4] == s.w && Holds(s.w, None)
    ensures forall i | 0 <= i < 4 :: Obeyed(worlds[i], c, REQUESTS[i], worlds[i + 1])
    ensures ShowsBuffer(s.w.clients, SurfaceKey(c, 3), SurfaceKey(c, 4)) && LiveBuffer(s.w.clients, c, 4)
    ensures Lookup(s.w.clients, c, 4).value.held.CompositorHeld?
    ensures s.w.clients[c].pendingEvents == 0 && s.w.limit == 256
  {
    ghost var start := s.w;
    SurfaceObeyed(s.w, c);
    Obey(s, c, REQUESTS[0]);
    ghost var created := s.w;
    BufferObeyed(s.w, c);
    Obey(s, c, REQUESTS[1]);
    ghost var imported := s.w;
    AttachObeyed(s.w, c);
    Obey(s, c, REQUESTS[2]);
    ghost var attached := s.w;
    CommitObeyed(s.w, c);
    Obey(s, c, REQUESTS[3]);
    worlds := [start, created, imported, attached, s.w];
  }

  /** The compositor gives the shown buffer back, and then its client destroys it. */
  method Hide(s: State, k: SurfaceKey, b: ObjectId) returns (ghost idle: World)
    requires Holds(s.w, None) && b != DISPLAY_ID && LiveBuffer(s.w.clients, k.connection, b)
    requires Lookup(s.w.clients, k.connection, b).value.held.CompositorHeld?
    requires ShowsBuffer(s.w.clients, k, SurfaceKey(k.connection, b))
    requires s.w.clients[k.connection].pendingEvents + 3 <= s.w.limit
    modifies s`w
    ensures Holds(s.w, None) && k in s.w.stack && !HasContent(s.w.clients, k)
    ensures idle == Appended(Released(old(s.w), SurfaceKey(k.connection, b)), Event(k.connection, b, BufferRelease))
    ensures Refusal(idle, k.connection, Destroy(b)).None? && DestroyedBy(idle, SurfaceKey(k.connection, b), s.w)
  {
    ReleasedStillShown(s.w, k, SurfaceKey(k.connection, b));
    var released := s.ReleaseBuffer(SurfaceKey(k.connection, b));
    idle := s.w;
    var destroyed := s.DestroyShown(k, b);
  }

  /** Create, import, attach, commit; then the compositor gives the shown buffer back and its client
      destroys it. Every request is accepted, and the surface is still stacked with nothing to show. */
  method LosesContent() returns (s: State, k: SurfaceKey, ghost connected: World, ghost shown: seq<World>, ghost idle: World)
    ensures fresh(s) && Holds(s.w, None) && k in s.w.stack && !HasContent(s.w.clients, k)
    ensures connected == Connected(Empty(256, LIMITS), DEFAULT_GRANTS + {SoftwareShm}, DEFAULT_GRANTS + {SoftwareShm})
    ensures k.connection in connected.clients && |shown| == 5
    ensures shown[0] == WithGrants(Born(connected, SurfaceKey(k.connection, 2), SessionObject(None, true)), k.connection,
                                   connected.clients[k.connection].capabilities, Some(2))
    ensures forall i | 0 <= i < 4 :: Obeyed(shown[i], k.connection, REQUESTS[i], shown[i + 1])
    ensures LiveBuffer(shown[4].clients, k.connection, 4)
    ensures idle == Appended(Released(shown[4], SurfaceKey(k.connection, 4)), Event(k.connection, 4, BufferRelease))
    ensures Refusal(idle, k.connection, Destroy(4)).None? && DestroyedBy(idle, SurfaceKey(k.connection, 4), s.w)
  {
    var c;
    s, c, connected := Begin();
    k := SurfaceKey(c, 3);
    shown := Show(s, c);
    idle := Hide(s, k, 4);
  }

  // ----- a place taken by nobody -----

  /** Room for the display and for nothing else. */
  const CRAMPED := Limits(64, 1, 1, 1, 1)

  /** With nothing focused and nothing composed, a bind refused for want of room leaves the place for an
      input method taken, and does nothing else but say so. */
  lemma CrampedBind(w: World, c: ConnectionId, r: Request, v: World)
    requires AskDid(w, c, r, v) && TakesMethod(w, c, r) && AllocationRefused(w, c, r.id) == Some(QuotaExceeded(r.id))
    requires c in w.clients && w.clients[c].pendingEvents < w.limit && w.composing.None? && w.keyboardFocus.None?
    ensures v == Appended(WithMethod(w, SurfaceKey(c, r.id)), ErrorNotice(c, QuotaExceeded(r.id)))
  {
    var left := RefusedLeft(w, c, r, v);
    NothingComposed(WithMethod(w, SurfaceKey(c, r.id)), left);
    var told := ReportTold(left, c, QuotaExceeded(r.id), v);
  }

  lemma NothingComposed(w: World, v: World)
    requires Recomposed(w, v) && w.composing.None? && w.keyboardFocus.None?
    ensures v == w
  {
    Unlock();
    var wanted :| Wants(w, wanted) && Composed(w, wanted, v);
  }

  /** A client that may bind the input method on offer, and has room for no object. */
  ghost predicate Cramped(w: World, c: ConnectionId, name: nat) {
    && TakesMethod(w, c, Bind(name, 1, 2)) && AllocationRefused(w, c, 2) == Some(QuotaExceeded(2))
    && c in w.clients && w.clients[c].pendingEvents < w.limit && w.composing.None? && w.keyboardFocus.None?
    && Lookup(w.clients, c, 2).None?
  }

  lemma OfferedCramped(w: World, c: ConnectionId)
    requires c in w.clients && w.clients[c].registry.live == map[DISPLAY_ID := Plain(Display)] && w.limits == CRAMPED
    requires InputMethodControl in w.clients[c].capabilities && w.clients[c].pendingEvents < w.limit
    requires w.composing.None? && w.keyboardFocus.None? && w.inputMethod.None?
    ensures Cramped(Offered(w, InputMethod, 1), c, w.nextGlobal)
  {
  }

  method Cramp() returns (s: State, c: ConnectionId, name: nat)
    ensures fresh(s) && Holds(s.w, None) && Cramped(s.w, c, name)
  {
    s := new State(CRAMPED, 256, {InputMethodControl});
    var r := s.Connect({InputMethodControl}, {});
    c := r.value;
    var granted := s.Grant(c, InputMethodControl);
    OfferedCramped(s.w, c);
    var offered := s.Advertise(InputMethod, 1);
    name := offered.value;
  }

  /** The only input method there will ever be, while its connection lasts, is an object that does not exist:
      the place is taken, nothing was bound, and every later bind is refused. */
  method PlaceTakenByNobody() returns (s: State, c: ConnectionId, e: Option<StateError>)
    ensures fresh(s) && Holds(s.w, None) && c in s.w.clients
    ensures e == Some(QuotaExceeded(2)) && Lookup(s.w.clients, c, 2).None?
    ensures s.w.inputMethod == Some(SurfaceKey(c, 2))
    ensures forall d, name, version, id | d in s.w.clients && name in s.w.globals && s.w.globals[name].kind.InputMethod? ::
              BindRefused(s.w, d, name, version, id).Some?
  {
    var name;
    s, c, name := Cramp();
    ghost var before := s.w;
    e := s.Dispatch(c, Bind(name, 1, 2));
    CrampedBind(before, c, Bind(name, 1, 2), s.w);
  }

  // ----- a refused destruction that destroys -----

  /** Asked to destroy the display, the compositor refuses and destroys it. */
  method DestroyDisplay(s: State, c: ConnectionId) returns (e: Option<StateError>)
    requires Holds(s.w, None) && Lookup(s.w.clients, c, DISPLAY_ID) == Some(Plain(Display))
    requires s.w.clients[c].pendingEvents + 3 <= s.w.limit
    modifies s`w
    ensures Holds(s.w, None) && c in s.w.clients
    ensures e == Some(InvalidState(DISPLAY_ID)) && Lookup(s.w.clients, c, DISPLAY_ID).None?
  {
    ghost var before := s.w;
    assert Refusal(s.w, c, Destroy(DISPLAY_ID)) == Some(InvalidState(DISPLAY_ID));
    assert Lone(s.w.clients, SurfaceKey(c, DISPLAY_ID));
    e := s.Dispatch(c, Destroy(DISPLAY_ID));
    assert e.Some? && CategoryOf(e.value) == ObjectError && ErrorObject(e.value) == DISPLAY_ID;
    AloneGone(before, SurfaceKey(c, DISPLAY_ID), s.w);
  }

  /** From the start: the connection stays, without its display object. */
  method RefusedDestroys() returns (s: State, c: ConnectionId, e: Option<StateError>)
    ensures fresh(s) && Holds(s.w, None) && c in s.w.clients
    ensures e == Some(InvalidState(DISPLAY_ID)) && Lookup(s.w.clients, c, DISPLAY_ID).None?
  {
    ghost var connected;
    s, c, connected := Begin();
    e := DestroyDisplay(s, c);
  }

  lemma AloneGone(w: World, k: ObjectKey, v: World)
    requires DestroyedBy(w, k, v) && Lone(w.clients, k)
    ensures Lookup(v.clients, k.connection, k.objectId).None?
  {
    ReducedOut(w, v, FateOf(w.clients, k), k);
  }
}
