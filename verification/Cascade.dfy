/** What pushing events may do beyond the events themselves: connections close, and everything
    they owned goes with them. Nothing else changes, whatever order they close in. */
module Cascade {
  import opened Basics
  import opened Geometry
  import opened Model
  import opened World

  // ----- what closing removes -----

  /** Neither of a connection that is gone nor among the objects that fall. */
  predicate Stays(k: ObjectKey, gone: set<ConnectionId>, falls: set<ObjectKey>) {
    k.connection !in gone && k !in falls
  }

  function KeepKeys(s: seq<SurfaceKey>, gone: set<ConnectionId>, falls: set<ObjectKey>): seq<SurfaceKey> {
    if s == [] then []
    else
      var before := KeepKeys(s[..|s| - 1], gone, falls);
      if Stays(s[|s| - 1], gone, falls) then before + [s[|s| - 1]] else before
  }

  function KeepPositions(m: map<SurfaceKey, Point>, gone: set<ConnectionId>, falls: set<ObjectKey>): map<SurfaceKey, Point> {
    map k | k in m && Stays(k, gone, falls) :: m[k]
  }

  function KeepWindows(m: map<nat, ObjectKey>, gone: set<ConnectionId>, falls: set<ObjectKey>): map<nat, ObjectKey> {
    map h | h in m && Stays(m[h], gone, falls) :: m[h]
  }

  function KeepShortcuts(m: map<Chord, Claim>, gone: set<ConnectionId>): map<Chord, Claim> {
    map chord | chord in m && m[chord].holder !in gone :: m[chord]
  }

  function KeepFields(m: map<ObjectKey, TextField>, gone: set<ConnectionId>): map<ObjectKey, TextField> {
    map f | f in m && f.connection !in gone :: m[f]
  }

  function KeepKey(k: Option<SurfaceKey>, gone: set<ConnectionId>, falls: set<ObjectKey>): Option<SurfaceKey> {
    if k.Some? && !Stays(k.value, gone, falls) then None else k
  }

  lemma {:induction false} KeptKeys(s: seq<SurfaceKey>, gone: set<ConnectionId>, falls: set<ObjectKey>)
    ensures forall k :: k in KeepKeys(s, gone, falls) <==> k in s && Stays(k, gone, falls)
    ensures NoDuplicates(s) ==> NoDuplicates(KeepKeys(s, gone, falls))
  {
    if s != [] {
      var init, last := s[..|s| - 1], s[|s| - 1];
      KeptKeys(init, gone, falls);
      assert s == init + [last];
      if NoDuplicates(s) {
        assert last !in init;
        assert NoDuplicates(init);
      }
    }
  }

  lemma {:induction false} KeepKeysTwice(s: seq<SurfaceKey>, a: set<ConnectionId>, f: set<ObjectKey>,
                                         b: set<ConnectionId>, g: set<ObjectKey>)
    ensures KeepKeys(KeepKeys(s, a, f), b, g) == KeepKeys(s, a + b, f + g)
  {
    if s != [] {
      var init, last := s[..|s| - 1], s[|s| - 1];
      KeepKeysTwice(init, a, f, b, g);
      if Stays(last, a, f) {
        var kept := KeepKeys(init, a, f) + [last];
        assert kept[..|kept| - 1] == KeepKeys(init, a, f);
      }
    }
  }

  /** Keeping depends only on which of the keys there are stay. */
  lemma {:induction false} KeepKeysAlike(s: seq<SurfaceKey>, a: set<ConnectionId>, f: set<ObjectKey>,
                                         b: set<ConnectionId>, g: set<ObjectKey>)
    requires forall k | k in s :: Stays(k, a, f) <==> Stays(k, b, g)
    ensures KeepKeys(s, a, f) == KeepKeys(s, b, g)
  {
    if s != [] {
      KeepKeysAlike(s[..|s| - 1], a, f, b, g);
    }
  }

  lemma {:induction false} KeepAllKeys(s: seq<SurfaceKey>)
    ensures KeepKeys(s, {}, {}) == s
  {
    if s != [] {
      KeepAllKeys(s[..|s| - 1]);
    }
  }

  lemma KeepMapsTwice(p: map<SurfaceKey, Point>, t: map<nat, ObjectKey>, a: set<ConnectionId>, f: set<ObjectKey>,
                      b: set<ConnectionId>, g: set<ObjectKey>)
    ensures KeepPositions(KeepPositions(p, a, f), b, g) == KeepPositions(p, a + b, f + g)
    ensures KeepWindows(KeepWindows(t, a, f), b, g) == KeepWindows(t, a + b, f + g)
  {
  }

  lemma KeepNamesTwice(s: map<Chord, Claim>, f: map<ObjectKey, TextField>, a: set<ConnectionId>, b: set<ConnectionId>)
    ensures KeepShortcuts(KeepShortcuts(s, a), b) == KeepShortcuts(s, a + b)
    ensures KeepFields(KeepFields(f, a), b) == KeepFields(f, a + b)
  {
  }

  // ----- the relation -----

  /** The remaining connections are as they were, except for how many events wait for them. */
  ghost predicate SameClients(cs: Clients, ds: Clients) {
    && ds.Keys <= cs.Keys
    && (forall c | c in ds :: ds[c] == cs[c].(pendingEvents := ds[c].pendingEvents))
  }

  predicate Lifecycle(k: EventKind) {
    k.ObjectDestroyed? || k.IdRetired?
  }

  /** The history grew by events that say nothing about identifiers. */
  ghost predicate NoticesAdded(log: seq<Entry>, more: seq<Entry>, bound: nat) {
    && log <= more
    && (forall i | |log| <= i < |more| ::
          more[i].Queued? && !Lifecycle(more[i].event.kind) && more[i].event.connection < bound)
  }

  ghost predicate Shrunk(w: World, v: World) {
    var gone := w.clients.Keys - v.clients.Keys;
    && SameClients(w.clients, v.clients)
    && v.limit == w.limit && v.nextConnection == w.nextConnection && v.nextCommit == w.nextCommit
    && v.nextHandle == w.nextHandle && v.drained == w.drained
    && v.limits == w.limits && v.globals == w.globals && v.nextGlobal == w.nextGlobal
    && v.positions == KeepPositions(w.positions, gone, {}) && v.stack == KeepKeys(w.stack, gone, {})
    && v.toplevels == KeepWindows(w.toplevels, gone, {}) && v.shortcuts == KeepShortcuts(w.shortcuts, gone)
    && v.fields == KeepFields(w.fields, gone) && v.inputMethod == KeepKey(w.inputMethod, gone, {})
    && v.keyboardFocus == KeepKey(w.keyboardFocus, gone, {}) && v.pointerTarget == KeepKey(w.pointerTarget, gone, {})
    && NoticesAdded(w.log, v.log, w.nextConnection)
  }

  lemma SameLookup(cs: Clients, ds: Clients, c: ConnectionId, id: ObjectId)
    requires SameClients(cs, ds)
    ensures Lookup(ds, c, id) == if c in ds then Lookup(cs, c, id) else None
  {
  }

  lemma ShrunkScene(w: World, v: World, x: Dying)
    requires SceneSound(w, x) && Shrunk(w, v)
    ensures SceneSound(v, x)
  {
    var gone := w.clients.Keys - v.clients.Keys;
    KeptKeys(w.stack, gone, {});
    forall k ensures SurfaceOf(v.clients, k) == if k.connection in v.clients then SurfaceOf(w.clients, k) else None {
      SameLookup(w.clients, v.clients, k.connection, k.objectId);
    }
    forall k | HasContent(v.clients, k) && x != Some(k) ensures k in v.stack {
      assert HasContent(w.clients, k);
    }
    forall k | k in v.stack ensures k.connection in v.clients && k in w.stack {
      assert SurfaceOf(w.clients, k).Some?;
    }
  }

  lemma ShrunkBuffers(w: World, v: World)
    requires BuffersSound(w) && Shrunk(w, v)
    ensures BuffersSound(v)
  {
    forall c, id ensures Lookup(v.clients, c, id) == if c in v.clients then Lookup(w.clients, c, id) else None {
      SameLookup(w.clients, v.clients, c, id);
    }
    forall c, id | LiveBuffer(v.clients, c, id)
      ensures BufferSound(v, c, id, Lookup(v.clients, c, id).value.held)
    {
      assert BufferSound(w, c, id, Lookup(w.clients, c, id).value.held);
    }
    forall k | SurfaceOf(v.clients, k).Some?
      ensures SurfaceNamesLive(v, k.connection, SurfaceOf(v.clients, k).value)
    {
      assert SurfaceNamesLive(w, k.connection, SurfaceOf(w.clients, k).value);
    }
  }

  lemma ShrunkWindows(w: World, v: World, x: Dying)
    requires WindowsSound(w, x) && Shrunk(w, v)
    ensures WindowsSound(v, x)
  {
    forall k: ObjectKey
      ensures IsToplevel(v.clients, k) <==> k.connection in v.clients && IsToplevel(w.clients, k)
      ensures IsToplevel(v.clients, k) ==> HandleOf(v.clients, k) == HandleOf(w.clients, k)
                                           && WindowSurface(v.clients, k) == WindowSurface(w.clients, k)
    {
      SameLookup(w.clients, v.clients, k.connection, k.objectId);
    }
  }

  lemma ShrunkNames(w: World, v: World)
    requires NamesSound(w) && Shrunk(w, v)
    ensures NamesSound(v)
  {
  }

  lemma {:induction false} NoticesKeepIds(log: seq<Entry>, more: seq<Entry>, bound: nat, c: ConnectionId, id: ObjectId)
    requires NoticesAdded(log, more, bound)
    ensures IdHistory(more, c, id) == IdHistory(log, c, id)
    decreases |more|
  {
    if more != log {
      assert more[..|more| - 1] == log + more[|log|..|more| - 1];
      NoticesKeepIds(log, more[..|more| - 1], bound, c, id);
    }
  }

  lemma NoticesKeepOrder(log: seq<Entry>, more: seq<Entry>, bound: nat)
    requires NoticesAdded(log, more, bound) && ReuseOrdered(log)
    ensures ReuseOrdered(more)
  {
    forall i | 0 <= i < |more| && more[i].Created?
      ensures IdHistory(more[..i], more[i].connection, more[i].id) == Unused
    {
      assert i < |log| && more[i] == log[i] && more[..i] == log[..i];
    }
  }

  lemma ShrunkIds(w: World, v: World, x: Dying)
    requires IdsSound(w, x) && Shrunk(w, v)
    ensures IdsSound(v, x)
  {
    NoticesKeepOrder(w.log, v.log, w.nextConnection);
    forall c, id | c in v.clients && (x != Some(SurfaceKey(c, id)) || id in v.clients[c].registry.live)
      ensures IdHistory(v.log, c, id) == if id in v.clients[c].registry.used then Taken else Unused
    {
      NoticesKeepIds(w.log, v.log, w.nextConnection, c, id);
    }
    forall i | 0 <= i < |v.log| ensures EntryConnection(v.log[i]) < v.nextConnection {
      if i < |w.log| {
        assert v.log[i] == w.log[i];
      }
    }
  }

  /** A cascade keeps everything that holds between steps, given that it kept the queue sound. */
  lemma ShrunkHolds(w: World, v: World, x: Dying)
    requires Holds(w, x) && Shrunk(w, v) && QueueSound(v)
    ensures Holds(v, x)
  {
    Unlock();
    ShrunkScene(w, v, x);
    ShrunkBuffers(w, v);
    ShrunkWindows(w, v, x);
    ShrunkNames(w, v);
    ShrunkIds(w, v, x);
  }

  lemma ShrunkRefl(w: World)
    ensures Shrunk(w, w)
  {
    assert w.clients.Keys - w.clients.Keys == {};
    KeepAllKeys(w.stack);
  }

  lemma NoticesTrans(a: seq<Entry>, b: seq<Entry>, c: seq<Entry>, bound: nat)
    requires NoticesAdded(a, b, bound) && NoticesAdded(b, c, bound)
    ensures NoticesAdded(a, c, bound)
  {
    forall i | |a| <= i < |c|
      ensures c[i].Queued? && !Lifecycle(c[i].event.kind) && c[i].event.connection < bound
    {
      if i < |b| {
        assert c[i] == b[i];
      }
    }
  }

  lemma SameClientsTrans(a: Clients, b: Clients, c: Clients)
    requires SameClients(a, b) && SameClients(b, c)
    ensures SameClients(a, c)
    ensures a.Keys - c.Keys == (a.Keys - b.Keys) + (b.Keys - c.Keys)
  {
  }

  lemma ShrunkTrans(u: World, v: World, w: World)
    requires Shrunk(u, v) && Shrunk(v, w)
    ensures Shrunk(u, w)
  {
    var first, second := u.clients.Keys - v.clients.Keys, v.clients.Keys - w.clients.Keys;
    SameClientsTrans(u.clients, v.clients, w.clients);
    var none: set<ObjectKey> := {};
    assert none + none == none;
    KeepKeysTwice(u.stack, first, none, second, none);
    KeepMapsTwice(u.positions, u.toplevels, first, none, second, none);
    KeepNamesTwice(u.shortcuts, u.fields, first, second);
    NoticesTrans(u.log, v.log, w.log, u.nextConnection);
  }

  // ----- one event -----

  /** The queue is sound, and every connection is one that was issued and can be torn down. */
  ghost predicate Ready(w: World) {
    forall key: Key | Opened(key) ::
      && QueueSound(w)
      && (forall c | c in w.clients ::
            c < w.nextConnection && forall id | id in w.clients[c].registry.live :: id in w.clients[c].registry.order)
  }

  lemma ReadyFacts(w: World)
    requires Ready(w)
    ensures QueueSound(w)
    ensures forall c | c in w.clients ::
              c < w.nextConnection && forall id | id in w.clients[c].registry.live :: id in w.clients[c].registry.order
  {
    Unlock();
  }

  lemma HoldsReady(w: World, x: Dying)
    requires Holds(w, x)
    ensures Ready(w)
  {
    Unlock();
  }

  /** The state with one event more for a live connection. */
  function Appended(w: World, e: Event): World
    requires e.connection in w.clients
  {
    var client := w.clients[e.connection];
    w.(clients := w.clients[e.connection := client.(pendingEvents := client.pendingEvents + 1)],
       events := w.events + [e], log := w.log + [Queued(e)])
  }

  /** The state with one connection, and everything it owned, gone. */
  function Closed(w: World, c: ConnectionId): World {
    w.(clients := w.clients - {c},
       positions := KeepPositions(w.positions, {c}, {}), stack := KeepKeys(w.stack, {c}, {}),
       toplevels := KeepWindows(w.toplevels, {c}, {}), shortcuts := KeepShortcuts(w.shortcuts, {c}),
       fields := KeepFields(w.fields, {c}), inputMethod := KeepKey(w.inputMethod, {c}, {}),
       keyboardFocus := KeepKey(w.keyboardFocus, {c}, {}), pointerTarget := KeepKey(w.pointerTarget, {c}, {}))
  }

  lemma EventsForOne(es: seq<Event>, e: Event, c: ConnectionId)
    ensures EventsFor(es + [e], c) == if e.connection == c then EventsFor(es, c) + [e] else EventsFor(es, c)
  {
    assert (es + [e])[..|es|] == es;
  }

  lemma PushedOne(log: seq<Entry>, e: Event)
    ensures Pushed(log + [Queued(e)]) == Pushed(log) + [e]
  {
    assert (log + [Queued(e)])[..|log|] == log;
  }

  /** Queueing an event adds it to what its connection was pushed and to what waits for it. */
  lemma QueueKept(w: World, e: Event)
    requires forall c :: EventsFor(Pushed(w.log), c) == EventsFor(w.drained, c) + EventsFor(w.events, c)
    ensures forall c :: EventsFor(Pushed(w.log + [Queued(e)]), c)
                        == EventsFor(w.drained, c) + EventsFor(w.events + [e], c)
  {
    PushedOne(w.log, e);
    forall c
      ensures EventsFor(Pushed(w.log + [Queued(e)]), c) == EventsFor(w.drained, c) + EventsFor(w.events + [e], c)
    {
      EventsForOne(Pushed(w.log), e, c);
      EventsForOne(w.events, e, c);
    }
  }

  lemma AppendedReady(w: World, e: Event)
    requires Ready(w) && e.connection in w.clients && w.clients[e.connection].pendingEvents < w.limit
    ensures Ready(Appended(w, e))
  {
    ReadyFacts(w);
    var v := Appended(w, e);
    QueueKept(w, e);
    forall c ensures |EventsFor(v.events, c)| == |EventsFor(w.events, c)| + if c == e.connection then 1 else 0 {
      EventsForOne(w.events, e, c);
    }
  }

  lemma AppendedShrunk(w: World, e: Event)
    requires e.connection in w.clients && !Lifecycle(e.kind) && e.connection < w.nextConnection
    ensures Shrunk(w, Appended(w, e))
  {
    ShrunkRefl(w);
    assert Appended(w, e).clients.Keys == w.clients.Keys;
  }

  lemma ClosedReady(w: World, c: ConnectionId)
    requires Ready(w) && c in w.clients
    ensures Ready(Closed(w, c))
  {
    ReadyFacts(w);
  }

  lemma ClosedShrunk(w: World, c: ConnectionId)
    requires c in w.clients
    ensures Shrunk(w, Closed(w, c))
  {
    assert w.clients.Keys - Closed(w, c).clients.Keys == {c};
  }

  /** The last event of a connection that stopped reading: the error, past the bound, and then
      the close. */
  function Overflowed(w: World, c: ConnectionId): World
    requires c in w.clients
  {
    var e := Event(c, DISPLAY_ID, QueueOverflow(w.clients[c].pendingEvents));
    w.(events := w.events + [e], log := w.log + [Queued(e)])
  }

  lemma OverflowedClosed(w: World, c: ConnectionId)
    requires Ready(w) && c in w.clients
    ensures Ready(Closed(Overflowed(w, c), c)) && Shrunk(w, Closed(Overflowed(w, c), c))
  {
    ReadyFacts(w);
    var e := Event(c, DISPLAY_ID, QueueOverflow(w.clients[c].pendingEvents));
    var v := Closed(Overflowed(w, c), c);
    QueueKept(w, e);
    forall d ensures |EventsFor(v.events, d)| == |EventsFor(w.events, d)| + if d == c then 1 else 0 {
      EventsForOne(w.events, e, d);
    }
    assert w.clients.Keys - v.clients.Keys == {c};
  }

  // ----- why connections go -----

  lemma {:induction false} EventsForGrow(es: seq<Event>, more: seq<Event>, c: ConnectionId)
    requires es <= more
    ensures |EventsFor(es, c)| <= |EventsFor(more, c)|
    decreases |more|
  {
    if es != more {
      EventsForGrow(es, more[..|more| - 1], c);
    }
  }

  /** A place in the history where a connection was told that its queue overflowed, with so many
      events as were then pushed and not drained, which is the limit or more. */
  ghost predicate OverranAt(w: World, v: World, c: ConnectionId, i: nat) {
    && |w.log| <= i < |v.log| && v.log[i].Queued?
    && v.log[i].event.connection == c && v.log[i].event.objectId == DISPLAY_ID && v.log[i].event.kind.QueueOverflow?
    && w.limit <= v.log[i].event.kind.queued
    && |EventsFor(w.drained, c)| + v.log[i].event.kind.queued <= |EventsFor(Pushed(v.log[..i]), c)|
       <= |EventsFor(v.drained, c)| + v.log[i].event.kind.queued
  }

  /** Between two states a connection's queue was found full. */
  ghost predicate Overran(w: World, v: World, c: ConnectionId) {
    exists i :: OverranAt(w, v, c, i)
  }

  /** Whoever went meanwhile, other than these, had a full queue. */
  ghost predicate OnlyFull(w: World, v: World, closing: set<ConnectionId>) {
    forall c | c in w.clients && c !in v.clients && c !in closing :: Overran(w, v, c)
  }

  lemma OverranKept(u: World, v: World, w: World, c: ConnectionId)
    requires Overran(u, v, c) && v.log <= w.log && v.drained <= w.drained
    ensures Overran(u, w, c)
  {
    var i: nat :| OverranAt(u, v, c, i);
    assert w.log[..i] == v.log[..i] && w.log[i] == v.log[i];
    EventsForGrow(v.drained, w.drained, c);
    assert OverranAt(u, w, c, i);
  }

  lemma OverranSince(u: World, v: World, w: World, c: ConnectionId)
    requires Overran(v, w, c) && u.log <= v.log && u.drained <= v.drained && u.limit == v.limit
    ensures Overran(u, w, c)
  {
    var i: nat :| OverranAt(v, w, c, i);
    EventsForGrow(u.drained, v.drained, c);
    assert OverranAt(u, w, c, i);
  }

  lemma OnlyFullTrans(u: World, v: World, w: World, first: set<ConnectionId>, second: set<ConnectionId>)
    requires OnlyFull(u, v, first) && OnlyFull(v, w, second)
    requires u.log <= v.log <= w.log && u.drained <= v.drained <= w.drained && u.limit == v.limit
    ensures OnlyFull(u, w, first + second)
  {
    forall c | c in u.clients && c !in w.clients && c !in first + second ensures Overran(u, w, c) {
      if c in v.clients {
        OverranSince(u, v, w, c);
      } else {
        OverranKept(u, v, w, c);
      }
    }
  }

  /** The error that precedes a close is queued exactly when the queue is full. */
  lemma OverflowOverran(w: World, c: ConnectionId, v: World)
    requires Ready(w) && c in w.clients && w.limit <= w.clients[c].pendingEvents
    requires Overflowed(w, c).log <= v.log && w.drained <= v.drained
    requires |EventsFor(v.drained, c)| == |EventsFor(w.drained, c)|
    ensures Overran(w, v, c)
  {
    ReadyFacts(w);
    var i := |w.log|;
    assert v.log[..i] == w.log && v.log[i] == Overflowed(w, c).log[i];
    assert OverranAt(w, v, c, i);
  }

  lemma FewerClients(cs: Clients, ds: Clients)
    requires ds.Keys <= cs.Keys
    ensures |ds| <= |cs|
  {
    FewerElements(cs.Keys, ds.Keys);
  }

  lemma OneFewer(cs: Clients, c: ConnectionId)
    requires c in cs
    ensures |cs - {c}| < |cs|
  {
    assert cs.Keys == (cs - {c}).Keys + {c};
  }

  // ----- who was told -----

  predicate IsShell(cs: Clients, k: ObjectKey) {
    Lookup(cs, k.connection, k.objectId) == Some(Plain(ShellControlKind))
  }

  ghost predicate QueuedSince(log: seq<Entry>, more: seq<Entry>, e: Event) {
    exists i :: |log| <= i < |more| && more[i] == Queued(e)
  }

  /** Between two states an event was queued, or its connection is gone. Folded in the same way as
      `Holds`. */
  ghost predicate Told(w: World, v: World, e: Event) {
    forall key: Key | Opened(key) :: e.connection in v.clients ==> QueuedSince(w.log, v.log, e)
  }

  lemma ToldNow(w: World, e: Event)
    requires e.connection in w.clients
    ensures Told(w, Appended(w, e), e)
  {
    assert Appended(w, e).log[|w.log|] == Queued(e);
  }

  lemma ToldGone(w: World, v: World, e: Event)
    requires e.connection !in v.clients
    ensures Told(w, v, e)
  {
  }

  lemma ToldKept(u: World, v: World, w: World, e: Event)
    requires Told(u, v, e) && v.log <= w.log && w.clients.Keys <= v.clients.Keys
    ensures Told(u, w, e)
  {
    Unlock();
    if e.connection in w.clients {
      var i :| |u.log| <= i < |v.log| && v.log[i] == Queued(e);
      assert w.log[i] == Queued(e);
    }
  }

  lemma ToldSince(u: World, v: World, w: World, e: Event)
    requires Told(v, w, e) && u.log <= v.log
    ensures Told(u, w, e)
  {
    Unlock();
  }

  function GoneNotice(k: ObjectKey, h: nat): Event {
    Event(k.connection, k.objectId, ShellToplevelGone(h))
  }

  /** Every shell that is left was told of every window that went. Folded in the same way. */
  ghost predicate ShellsKnow(w: World, v: World) {
    forall key: Key | Opened(key) ::
      forall h, k | h in w.toplevels && h !in v.toplevels && IsShell(v.clients, k) :: Told(w, v, GoneNotice(k, h))
  }

  /** What a cascade does: connections whose queues are full close, and the shells that are left know
      of their windows. What is being composed into may change meanwhile. Folded, but for what every step of one needs to see. */
  ghost predicate Cascaded(w: World, v: World) {
    && v.clients.Keys <= w.clients.Keys && w.log <= v.log
    && (v.inputMethod.Some? ==> v.inputMethod == w.inputMethod)
    && (w.inputMethod.Some? && (w.inputMethod.value.connection in v.clients || w.inputMethod.value.connection !in w.clients) ==>
          v.inputMethod == w.inputMethod)
    && (forall key: Key | Opened(key) :: Shrunk(w, v) && ShellsKnow(w, v) && OnlyFull(w, v, {}))
  }

  lemma CascadedIff(w: World, v: World)
    ensures Cascaded(w, v) <==> Shrunk(w, v) && ShellsKnow(w, v) && OnlyFull(w, v, {})
  {
    Unlock();
  }

  lemma SameWindowsKnown(w: World, v: World)
    requires v.toplevels == w.toplevels
    ensures ShellsKnow(w, v)
  {
  }

  lemma AppendedCascaded(w: World, e: Event)
    requires Ready(w) && e.connection in w.clients && !Lifecycle(e.kind)
    ensures Cascaded(w, Appended(w, e)) && Told(w, Appended(w, e), e)
  {
    ReadyFacts(w);
    AppendedShrunk(w, e);
    ToldNow(w, e);
  }

  /** The overflow error and the close that follows are one cascade. */
  lemma OverflowCascaded(w: World, c: ConnectionId, v: World)
    requires Ready(w) && c in w.clients && w.limit <= w.clients[c].pendingEvents
    requires Cascaded(Closed(Overflowed(w, c), c), v) && ShellsKnow(Overflowed(w, c), v)
    ensures Cascaded(w, v)
  {
    var closed := Closed(Overflowed(w, c), c);
    OverflowedClosed(w, c);
    CascadedIff(closed, v);
    ShrunkTrans(w, closed, v);
    KnownSince(w, Overflowed(w, c), v);
    OverflowOverran(w, c, v);
    forall d | d in w.clients && d !in v.clients ensures Overran(w, v, d) {
      if d != c {
        OverranSince(w, closed, v, d);
      }
    }
    CascadedIff(w, v);
  }

  /** What queueing one event comes to: nothing for a connection that is gone, the event for one that
      reads, and the close, with whatever follows, of one whose queue is full. */
  ghost predicate Sent(w: World, e: Event, v: World) {
    && Cascaded(w, v)
    && (if e.connection !in w.clients then v == w
        else if w.clients[e.connection].pendingEvents < w.limit then v == Appended(w, e)
        else e.connection !in v.clients)
  }

  lemma SentTold(w: World, e: Event, v: World)
    requires Sent(w, e, v)
    ensures Told(w, v, e)
  {
    if e.connection in v.clients {
      ToldNow(w, e);
    } else {
      ToldGone(w, v, e);
    }
  }

  /** What is being composed into is nothing a cascade keeps. */
  lemma ComposingCascaded(w: World, v: World)
    requires v == w.(composing := v.composing, composition := v.composition)
    ensures Cascaded(w, v)
    ensures Ready(w) ==> Ready(v)
  {
    Unlock();
    ShrunkRefl(w);
    SameWindowsKnown(w, v);
    CascadedIff(w, v);
  }

  lemma CascadedRefl(w: World)
    ensures Cascaded(w, w)
  {
    ShrunkRefl(w);
  }

  lemma CascadedTrans(u: World, v: World, w: World)
    requires Cascaded(u, v) && Cascaded(v, w)
    ensures Cascaded(u, w)
  {
    CascadedIff(u, v);
    CascadedIff(v, w);
    ShrunkTrans(u, v, w);
    forall k | IsShell(w.clients, k) ensures IsShell(v.clients, k) {
      SameLookup(v.clients, w.clients, k.connection, k.objectId);
    }
    KnownTrans(u, v, w);
    var none: set<ConnectionId> := {};
    OnlyFullTrans(u, v, w, none, none);
    assert none + none == {};
    CascadedIff(u, w);
  }

  lemma KnownTrans(u: World, v: World, w: World)
    requires ShellsKnow(u, v) && ShellsKnow(v, w) && u.log <= v.log <= w.log && w.clients.Keys <= v.clients.Keys
    requires forall k | IsShell(w.clients, k) :: IsShell(v.clients, k)
    ensures ShellsKnow(u, w)
  {
    assert ShellsKnow(u, w) by {
      Unlock();
      forall h, k | h in u.toplevels && h !in w.toplevels && IsShell(w.clients, k)
        ensures Told(u, w, GoneNotice(k, h))
      {
        if h in v.toplevels {
          ToldSince(u, v, w, GoneNotice(k, h));
        } else {
          ToldKept(u, v, w, GoneNotice(k, h));
        }
      }
    }
  }

  /** A connection closed, its own windows announced: the shells that are left know of every window
      that went, whoever else closed meanwhile. */
  lemma CloseKnown(w: World, c: ConnectionId, v: World)
    requires c in w.clients && Cascaded(Closed(w, c), v) && RetiredTold(Closed(w, c), v, WindowsOf(w, c))
    ensures ShellsKnow(w, v)
  {
    Unlock();
    forall h, k | h in w.toplevels && h !in v.toplevels && IsShell(v.clients, k)
      ensures Told(w, v, GoneNotice(k, h))
    {
      assert h in WindowsOf(w, c) || h in Closed(w, c).toplevels;
      ToldSince(w, Closed(w, c), v, GoneNotice(k, h));
    }
  }

  lemma KnownSince(u: World, v: World, w: World)
    requires ShellsKnow(v, w) && u.toplevels == v.toplevels && u.log <= v.log
    ensures ShellsKnow(u, w)
  {
    Unlock();
    forall h, k | h in u.toplevels && h !in w.toplevels && IsShell(w.clients, k)
      ensures Told(u, w, GoneNotice(k, h))
    {
      ToldSince(u, v, w, GoneNotice(k, h));
    }
  }

  // ----- everyone told -----

  function Shells(cs: Clients): (ks: set<ObjectKey>)
    ensures forall k :: k in ks <==> IsShell(cs, k)
  {
    var ks := set c, id | c in cs && id in cs[c].registry.live && cs[c].registry.live[id] == Plain(ShellControlKind)
                :: SurfaceKey(c, id);
    assert forall k | IsShell(cs, k) :: k == SurfaceKey(k.connection, k.objectId) && k in ks;
    ks
  }

  predicate IsRegistry(cs: Clients, k: ObjectKey) {
    Lookup(cs, k.connection, k.objectId) == Some(Plain(Kind.Registry))
  }

  function Registries(cs: Clients): (ks: set<ObjectKey>)
    ensures forall k :: k in ks <==> IsRegistry(cs, k)
  {
    var ks := set c, id | c in cs && id in cs[c].registry.live && cs[c].registry.live[id] == Plain(Kind.Registry)
                :: SurfaceKey(c, id);
    assert forall k | IsRegistry(cs, k) :: k == SurfaceKey(k.connection, k.objectId) && k in ks;
    ks
  }

  /** The keyboard objects of one connection. */
  function Keyboards(cs: Clients, c: ConnectionId): (ks: set<ObjectKey>)
    ensures forall k: ObjectKey :: k in ks <==> k.connection == c && Lookup(cs, k.connection, k.objectId) == Some(Plain(Keyboard))
  {
    var ks := if c in cs then set id | id in cs[c].registry.live && cs[c].registry.live[id] == Plain(Keyboard)
                                  :: SurfaceKey(c, id) else {};
    assert forall k: ObjectKey | k.connection == c && Lookup(cs, c, k.objectId) == Some(Plain(Keyboard)) ::
        k == SurfaceKey(c, k.objectId) && k in ks;
    ks
  }

  function Notice(k: ObjectKey, kind: EventKind): Event {
    Event(k.connection, k.objectId, kind)
  }

  /** Each of these objects was told. Folded in the same way. */
  ghost predicate AllTold(w: World, v: World, ks: set<ObjectKey>, kind: EventKind) {
    forall key: Key | Opened(key) :: forall k | k in ks :: Told(w, v, Notice(k, kind))
  }

  lemma NobodyTold(w: World, kind: EventKind)
    ensures AllTold(w, w, {}, kind)
  {
  }

  /** One more of them, after what a cascade did meanwhile. */
  lemma AllToldNext(u: World, v: World, w: World, done: set<ObjectKey>, k: ObjectKey, kind: EventKind)
    requires Cascaded(u, v) && Cascaded(v, w) && AllTold(u, v, done, kind) && Told(v, w, Notice(k, kind))
    ensures AllTold(u, w, done + {k}, kind)
  {
    Unlock();
    forall l | l in done + {k} ensures Told(u, w, Notice(l, kind)) {
      if l == k {
        ToldSince(u, v, w, Notice(l, kind));
      } else {
        ToldKept(u, v, w, Notice(l, kind));
      }
    }
  }

  lemma AllToldKept(u: World, v: World, w: World, ks: set<ObjectKey>, kind: EventKind)
    requires AllTold(u, v, ks, kind) && v.log <= w.log && w.clients.Keys <= v.clients.Keys
    ensures AllTold(u, w, ks, kind)
  {
    Unlock();
    forall k | k in ks ensures Told(u, w, Notice(k, kind)) {
      ToldKept(u, v, w, Notice(k, kind));
    }
  }

  lemma AllToldSince(u: World, v: World, w: World, ks: set<ObjectKey>, kind: EventKind)
    requires AllTold(v, w, ks, kind) && u.log <= v.log
    ensures AllTold(u, w, ks, kind)
  {
    Unlock();
    forall k | k in ks ensures Told(u, w, Notice(k, kind)) {
      ToldSince(u, v, w, Notice(k, kind));
    }
  }

  /** Every shell that is left was told of these windows. Folded in the same way. */
  ghost predicate RetiredTold(w: World, v: World, retired: set<nat>) {
    forall key: Key | Opened(key) ::
      forall h, k | h in retired && IsShell(v.clients, k) :: Told(w, v, GoneNotice(k, h))
  }

  lemma RetiredNext(u: World, v: World, w: World, done: set<nat>, h: nat)
    requires Cascaded(u, v) && Cascaded(v, w) && RetiredTold(u, v, done)
    requires AllTold(v, w, Shells(v.clients), ShellToplevelGone(h))
    ensures RetiredTold(u, w, done + {h})
  {
    Unlock();
    forall g, k | g in done + {h} && IsShell(w.clients, k) ensures Told(u, w, GoneNotice(k, g)) {
      SameLookup(v.clients, w.clients, k.connection, k.objectId);
      if g == h {
        assert Told(v, w, Notice(k, ShellToplevelGone(h)));
        ToldSince(u, v, w, GoneNotice(k, g));
      } else {
        ToldKept(u, v, w, GoneNotice(k, g));
      }
    }
  }

  lemma RetiredSince(u: World, v: World, w: World, retired: set<nat>)
    requires RetiredTold(v, w, retired) && u.log <= v.log
    ensures RetiredTold(u, w, retired)
  {
    Unlock();
    forall h, k | h in retired && IsShell(w.clients, k) ensures Told(u, w, GoneNotice(k, h)) {
      ToldSince(u, v, w, GoneNotice(k, h));
    }
  }

  /** The windows of one connection. */
  function WindowsOf(w: World, c: ConnectionId): set<nat> {
    set h | h in w.toplevels && w.toplevels[h].connection == c
  }
}
