/** What requests and steps come to: who is told of what, in which order, and what becomes of the state.
    Each effect is stated on the states before and after, exact but for the connections whose queues
    are found full on the way. */
module Effects {
  import opened Basics
  import opened Geometry
  import opened Model
  import opened World
  import opened Cascade
  import opened Steps
  import opened Lifetimes
  import opened Destruction
  import opened Fates
  import opened Transitions
  import opened Requests

  // ----- windows, as shells see them -----

  datatype WindowRecord = WindowRecord(handle: nat, key: ObjectKey)

  /** `handle_of_surface`: the lowest handle from `h` on of a window over a surface, or zero. */
  function WindowFrom(w: World, k: SurfaceKey, h: nat): nat
    decreases w.nextHandle - h
  {
    if h >= w.nextHandle then 0
    else if h in w.toplevels && IsToplevel(w.clients, w.toplevels[h]) && w.toplevels[h].connection == k.connection
            && WindowSurface(w.clients, w.toplevels[h]) == k.objectId then h
    else WindowFrom(w, k, h + 1)
  }

  function WindowOf(w: World, k: SurfaceKey): nat {
    WindowFrom(w, k, 0)
  }

  predicate IsOver(w: World, h: nat, k: SurfaceKey) {
    h in w.toplevels && IsToplevel(w.clients, w.toplevels[h]) && w.toplevels[h].connection == k.connection
    && WindowSurface(w.clients, w.toplevels[h]) == k.objectId
  }

  lemma {:induction false} WindowFromFinds(w: World, k: SurfaceKey, h: nat)
    requires forall g | g in w.toplevels :: 1 <= g < w.nextHandle
    ensures WindowFrom(w, k, h) == 0 ==> forall g | g >= h :: !IsOver(w, g, k)
    ensures WindowFrom(w, k, h) != 0 ==> IsOver(w, WindowFrom(w, k, h), k)
    decreases w.nextHandle - h
  {
    if h < w.nextHandle && !IsOver(w, h, k) {
      WindowFromFinds(w, k, h + 1);
      forall g | g >= h && WindowFrom(w, k, h) == 0 ensures !IsOver(w, g, k) {
        assert g == h || g >= h + 1;
      }
    }
  }

  /** The handle found for a surface is the window over it, and there is at most one. */
  lemma WindowOfIsTheWindow(w: World, k: SurfaceKey, l: ObjectKey)
    requires Holds(w, None)
    ensures IsToplevel(w.clients, l) && l.connection == k.connection && WindowSurface(w.clients, l) == k.objectId
            <==> WindowOf(w, k) != 0 && WindowOf(w, k) in w.toplevels && w.toplevels[WindowOf(w, k)] == l
  {
    Unlock();
    WindowFromFinds(w, k, 0);
    if IsToplevel(w.clients, l) && l.connection == k.connection && WindowSurface(w.clients, l) == k.objectId {
      assert IsOver(w, HandleOf(w.clients, l), k);
    }
  }

  function WindowsBelow(windows: map<nat, ObjectKey>, bound: nat): seq<WindowRecord> {
    if bound == 0 then []
    else WindowsBelow(windows, bound - 1)
         + if bound - 1 in windows then [WindowRecord(bound - 1, windows[bound - 1])] else []
  }

  function WindowNotices(records: seq<WindowRecord>, k: ObjectKey): seq<Entry> {
    if records == [] then []
    else WindowNotices(records[..|records| - 1], k)
         + [Queued(Event(k.connection, k.objectId, ShellToplevel(records[|records| - 1].handle)))]
  }

  function FocusedWindow(w: World): nat {
    if w.keyboardFocus.Some? then WindowOf(w, w.keyboardFocus.value) else 0
  }

  /** The world as it stands, as a shell is told it. */
  function SnapshotLog(w: World, k: ObjectKey): seq<Entry> {
    WindowNotices(WindowsBelow(w.toplevels, w.nextHandle), k)
    + [Queued(Event(k.connection, k.objectId, ShellFocusChanged(FocusedWindow(w)))),
       Queued(Event(k.connection, k.objectId, ShellSnapshotDone))]
  }

  ghost predicate SameLookups(cs: Clients, ds: Clients) {
    forall c, id :: Lookup(ds, c, id) == Lookup(cs, c, id)
  }

  /** Part of a snapshot: these windows told, and nothing else of interest changed. Folded in the
      same way as `Holds`. */
  ghost predicate Listed(w: World, v: World, k: ObjectKey, records: seq<WindowRecord>) {
    forall key: Key | Opened(key) ::
      && v == w.(clients := v.clients, events := v.events, log := v.log) && SameLookups(w.clients, v.clients)
      && v.log == w.log + WindowNotices(records, k)
  }

  lemma ListedNext(w: World, v: World, k: ObjectKey, records: seq<WindowRecord>, next: WindowRecord)
    requires Listed(w, v, k, records) && k.connection in v.clients
    ensures Listed(w, Appended(v, Notice(k, ShellToplevel(next.handle))), k, records + [next])
  {
    Unlock();
    assert (records + [next])[..|records|] == records;
  }

  lemma ListedFocus(w: World, v: World, k: ObjectKey, records: seq<WindowRecord>)
    requires Listed(w, v, k, records)
    ensures v.log == w.log + WindowNotices(records, k) && FocusedWindow(v) == FocusedWindow(w)
  {
    Unlock();
    if w.keyboardFocus.Some? {
      SameWindowOf(w, v, w.keyboardFocus.value);
    }
  }

  lemma SameWindowOf(w: World, v: World, k: SurfaceKey)
    requires v.toplevels == w.toplevels && v.nextHandle == w.nextHandle && SameLookups(w.clients, v.clients)
    ensures WindowOf(v, k) == WindowOf(w, k)
  {
    SameWindowFrom(w, v, k, 0);
  }

  lemma {:induction false} SameWindowFrom(w: World, v: World, k: SurfaceKey, h: nat)
    requires v.toplevels == w.toplevels && v.nextHandle == w.nextHandle && SameLookups(w.clients, v.clients)
    ensures WindowFrom(v, k, h) == WindowFrom(w, k, h)
    decreases w.nextHandle - h
  {
    if h < w.nextHandle {
      SameWindowFrom(w, v, k, h + 1);
    }
  }

  /** The entries of an ordered map, in order. */
  method ListWindows(windows: map<nat, ObjectKey>, bound: nat) returns (records: seq<WindowRecord>)
    requires forall h | h in windows :: h < bound
    ensures forall i, j | 0 <= i < j < |records| :: records[i].handle < records[j].handle
    ensures forall r :: r in records <==> r.handle in windows && windows[r.handle] == r.key
    ensures records == WindowsBelow(windows, bound)
  {
    records := [];
    var h := 0;
    while h < bound
      invariant 0 <= h <= bound
      invariant records == WindowsBelow(windows, h)
      invariant forall i, j | 0 <= i < j < |records| :: records[i].handle < records[j].handle
      invariant forall r :: r in records <==> r.handle in windows && r.handle < h && windows[r.handle] == r.key
    {
      if h in windows {
        records := records + [WindowRecord(h, windows[h])];
      }
      h := h + 1;
    }
  }

  /** An event told to every shell there is. */
  ghost predicate ShellsTold(w: World, v: World, kind: EventKind) {
    Cascaded(w, v) && AllTold(w, v, Shells(w.clients), kind)
  }

  // ----- what is on offer -----

  /** A registry was told of these names. Folded in the same way as `Holds`. */
  ghost predicate GlobalsTold(w: World, v: World, k: ObjectKey, names: set<nat>) {
    forall key: Key | Opened(key) :: forall n | n in names :: Told(w, v, Notice(k, GlobalOffered(n)))
  }

  lemma GlobalsNext(u: World, v: World, w: World, k: ObjectKey, done: set<nat>, name: nat)
    requires Cascaded(u, v) && Cascaded(v, w) && GlobalsTold(u, v, k, done) && Told(v, w, Notice(k, GlobalOffered(name)))
    ensures GlobalsTold(u, w, k, done + {name})
  {
    Unlock();
    forall n | n in done + {name} ensures Told(u, w, Notice(k, GlobalOffered(n))) {
      if n == name {
        ToldSince(u, v, w, Notice(k, GlobalOffered(n)));
      } else {
        ToldKept(u, v, w, Notice(k, GlobalOffered(n)));
      }
    }
  }

  // ----- composing -----

  /** The first field of a connection that wants text. */
  ghost predicate IsFirstField(w: World, c: ConnectionId, f: ObjectKey) {
    f in w.fields && f.connection == c && forall g | g in w.fields && g.connection == c :: f.objectId <= g.objectId
  }

  /** What text should go to: the first field of the focused connection, if it may be composed into. */
  ghost predicate Wants(w: World, wanted: Option<TextField>) {
    forall key: Key | Opened(key) ::
      if wanted.Some? then
        && w.keyboardFocus.Some? && wanted.value.composes
        && exists f :: IsFirstField(w, w.keyboardFocus.value.connection, f) && w.fields[f] == wanted.value
      else
        w.keyboardFocus.Some? ==> forall f | IsFirstField(w, w.keyboardFocus.value.connection, f) :: !w.fields[f].composes
  }

  lemma OneFirstField(w: World, c: ConnectionId)
    ensures forall f, g | IsFirstField(w, c, f) && IsFirstField(w, c, g) :: f == g
  {
    forall f, g | IsFirstField(w, c, f) && IsFirstField(w, c, g) ensures f == g {
      assert f.objectId == g.objectId;
    }
  }

  /** A field was told its proposal is gone and that it is left. */
  ghost predicate Withdrawn(w: World, v: World, field: TextField) {
    && Told(w, v, Event(field.connection, field.input, TextPreedit))
    && Told(w, v, Event(field.connection, field.input, TextLeave))
  }

  function MethodStopped(composer: ObjectKey): Event {
    Event(composer.connection, composer.objectId, MethodDeactivated)
  }

  /** Both sides of a composition were told that it ended. */
  ghost predicate Left(w: World, v: World, field: TextField) {
    Withdrawn(w, v, field) && (v.inputMethod.Some? ==> Told(w, v, MethodStopped(v.inputMethod.value)))
  }

  /** Both sides were told that one started. */
  ghost predicate Entered(w: World, v: World, field: TextField, composer: ObjectKey) {
    && Told(w, v, Event(field.connection, field.input, TextEnter))
    && Told(w, v, Event(composer.connection, composer.objectId, MethodActivated))
  }

  lemma WithdrawnKept(u: World, v: World, w: World, field: TextField)
    requires Withdrawn(u, v, field) && Cascaded(v, w)
    ensures Withdrawn(u, w, field)
  {
    ToldKept(u, v, w, Event(field.connection, field.input, TextPreedit));
    ToldKept(u, v, w, Event(field.connection, field.input, TextLeave));
  }

  lemma LeftKept(u: World, v: World, w: World, field: TextField)
    requires Left(u, v, field) && Cascaded(v, w)
    ensures Left(u, w, field)
  {
    WithdrawnKept(u, v, w, field);
    if w.inputMethod.Some? {
      ToldKept(u, v, w, MethodStopped(v.inputMethod.value));
    }
  }

  lemma EnteredSince(u: World, v: World, w: World, field: TextField, composer: ObjectKey)
    requires Entered(v, w, field, composer) && u.log <= v.log
    ensures Entered(u, w, field, composer)
  {
    ToldSince(u, v, w, Event(field.connection, field.input, TextEnter));
    ToldSince(u, v, w, Event(composer.connection, composer.objectId, MethodActivated));
  }

  /** Whether the field being composed into is already the one wanted. */
  predicate SameField(was: Option<TextField>, now: Option<TextField>) {
    if was.Some? && now.Some? then was.value.connection == now.value.connection && was.value.input == now.value.input
    else was.None? && now.None?
  }

  lemma LeftSince(u: World, v: World, w: World, field: TextField)
    requires Left(v, w, field) && u.log <= v.log
    ensures Left(u, w, field)
  {
    ToldSince(u, v, w, Event(field.connection, field.input, TextPreedit));
    ToldSince(u, v, w, Event(field.connection, field.input, TextLeave));
    if w.inputMethod.Some? {
      ToldSince(u, v, w, MethodStopped(w.inputMethod.value));
    }
  }

  /** One side told, and then the other. */
  lemma EnteredInTurn(u: World, entered: World, w: World, field: TextField, composer: ObjectKey)
    requires Told(u, entered, Event(field.connection, field.input, TextEnter)) && Cascaded(entered, w)
    requires Told(entered, w, Event(composer.connection, composer.objectId, MethodActivated)) && u.log <= entered.log
    ensures Entered(u, w, field, composer)
  {
    ToldKept(u, entered, w, Event(field.connection, field.input, TextEnter));
    ToldSince(u, entered, w, Event(composer.connection, composer.objectId, MethodActivated));
  }

  /** A change of what is composed into: the field left and the method are told that it ended, the field
      entered and the method that it started, unless there is no method left. */
  ghost predicate Composed(w: World, wanted: Option<TextField>, v: World) {
    if SameField(w.composing, wanted) then v == w
    else
      && (w.composing.Some? ==> Left(w, v, w.composing.value))
      && (wanted.Some? && v.inputMethod.Some? ==> Entered(w, v, wanted.value, v.inputMethod.value))
      && (v.clients.Keys == w.clients.Keys ==>
            && v.composing == (if v.inputMethod.Some? then wanted else None)
            && v.composition == w.composition + if wanted.Some? && v.inputMethod.Some? then 1 else 0)
  }

  /** The composition was made to follow the focus. Folded in the same way as `Holds`. */
  ghost predicate Recomposed(w: World, v: World) {
    && Cascaded(w, v)
    && (forall key: Key | Opened(key) :: exists wanted :: Wants(w, wanted) && Composed(w, wanted, v))
  }

  lemma RecomposedBy(w: World, wanted: Option<TextField>, v: World)
    requires Cascaded(w, v) && Wants(w, wanted) && Composed(w, wanted, v)
    ensures Recomposed(w, v)
  {
  }

  // ----- a connection goes -----

  /** The state without a composition, if it was into a field of this connection. */
  function Deserted(w: World, c: ConnectionId): World {
    if w.composing.Some? && w.composing.value.connection == c then w.(composing := None) else w
  }

  /** The state with the composition given up, as it is when its method goes. */
  function Abandoned(w: World): World {
    w.(composing := None, composition := w.composition + 1)
  }

  /** A field told that its proposal is gone, and then that it is left. */
  ghost predicate LeaveSent(w: World, field: TextField, v: World) {
    forall key: Key | Opened(key) ::
      exists cleared :: Sent(w, Event(field.connection, field.input, TextPreedit), cleared)
                        && Sent(cleared, Event(field.connection, field.input, TextLeave), v)
  }

  /** Who is told of a close: the field a dead input method was composing into, whatever is composed
      into from now on, and every shell for every window that went. */
  ghost predicate CloseTold(w: World, c: ConnectionId, ownedMethod: bool, retired: set<nat>, v: World) {
    forall key: Key | Opened(key) :: exists left, composed :: CloseTellings(w, c, ownedMethod, retired, left, composed, v)
  }

  ghost predicate CloseTellings(w: World, c: ConnectionId, ownedMethod: bool, retired: set<nat>, left: World,
                                composed: World, v: World) {
    && (if ownedMethod && w.composing.Some? then LeaveSent(Abandoned(w), w.composing.value, left) else left == w)
    && Recomposed(Deserted(left, c), composed)
    && Cascaded(composed, v) && RetiredTold(composed, v, retired)
  }

  lemma CloseToldBy(w: World, c: ConnectionId, ownedMethod: bool, retired: set<nat>, left: World, composed: World, v: World)
    requires CloseTellings(w, c, ownedMethod, retired, left, composed, v)
    ensures CloseTold(w, c, ownedMethod, retired, v)
  {
  }

  /** A connection was closed, and everyone who is left told. */
  ghost predicate ClosedFrom(w: World, c: ConnectionId, v: World) {
    && c in w.clients && c !in v.clients && Cascaded(Closed(w, c), v) && ShellsKnow(w, v)
    && CloseTold(Closed(w, c), c, OwnsMethod(w, c), WindowsOf(w, c), v)
  }

  predicate OwnsMethod(w: World, c: ConnectionId) {
    w.inputMethod.Some? && w.inputMethod.value.connection == c
  }

  // ----- focus -----

  /** What a focus change returns, in order. */
  datatype FocusEvent = Leave(surface: SurfaceKey) | Enter(surface: SurfaceKey)

  /** Whether a focus is on a surface of a session. */
  predicate FocusedIn(w: World, focus: Option<SurfaceKey>, session: ObjectKey) {
    && focus.Some? && focus.value.connection == session.connection && SurfaceOf(w.clients, focus.value).Some?
    && SurfaceOf(w.clients, focus.value).value.session == session.objectId
  }

  /** What a stacked surface shows covers a point, given the sizes of buffers. Coordinates past the
      32-bit range cover nothing. */
  predicate Under(w: World, sizes: ObjectKey -> Size, k: SurfaceKey, p: Point) {
    k in w.positions && HasContent(w.clients, k) &&
    var current := SurfaceOf(w.clients, k).value.current.value;
    var size := sizes(SurfaceKey(k.connection, current.buffer));
    var x, y := w.positions[k].x + current.offset.x, w.positions[k].y + current.offset.y;
    && LiveBuffer(w.clients, k.connection, current.buffer)
    && -0x8000_0000 <= x < 0x8000_0000 && -0x8000_0000 <= y < 0x8000_0000
    && x <= p.x < x + size.width && y <= p.y < y + size.height
  }

  /** The topmost stacked surface whose content covers a point, if there is one. */
  ghost predicate TopmostUnder(w: World, sizes: ObjectKey -> Size, p: Point, target: Option<SurfaceKey>) {
    if target.Some? then
      exists i :: 0 <= i < |w.stack| && target == Some(w.stack[i]) && Under(w, sizes, w.stack[i], p)
                  && forall j | i < j < |w.stack| :: !Under(w, sizes, w.stack[j], p)
    else forall k | k in w.stack :: !Under(w, sizes, k, p)
  }

  lemma IssuedBefore(w: World, h: nat)
    requires Holds(w, None)
    ensures h in w.clients ==> h < w.nextConnection
    ensures h in w.toplevels ==> h < w.nextHandle
    ensures h in w.globals ==> h < w.nextGlobal
  {
    Unlock();
  }

  /** A surface that could be focused is live after a cascade, unless its connection went. */
  lemma FocusableStays(w: World, v: World, k: SurfaceKey)
    requires Holds(w, None) && Focusable(w, k).None? && Cascaded(w, v)
    ensures k.connection < v.nextConnection && FocusLive(v.clients, k)
  {
    IssuedBefore(w, k.connection);
    CascadedRegistries(w, v);
    CascadedLookups(w, v);
  }

  /** One side of a focus change: the surface told, and then every keyboard its connection has. Folded
      in the same way as `Holds`. */
  ghost predicate FocusTold(w: World, k: SurfaceKey, surfaceEvent: EventKind, keyboardEvent: EventKind, v: World) {
    forall key: Key | Opened(key) ::
      exists told :: Sent(w, Notice(k, surfaceEvent), told) && Cascaded(told, v)
                     && AllTold(told, v, Keyboards(told.clients, k.connection), keyboardEvent)
  }

  lemma FocusToldBy(w: World, k: SurfaceKey, surfaceEvent: EventKind, keyboardEvent: EventKind, told: World, v: World)
    requires Sent(w, Notice(k, surfaceEvent), told) && Cascaded(told, v)
    requires AllTold(told, v, Keyboards(told.clients, k.connection), keyboardEvent)
    ensures FocusTold(w, k, surfaceEvent, keyboardEvent, v) && Cascaded(w, v) && Told(w, v, Notice(k, surfaceEvent))
  {
    CascadedTrans(w, told, v);
    SentTold(w, Notice(k, surfaceEvent), told);
    ToldKept(w, told, v, Notice(k, surfaceEvent));
  }

  function Focused(w: World, now: Option<SurfaceKey>): World {
    w.(keyboardFocus := now)
  }

  /** The focus moved: the surface left is told and then the one entered, the focus is set, the
      composition follows it, and every shell is told which window holds it. */
  ghost predicate FocusMoves(w: World, now: Option<SurfaceKey>, left: World, told: World, settled: World, v: World) {
    && (if w.keyboardFocus.Some? then FocusTold(w, w.keyboardFocus.value, KeyboardLeave, KeyFocusLost, left) else left == w)
    && (if now.Some? then FocusTold(left, now.value, KeyboardEnter, KeyFocusGained, told) else told == left)
    && Recomposed(Focused(told, now), settled)
    && ShellsTold(settled, v, ShellFocusChanged(if now.Some? then WindowOf(settled, now.value) else 0))
  }

  /** The same, folded. */
  ghost predicate Refocused(w: World, now: Option<SurfaceKey>, v: World) {
    forall key: Key | Opened(key) :: exists left, told, settled :: FocusMoves(w, now, left, told, settled, v)
  }

  lemma RefocusedBy(w: World, now: Option<SurfaceKey>, left: World, told: World, settled: World, v: World)
    requires FocusMoves(w, now, left, told, settled, v)
    ensures Refocused(w, now, v)
  {
  }

  // ----- content and presentation -----

  /** What an accepted commit of a null attachment does to a surface that shows something: the buffer goes
      back, its client is told, and then the surface leaves the scene. */
  ghost predicate DetachedFrom(w: World, k: SurfaceKey, v: World) {
    forall key: Key | Opened(key) ::
      && HasContent(w.clients, k)
      && var b := SurfaceKey(k.connection, SurfaceOf(w.clients, k).value.current.value.buffer);
         && LiveBuffer(w.clients, b.connection, b.objectId)
         && exists released :: Sent(Released(w, b), Notice(b, BufferRelease), released) && DetachedOr(released, k, v)
  }

  ghost predicate DetachedOr(released: World, k: SurfaceKey, v: World) {
    if SurfaceOf(released.clients, k).Some? then v == Detached(released, k) else v == released
  }

  lemma DetachedBy(w: World, k: SurfaceKey, released: World, v: World)
    requires HasContent(w.clients, k)
    requires var b := SurfaceKey(k.connection, SurfaceOf(w.clients, k).value.current.value.buffer);
             LiveBuffer(w.clients, b.connection, b.objectId) && Sent(Released(w, b), Notice(b, BufferRelease), released)
    requires DetachedOr(released, k, v)
    ensures DetachedFrom(w, k, v)
  {
  }

  /** What a commit that shows something makes of the world: the surface shows this buffer at this offset,
      as the next commit, waiting on the fence attached with it and owing the frame asked for, and nothing
      is pending any more; the buffer is held for it; a surface that was not stacked is stacked on top, at
      the origin unless it has a place; and nothing else is different. */
  ghost predicate Commits(w: World, k: SurfaceKey, b: ObjectId, offset: Point, v: World) {
    && SurfaceOf(w.clients, k).Some? && LiveBuffer(w.clients, k.connection, b)
    && var s := SurfaceOf(w.clients, k).value;
       && SurfaceOf(v.clients, k)
          == Some(SurfaceState(s.session, Unchanged, None,
                               Some(Current(b, offset, w.nextCommit, s.acquireFence, s.frameRequested)), false))
       && Lookup(v.clients, k.connection, b)
          == Some(BufferObject(Lookup(w.clients, k.connection, b).value.transport, CompositorHeld(k, w.nextCommit)))
       && (forall c, id | !(c == k.connection && id in {k.objectId, b}) :: Lookup(v.clients, c, id) == Lookup(w.clients, c, id))
       && v.stack == w.stack + (if k in w.stack then [] else [k])
       && (forall l | l in w.positions :: l in v.positions && v.positions[l] == w.positions[l])
       && (forall l | l in v.positions && l !in w.positions :: l == k && k !in w.stack && v.positions[l] == Point(0, 0))
       && (k !in w.stack ==> k in v.positions)
       && v.nextCommit == w.nextCommit + 1
       && v.clients.Keys == w.clients.Keys && (forall c | c in w.clients :: SameButObjects(w.clients[c], v.clients[c]))
       && v == w.(clients := v.clients, positions := v.positions, stack := v.stack, nextCommit := v.nextCommit)
  }

  /** A surface once a frame was asked for. */
  function Asked(w: World, k: SurfaceKey): World
    requires SurfaceOf(w.clients, k).Some?
  {
    Put(w, k, SurfaceObject(SurfaceOf(w.clients, k).value.(frameRequested := true)))
  }

  lemma AskedSurface(w: World, k: SurfaceKey)
    requires SurfaceOf(w.clients, k).Some?
    ensures SurfaceOf(Asked(w, k).clients, k) == Some(SurfaceOf(w.clients, k).value.(frameRequested := true))
    ensures Asked(w, k).log == w.log && Asked(w, k).nextCommit == w.nextCommit
    ensures SurfaceOf(w.clients, k).value.frameRequested ==> SurfaceOf(Asked(w, k).clients, k) == SurfaceOf(w.clients, k)
  {
    PutSurfaceLookups(w, k, SurfaceOf(w.clients, k).value.(frameRequested := true));
  }

  /** A commit takes the frame asked for with it. */
  lemma FrameCarried(w: World, k: SurfaceKey, b: ObjectId, offset: Point, v: World)
    requires Commits(w, k, b, offset, v) && SurfaceOf(w.clients, k).value.frameRequested
    ensures HasContent(v.clients, k) && v.log == w.log
    ensures var t := SurfaceOf(v.clients, k).value;
            !t.frameRequested && t.current.value.frameCallback && t.current.value.commit == w.nextCommit
  {
  }

  lemma CommittedObjects(cs: Clients, k: SurfaceKey, b: ObjectId, offset: Point, n: CommitId)
    requires SurfaceOf(cs, k).Some? && LiveBuffer(cs, k.connection, b)
    ensures var ds, s := CommittedClients(cs, k, b, offset, n), SurfaceOf(cs, k).value;
            && SurfaceOf(ds, k) == Some(SurfaceState(s.session, Unchanged, None,
                                                     Some(Current(b, offset, n, s.acquireFence, s.frameRequested)), false))
            && Lookup(ds, k.connection, b) == Some(BufferObject(Lookup(cs, k.connection, b).value.transport, CompositorHeld(k, n)))
            && (forall c, id | !(c == k.connection && id in {k.objectId, b}) :: Lookup(ds, c, id) == Lookup(cs, c, id))
            && ds.Keys == cs.Keys && (forall c | c in cs :: SameButObjects(cs[c], ds[c]))
  {
    forall c, id ensures Lookup(CommittedClients(cs, k, b, offset, n), c, id)
                         == if SurfaceKey(c, id) == k then Some(SurfaceObject(CommitState(SurfaceOf(cs, k).value, b, offset, n)))
                            else if SurfaceKey(c, id) == SurfaceKey(k.connection, b)
                            then Some(Lookup(cs, k.connection, b).value.(held := CompositorHeld(k, n)))
                            else Lookup(cs, c, id)
    {
      CommittedLookup(cs, k, b, offset, n, c, id);
    }
  }

  lemma CommittedCommits(w: World, k: SurfaceKey, b: ObjectId, offset: Point)
    requires SurfaceOf(w.clients, k).Some? && LiveBuffer(w.clients, k.connection, b)
    ensures Commits(w, k, b, offset, Committed(w, k, b, offset))
  {
    CommittedObjects(w.clients, k, b, offset, w.nextCommit);
  }

  /** Nothing was queued but that buffers of one connection were given back. */
  ghost predicate OnlyReleases(log: seq<Entry>, more: seq<Entry>, c: ConnectionId) {
    && log <= more
    && forall i | |log| <= i < |more| :: more[i].Queued? && more[i].event.connection == c && more[i].event.kind.BufferRelease?
  }

  /** How often a surface's client was told that a frame is done. */
  function FramesDone(log: seq<Entry>, k: SurfaceKey): nat {
    if log == [] then 0
    else FramesDone(log[..|log| - 1], k) + if log[|log| - 1] == Queued(Notice(k, FrameDone)) then 1 else 0
  }

  lemma FramesDoneOne(log: seq<Entry>, e: Entry, k: SurfaceKey)
    ensures FramesDone(log + [e], k) == FramesDone(log, k) + if e == Queued(Notice(k, FrameDone)) then 1 else 0
  {
    assert (log + [e])[..|log|] == log;
  }

  lemma {:induction false} ReleasesTellNoFrame(log: seq<Entry>, more: seq<Entry>, c: ConnectionId, k: SurfaceKey)
    requires OnlyReleases(log, more, c)
    ensures FramesDone(more, k) == FramesDone(log, k)
    decreases |more|
  {
    if |more| == |log| {
      assert more == log;
    } else {
      ReleasesTellNoFrame(log, more[..|more| - 1], c, k);
    }
  }

  /** Once a surface was presented its client, if it is left, was told once more that a frame is done if it
      had asked before the commit shown, and not again otherwise. */
  ghost predicate FrameTold(w: World, k: SurfaceKey, v: World)
    requires HasContent(w.clients, k)
  {
    k.connection in v.clients ==>
      FramesDone(v.log, k) == FramesDone(w.log, k) + if SurfaceOf(w.clients, k).value.current.value.frameCallback then 1 else 0
  }

  lemma PresentedTells(w: World, k: SurfaceKey, released: World, told: World, v: World)
    requires HasContent(w.clients, k) && v.log == told.log && v.clients.Keys == told.clients.Keys
    requires k.connection in released.clients ==> OnlyReleases(w.log, released.log, k.connection)
    requires if SurfaceOf(w.clients, k).value.current.value.frameCallback
             then Sent(released, Notice(k, FrameDone), told) else told == released
    requires told.clients.Keys <= released.clients.Keys
    ensures FrameTold(w, k, v)
  {
    if k.connection in v.clients {
      ReleasesTellNoFrame(w.log, released.log, k.connection, k);
      FramesDoneOne(released.log, Queued(Notice(k, FrameDone)), k);
    }
  }

  /** A surface was presented: buffers it held for earlier commits go back, the client is told that the
      frame is done if it asked, and the callback is spent. */
  ghost predicate Presentation(w: World, k: SurfaceKey, released: World, told: World, v: World) {
    && HasContent(w.clients, k) && FrameTold(w, k, v)
    && var s := SurfaceOf(w.clients, k).value;
       && Reduced(w, released, Freeing(RelatedTo(w.clients, k, Some(s.current.value.commit))))
       && (if s.current.value.frameCallback then Sent(released, Notice(k, FrameDone), told) else told == released)
       && v == (if k.connection in told.clients
                then Put(told, k, SurfaceObject(s.(current := Some(s.current.value.(frameCallback := false)))))
                else told)
  }

  ghost predicate Presented(w: World, k: SurfaceKey, v: World) {
    forall key: Key | Opened(key) :: exists released, told :: Presentation(w, k, released, told, v)
  }

  lemma PresentedBy(w: World, k: SurfaceKey, released: World, told: World, v: World)
    requires Presentation(w, k, released, told, v)
    ensures Presented(w, k, v)
  {
  }

  /** Of the buffers held for a surface there is at most the one it shows. */
  ghost predicate HoldsOnlyShown(w: World, k: SurfaceKey) {
    HasContent(w.clients, k) &&
    forall id | LiveBuffer(w.clients, k.connection, id) ::
      var held := Lookup(w.clients, k.connection, id).value.held;
      held.CompositorHeld? && held.surface == k ==>
        && id == SurfaceOf(w.clients, k).value.current.value.buffer
        && held.commit == SurfaceOf(w.clients, k).value.current.value.commit
  }

  /** Between the release of older buffers and the end of a presentation. */
  lemma PresentedSurface(w: World, k: SurfaceKey, released: World, told: World)
    requires HasContent(w.clients, k) && k.connection in told.clients && Cascaded(released, told)
    requires var older := Some(SurfaceOf(w.clients, k).value.current.value.commit);
             Reduced(w, released, Freeing(RelatedTo(w.clients, k, older)))
    ensures SurfaceOf(told.clients, k) == SurfaceOf(w.clients, k)
    ensures var older := Some(SurfaceOf(w.clients, k).value.current.value.commit);
            forall id | LiveBuffer(told.clients, k.connection, id) ::
              !Related(Lookup(told.clients, k.connection, id).value.held, k, older)
  {
    var older := Some(SurfaceOf(w.clients, k).value.current.value.commit);
    var f := Freeing(RelatedTo(w.clients, k, older));
    CascadedLookups(released, told);
    ReducedSurfaces(w, released, f);
    forall id | LiveBuffer(told.clients, k.connection, id)
      ensures !Related(Lookup(told.clients, k.connection, id).value.held, k, older)
    {
      ReducedLookup(w, released, f, SurfaceKey(k.connection, id));
    }
  }

  // ----- sessions -----

  /** The state with a session awake or asleep. */
  function WithActive(w: World, k: ObjectKey, active: bool): World
    requires IsSession(w.clients, k.connection, k.objectId)
  {
    Put(w, k, Lookup(w.clients, k.connection, k.objectId).value.(sessionActive := active))
  }

  /** A session loses the keyboard, its surface told, and then the pointer. */
  ghost predicate Dozes(w: World, k: ObjectKey, told: World, v: World) {
    var held := FocusedIn(w, w.keyboardFocus, k);
    && (if held then Sent(w, Notice(w.keyboardFocus.value, KeyboardLeave), told) else told == w)
    && v == told.(keyboardFocus := if held then None else told.keyboardFocus,
                  pointerTarget := if FocusedIn(told, told.pointerTarget, k) then None else told.pointerTarget)
  }

  ghost predicate Woken(w: World, k: ObjectKey, active: bool, v: World) {
    forall key: Key | Opened(key) ::
      && IsSession(w.clients, k.connection, k.objectId)
      && if active then v == WithActive(w, k, active) else exists told :: Dozes(WithActive(w, k, active), k, told, v)
  }

  lemma WokenBy(w: World, k: ObjectKey, active: bool, told: World, v: World)
    requires IsSession(w.clients, k.connection, k.objectId)
    requires if active then v == WithActive(w, k, active) else Dozes(WithActive(w, k, active), k, told, v)
    ensures Woken(w, k, active, v)
  {
  }

  // ----- grants -----

  const DEFAULT_GRANTS: set<Capability> := {SurfaceCreate, BufferImport}
  const BACKEND_FACTS: set<Capability> := {SoftwareShm, GpuPrime, ExplicitGpuFence, RevocableSeat}

  predicate NeedsGrant(cs: Clients, c: ConnectionId, id: ObjectId, taken: Capability) {
    Lookup(cs, c, id).Some? && RequiresGrant(Lookup(cs, c, id).value, taken)
  }

  /** What revoking a grant takes: every object that needs it, what those take with them, and nothing
      else. */
  ghost predicate Takes(cs: Clients, c: ConnectionId, taken: Capability, f: Fate) {
    && f.left == {} && f.freed == {}
    && (forall id | NeedsGrant(cs, c, id, taken) :: SurfaceKey(c, id) in f.falls + f.dropped)
    && (forall k | k in f.falls + f.dropped :: OnAccount(cs, c, taken, k))
    && (forall k | k in f.dropped :: k.connection == c && NeedsGrant(cs, c, k.objectId, taken))
  }

  /** Goes with an object that needs the grant. */
  ghost predicate OnAccount(cs: Clients, c: ConnectionId, taken: Capability, k: ObjectKey) {
    exists id :: NeedsGrant(cs, c, id, taken) && k in Out(FateOf(cs, SurfaceKey(c, id)))
  }

  function WithoutGrant(w: World, c: ConnectionId, taken: Capability): World
    requires c in w.clients
  {
    WithGrants(w, c, w.clients[c].capabilities - {taken}, w.clients[c].session)
  }

  ghost predicate Revocation(w: World, c: ConnectionId, taken: Capability, told: World, f: Fate, v: World) {
    && c in w.clients
    && Sent(WithoutGrant(w, c, taken), Event(c, DISPLAY_ID, CapabilityRevoked(taken)), told)
    && Reduced(told, v, f) && Takes(told.clients, c, taken, f)
  }

  ghost predicate Revoked(w: World, c: ConnectionId, taken: Capability, v: World) {
    forall key: Key | Opened(key) :: exists told, f :: Revocation(w, c, taken, told, f, v)
  }

  lemma RevokedBy(w: World, c: ConnectionId, taken: Capability, told: World, f: Fate, v: World)
    requires Revocation(w, c, taken, told, f, v)
    ensures Revoked(w, c, taken, v)
  {
  }

  // ----- what an accepted request does -----

  /** The request takes the one place an input method may have, before its identifier is asked for. */
  predicate TakesMethod(w: World, c: ConnectionId, r: Request) {
    r.Bind? && BindRefused(w, c, r.name, r.version, r.id).None? && w.globals[r.name].kind.InputMethod?
  }

  ghost predicate MethodBound(w: World, k: ObjectKey, v: World) {
    forall key: Key | Opened(key) ::
      exists taken :: Recomposed(WithMethod(w, k), taken) && BornOr(taken, k, Plain(InputMethod), v)
  }

  ghost predicate BornOr(w: World, k: ObjectKey, o: Object, v: World) {
    v == if k.connection in w.clients then Born(w, k, o) else w
  }

  /** A shell, and the world as it stands told to it, unless its queue fills up. */
  ghost predicate ShellBorn(w: World, k: ObjectKey, v: World) {
    && k.connection in w.clients
    && var born := Born(w, k, Plain(ShellControlKind));
       Cascaded(born, v) && (k.connection in v.clients ==> v.log == born.log + SnapshotLog(born, k))
  }

  /** A registry, and every name on offer told to it, unless its queue fills up. */
  ghost predicate RegistryBorn(w: World, k: ObjectKey, v: World) {
    && k.connection in w.clients
    && var born := Born(w, k, Plain(Kind.Registry));
       Cascaded(born, v) && GlobalsTold(born, v, k, w.globals.Keys)
  }

  ghost predicate GlobalBound(w: World, k: ObjectKey, name: nat, v: World)
    requires name in w.globals
  {
    var kind := w.globals[name].kind;
    if kind.InputMethod? then MethodBound(w, k, v)
    else if kind.ShellControlKind? then ShellBorn(w, k, v)
    else k.connection in w.clients && BindableKind(kind) && v == Born(w, k, Bound(kind))
  }

  /** Text goes to the field it was composed for, and nowhere once that composition has ended. */
  ghost predicate TextSent(w: World, number: nat, v: World) {
    if number == w.composition && w.composing.Some?
    then Sent(w, Event(w.composing.value.connection, w.composing.value.input, Announcement), v)
    else v == w
  }

  /** The keyboard moves to a surface, or stays there. */
  ghost predicate FocusGiven(w: World, now: Option<SurfaceKey>, v: World) {
    if w.keyboardFocus == now then v == w else Refocused(w, now, v)
  }

  /** What accepted requests do that tell others. */
  ghost predicate Announced(w: World, c: ConnectionId, r: Request, v: World)
    requires c in w.clients && Refusal(w, c, r).None?
  {
    if r.CreateRegistry? then RegistryBorn(w, SurfaceKey(c, r.id), v)
    else if r.Bind? then GlobalBound(w, SurfaceKey(c, r.id), r.name, v)
    else if r.GetToplevel? then ShellsTold(WindowBorn(w, SurfaceKey(c, r.id), r.surface), v, ShellToplevel(w.nextHandle))
    else if r.SetTitle? then ShellsTold(w, v, ShellToplevel(HandleOf(w.clients, SurfaceKey(c, r.toplevel))))
    else if r.EnableText? then Recomposed(WithField(w, SurfaceKey(c, r.input), r.composes), v)
    else if r.DisableText? then Recomposed(WithoutField(w, SurfaceKey(c, r.input)), v)
    else if r.SendText? then TextSent(w, r.composition, v)
    else if r.ShellFocus? then FocusGiven(w, Some(ShellSurface(w, c, r.handle).value), v)
    else r.ShellClose? && Sent(w, Notice(w.toplevels[r.handle], Close), v)
  }

  /** What an accepted request does: its one change, or its one change and who is told of it. */
  ghost predicate Effect(w: World, c: ConnectionId, r: Request, v: World)
    requires c in w.clients && Refusal(w, c, r).None?
  {
    if Quiet(r) then
      if Accepted(w, c, r).Some? then v == Accepted(w, c, r).value
      else r.Commit? && DetachedFrom(w, SurfaceKey(c, r.surface), v)
    else if r.Destroy? then DestroyedBy(w, SurfaceKey(c, r.target), v)
    else Announced(w, c, r, v)
  }

  // ----- what a refused request costs -----

  /** What is left of a request that was refused: nothing, but for the handle a window was given and the
      place an input method was given before their identifiers were refused. */
  ghost predicate RefusedTo(w: World, c: ConnectionId, r: Request, v: World) {
    if r.GetToplevel? && WindowRefused(w, c, r.surface, r.id).None? then v == w.(nextHandle := w.nextHandle + 1)
    else if TakesMethod(w, c, r) then Recomposed(WithMethod(w, SurfaceKey(c, r.id)), v)
    else v == w
  }

  function ErrorNotice(c: ConnectionId, e: StateError): Event {
    Event(c, ErrorObject(e), ErrorEvent(e))
  }

  /** The client is told; then a protocol error takes its connection and an object error the object, and a
      refused resource takes neither. */
  ghost predicate Reports(w: World, c: ConnectionId, e: StateError, told: World, v: World) {
    && Sent(w, ErrorNotice(c, e), told)
    && (CategoryOf(e) == Protocol ==> if c in told.clients then ClosedFrom(told, c, v) else v == told)
    && (CategoryOf(e) == ObjectError ==>
          && DestroyedBy(told, SurfaceKey(c, ErrorObject(e)), v)
          && (Lookup(told.clients, c, ErrorObject(e)).None? ==> v == told))
    && (CategoryOf(e) == Resource ==> v == told)
  }

  ghost predicate Reported(w: World, c: ConnectionId, e: StateError, v: World) {
    forall key: Key | Opened(key) :: exists told :: Reports(w, c, e, told, v)
  }

  lemma ReportedBy(w: World, c: ConnectionId, e: StateError, told: World, v: World)
    requires Reports(w, c, e, told, v)
    ensures Reported(w, c, e, v)
  {
  }

  /** Of a connection that is gone nothing is left to report on. */
  lemma ReportedGone(w: World, c: ConnectionId, e: StateError, other: StateError, v: World)
    requires Reported(w, c, e, v) && c !in w.clients
    ensures v == w && Reported(w, c, other, v)
  {
    Unlock();
    var told :| Reports(w, c, e, told, v);
    CascadedRefl(w);
    assert Lookup(w.clients, c, ErrorObject(e)).None? && Lookup(w.clients, c, ErrorObject(other)).None?;
    ReducedRefl(w);
    assert Reports(w, c, other, w, w);
  }

  /** A refused request costs what its error says, and an accepted one has its effect. */
  ghost predicate AskDid(w: World, c: ConnectionId, r: Request, v: World) {
    forall key: Key | Opened(key) ::
      if c !in w.clients then v == w
      else if Refusal(w, c, r).Some? then
        exists left :: RefusedTo(w, c, r, left) && Reported(left, c, Refusal(w, c, r).value, v)
      else Effect(w, c, r, v)
  }

  // ----- what a step does -----

  /** What both sides have. */
  function Shared(server: set<Capability>, client: set<Capability>): set<Capability> {
    (server * client) + DEFAULT_GRANTS
  }

  ghost predicate AttendDid(server: set<Capability>, w: World, step: Step, v: World) {
    forall key: Key | Opened(key) ::
      && (step.Arrive? ==>
            v == if step.required <= Shared(server, step.capabilities) && |w.clients| < w.limits.maxConnections
                    && w.nextConnection != U64_MAX
                 then Connected(w, Shared(server, step.capabilities),
                                Shared(server, step.capabilities) * (DEFAULT_GRANTS + BACKEND_FACTS))
                 else w)
      && (step.Leaves? ==> if step.client in w.clients then ClosedFrom(w, step.client, v) else v == w)
      && (step.Grants? ==>
            v == if step.client in w.clients && step.capability in w.clients[step.client].available
                 then WithGrants(w, step.client, w.clients[step.client].capabilities + {step.capability},
                                 w.clients[step.client].session)
                 else w)
      && (step.Drains? ==> v == TakenAll(w))
      && (step.DrainsFor? ==> v == TakenFor(w, step.client))
      && (step.Advertises? ==>
            v == if BindableKind(step.offered) && !step.offered.InputStream? && w.nextGlobal < U32_MAX
                 then Offered(w, step.offered, step.version) else w)
      && (step.Withdraws? ==>
            if step.name in w.globals
            then Cascaded(NoLongerOffered(w, step.name), v) && AllTold(w, v, Registries(w.clients), GlobalWithdrawn(step.name))
            else v == w)
  }

  predicate IsHeld(w: World, b: ObjectKey) {
    LiveBuffer(w.clients, b.connection, b.objectId) && Lookup(w.clients, b.connection, b.objectId).value.held.CompositorHeld?
  }

  ghost predicate ShowDid(w: World, step: Step, v: World) {
    forall key: Key | Opened(key) ::
      && (step.Presents? ==>
            if HasContent(w.clients, step.surface) && FenceSignaled(w, step.surface) then Presented(w, step.surface, v) else v == w)
      && (step.Releases? ==>
            if IsHeld(w, step.buffer) then Sent(Released(w, step.buffer), Notice(step.buffer, BufferRelease), v) else v == w)
      && (step.Places? ==>
            v == if SurfaceOf(w.clients, step.surface).Some? then Placed(w, step.surface, step.position) else w)
      && (step.Raises? ==> v == if HasContent(w.clients, step.surface) then Raised(w, step.surface) else w)
      && (step.Focuses? ==>
            if step.focus.Some? && Focusable(w, step.focus.value).Some? then v == w else FocusGiven(w, step.focus, v))
      && (step.Points? ==> v == w.(pointerTarget := v.pointerTarget) && TopmostUnder(w, step.sizes, step.at, v.pointerTarget))
      && (step.Tells? ==> Sent(w, Event(step.client, step.id, Announcement), v))
  }

  ghost predicate ProvideDid(w: World, step: Step, v: World) {
    forall key: Key | Opened(key) ::
      && (step.Seats? ==>
            v == if AllocationRefused(w, step.key.connection, step.key.objectId).None?
                 then Born(w, step.key, SeatObject(step.active)) else w)
      && (step.Sessions? ==>
            v == if SessionRefused(w, step.key.connection, step.key.objectId, step.seat).None?
                 then WithGrants(Born(w, step.key, SessionObject(step.seat, step.active)), step.key.connection,
                                 w.clients[step.key.connection].capabilities, Some(step.key.objectId))
                 else w)
      && (step.Fences? ==>
            v == if FenceRefused(w, step.key.connection, step.key.objectId).None? then Born(w, step.key, FenceObject(false)) else w)
      && (step.Signals? ==>
            v == if LiveFence(w.clients, step.key.connection, step.key.objectId) then Put(w, step.key, FenceObject(true)) else w)
      && (step.Wakes? ==>
            if IsSession(w.clients, step.key.connection, step.key.objectId) then Woken(w, step.key, step.active, v) else v == w)
  }

  /** What each step does. Folded, as its parts are. */
  ghost predicate Did(server: set<Capability>, w: World, step: Step, v: World) {
    forall key: Key | Opened(key) ::
      if step.Asks? then AskDid(w, step.client, step.request, v)
      else if step.Revokes? then (if step.client in w.clients then Revoked(w, step.client, step.capability, v) else v == w)
      else if step.Seats? || step.Sessions? || step.Fences? || step.Signals? || step.Wakes? then ProvideDid(w, step, v)
      else if step.Presents? || step.Releases? || step.Places? || step.Raises? || step.Focuses? || step.Points? || step.Tells?
      then ShowDid(w, step, v)
      else AttendDid(server, w, step, v)
  }

  // ----- answers to requests -----

  /** The client's own queue may overflow before the request is over: on the release of what was shown, or
      while a field is told of its new input method. */
  predicate MayClose(w: World, c: ConnectionId, r: Request) {
    c in w.clients
    && ((r.Commit? && Refusal(w, c, r).None? && Accepted(w, c, r).None?) || TakesMethod(w, c, r))
  }

  /** What is known of an answer: refused as the state it found says, or the client's own queue
      overflowed on the way; and what the request left behind, or did. */
  ghost predicate AnswerFits(w: World, c: ConnectionId, r: Request, e: Option<StateError>, v: World)
    requires c in w.clients
  {
    && e == (if MayClose(w, c, r) && c !in v.clients then Some(ConnectionClosed) else Refusal(w, c, r))
    && if Refusal(w, c, r).Some? then RefusedTo(w, c, r, v) else Effect(w, c, r, v)
  }

  ghost predicate Answered(w: World, c: ConnectionId, r: Request, e: Option<StateError>, v: World) {
    forall key: Key | Opened(key) :: c in w.clients && AnswerFits(w, c, r, e, v)
  }

  lemma AnsweredOpen(w: World, c: ConnectionId, r: Request, e: Option<StateError>, v: World)
    requires Answered(w, c, r, e, v)
    ensures c in w.clients && AnswerFits(w, c, r, e, v)
  {
    Unlock();
  }

  lemma AnsweredBy(w: World, c: ConnectionId, r: Request, e: Option<StateError>, v: World)
    requires c in w.clients && AnswerFits(w, c, r, e, v)
    ensures Answered(w, c, r, e, v)
  {
  }

  lemma AnsweredQuiet(w: World, c: ConnectionId, r: Request, e: Option<StateError>, v: World)
    requires c in w.clients && Quiet(r) && !r.Commit? && e == Refusal(w, c, r) && (e.Some? ==> v == w)
    requires e.None? ==> Accepted(w, c, r) == Some(v)
    ensures Answered(w, c, r, e, v)
  {
  }

  lemma AnsweredLoud(w: World, c: ConnectionId, r: Request, e: Option<StateError>, v: World)
    requires c in w.clients && !Quiet(r) && !r.Bind? && !r.GetToplevel? && e == Refusal(w, c, r)
    requires if e.Some? then v == w else Effect(w, c, r, v)
    ensures Answered(w, c, r, e, v)
  {
  }

  /** A new object that holds nothing, asked of a seat. */
  lemma SeatAnswered(w: World, c: ConnectionId, r: Request, e: Option<StateError>, v: World)
    requires c in w.clients && (r.GetPointer? || r.GetKeyboard?)
    requires e == First(ExpectKind(w, c, r.seat, Seat), AllocationRefused(w, c, r.id))
    requires v == if e.None? then Born(w, SurfaceKey(c, r.id), Plain(if r.GetPointer? then Pointer else Keyboard)) else w
    ensures Answered(w, c, r, e, v)
  {
    AnsweredQuiet(w, c, r, e, v);
  }

  lemma PoolAnswered(w: World, c: ConnectionId, id: ObjectId, e: Option<StateError>, v: World)
    requires c in w.clients && e == PoolRefused(w, c, id)
    requires v == if e.None? then Born(w, SurfaceKey(c, id), Plain(ShmPool)) else w
    ensures Answered(w, c, CreatePool(id), e, v)
  {
    AnsweredQuiet(w, c, CreatePool(id), e, v);
  }

  lemma SurfaceAnswered(w: World, c: ConnectionId, id: ObjectId, e: Option<StateError>, v: World)
    requires c in w.clients && e == SurfaceRefused(w, c, id)
    requires v == if e.None? then Born(w, SurfaceKey(c, id), SurfaceObject(SurfaceState(w.clients[c].session.value, Unchanged,
                                                                                     None, None, false)))
                  else w
    ensures Answered(w, c, CreateSurface(id), e, v)
  {
    AnsweredQuiet(w, c, CreateSurface(id), e, v);
  }

  lemma BufferAnswered(w: World, c: ConnectionId, r: Request, transport: Capability, e: Option<StateError>, v: World)
    requires c in w.clients
    requires || (r.CreateBuffer? && transport == SoftwareShm && e == CarveRefused(w, c, r.id, r.pool, r.fits))
             || (r.ImportBuffer? && transport == r.transport
                 && e == ImportRefused(w, c, r.id, r.transport, r.structurallyValid))
    requires v == if e.None? then Born(w, SurfaceKey(c, r.id), BufferObject(transport, Available)) else w
    ensures Answered(w, c, r, e, v)
  {
    AnsweredQuiet(w, c, r, e, v);
  }

  lemma RegistryAnswered(w: World, c: ConnectionId, id: ObjectId, e: Option<StateError>, v: World)
    requires c in w.clients && e == AllocationRefused(w, c, id)
    requires if e.Some? then v == w else RegistryBorn(w, SurfaceKey(c, id), v)
    ensures Answered(w, c, CreateRegistry(id), e, v)
  {
    AnsweredLoud(w, c, CreateRegistry(id), e, v);
  }

  lemma BindAnswered(w: World, c: ConnectionId, r: Request, e: Option<StateError>, v: World)
    requires c in w.clients && r.Bind?
    requires e == if TakesMethod(w, c, r) && c !in v.clients then Some(ConnectionClosed) else Refusal(w, c, r)
    requires Refusal(w, c, r).Some? ==> RefusedTo(w, c, r, v)
    requires Refusal(w, c, r).None? ==> GlobalBound(w, SurfaceKey(c, r.id), r.name, v)
    ensures Answered(w, c, r, e, v)
  {
  }

  lemma ToplevelAnswered(w: World, c: ConnectionId, surface: ObjectId, id: ObjectId, e: Option<StateError>, v: World)
    requires c in w.clients && e == First(WindowRefused(w, c, surface, id), AllocationRefused(w, c, id))
    requires e.Some? ==> RefusedTo(w, c, GetToplevel(surface, id), v)
    requires e.None? ==> ShellsTold(WindowBorn(w, SurfaceKey(c, id), surface), v, ShellToplevel(w.nextHandle))
    ensures Answered(w, c, GetToplevel(surface, id), e, v)
  {
    var r := GetToplevel(surface, id);
    if e.None? {
      WindowEffect(w, c, r, v);
    }
    assert Refusal(w, c, r) == e && !MayClose(w, c, r);
    AnsweredBy(w, c, r, e, v);
  }

  lemma WindowEffect(w: World, c: ConnectionId, r: Request, v: World)
    requires c in w.clients && r.GetToplevel?
    requires WindowRefused(w, c, r.surface, r.id).None? && AllocationRefused(w, c, r.id).None?
    requires ShellsTold(WindowBorn(w, SurfaceKey(c, r.id), r.surface), v, ShellToplevel(w.nextHandle))
    ensures Refusal(w, c, r).None? && Effect(w, c, r, v)
  {
  }

  lemma AttachAnswered(w: World, c: ConnectionId, r: Request, e: Option<StateError>, v: World)
    requires c in w.clients && r.Attach? && e == AttachRefused(w, c, r.surface, r.buffer, r.fence)
    requires v == if e.None? then AttachAccepted(w, SurfaceKey(c, r.surface), r.buffer, r.offset, r.fence) else w
    ensures Answered(w, c, r, e, v)
  {
    AnsweredQuiet(w, c, r, e, v);
  }

  lemma CommitAnswered(w: World, c: ConnectionId, surface: ObjectId, e: Option<StateError>, v: World)
    requires c in w.clients
    requires CommitRefused(w, c, surface).Some? ==> e == CommitRefused(w, c, surface) && v == w
    requires CommitRefused(w, c, surface).None? ==>
               if CommitAccepted(w, SurfaceKey(c, surface)).Some?
               then e.None? && v == CommitAccepted(w, SurfaceKey(c, surface)).value
               else DetachedFrom(w, SurfaceKey(c, surface), v) && e == if c in v.clients then None else Some(ConnectionClosed)
    ensures Answered(w, c, Commit(surface), e, v)
  {
    var r := Commit(surface);
    assert Refusal(w, c, r) == CommitRefused(w, c, surface) && !TakesMethod(w, c, r);
    if Refusal(w, c, r).None? {
      assert Accepted(w, c, r) == CommitAccepted(w, SurfaceKey(c, surface));
      assert Effect(w, c, r, v);
    }
    AnsweredBy(w, c, r, e, v);
  }

  lemma FrameAnswered(w: World, c: ConnectionId, surface: ObjectId, e: Option<StateError>, v: World)
    requires c in w.clients && e == FrameRefused(w, c, surface)
    requires var k := SurfaceKey(c, surface);
             v == if e.None? then Put(w, k, SurfaceObject(SurfaceOf(w.clients, k).value.(frameRequested := true))) else w
    ensures Answered(w, c, RequestFrame(surface), e, v)
  {
    AnsweredQuiet(w, c, RequestFrame(surface), e, v);
  }

  lemma TitleAnswered(w: World, c: ConnectionId, toplevel: ObjectId, e: Option<StateError>, v: World)
    requires c in w.clients && e == ExpectKind(w, c, toplevel, Toplevel)
    requires if e.Some? then v == w
             else && IsToplevel(w.clients, SurfaceKey(c, toplevel))
                  && ShellsTold(w, v, ShellToplevel(HandleOf(w.clients, SurfaceKey(c, toplevel))))
    ensures Answered(w, c, SetTitle(toplevel), e, v)
  {
    AnsweredLoud(w, c, SetTitle(toplevel), e, v);
  }

  lemma TextAnswered(w: World, c: ConnectionId, r: Request, e: Option<StateError>, v: World)
    requires c in w.clients && (r.EnableText? || r.DisableText? || r.SendText?)
    requires e == if r.EnableText? then FieldRefused(w, c, r.input)
                  else if r.DisableText? then ExpectKind(w, c, r.input, TextInput)
                  else ExpectKind(w, c, r.composer, InputMethod)
    requires if e.Some? then v == w
             else if r.EnableText? then Recomposed(WithField(w, SurfaceKey(c, r.input), r.composes), v)
             else if r.DisableText? then Recomposed(WithoutField(w, SurfaceKey(c, r.input)), v)
             else TextSent(w, r.composition, v)
    ensures Answered(w, c, r, e, v)
  {
    AnsweredLoud(w, c, r, e, v);
  }

  lemma ShortcutAnswered(w: World, c: ConnectionId, r: Request, e: Option<StateError>, v: World)
    requires c in w.clients && (r.RegisterShortcut? || r.UnregisterShortcut?)
    requires e == if r.RegisterShortcut? then ClaimRefused(w, c, r.manager, r.chord)
                  else ExpectKind(w, c, r.manager, Shortcuts)
    requires v == if e.Some? then w
                  else if r.RegisterShortcut? then WithClaim(w, r.chord, Claim(c, r.manager, r.shortcut))
                  else WithoutClaims(w, c, r.shortcut)
    ensures Answered(w, c, r, e, v)
  {
    AnsweredQuiet(w, c, r, e, v);
  }

  lemma ArrangeAnswered(w: World, c: ConnectionId, r: Request, e: Option<StateError>, v: World)
    requires c in w.clients && (r.ShellPlace? || r.ShellRaise?) && e == ArrangeRefused(w, c, r.control, r.handle)
    requires v == if e.Some? then w
                  else if r.ShellPlace? then Placed(w, ShellSurface(w, c, r.handle).value, r.position)
                  else RaiseAccepted(w, ShellSurface(w, c, r.handle).value)
    ensures Answered(w, c, r, e, v)
  {
    AnsweredQuiet(w, c, r, e, v);
  }

  lemma FocusAnswered(w: World, c: ConnectionId, r: Request, e: Option<StateError>, v: World)
    requires c in w.clients && r.ShellFocus? && e == ShellFocusRefused(w, c, r.control, r.onSeat, r.handle)
    requires if e.Some? then v == w else FocusGiven(w, Some(ShellSurface(w, c, r.handle).value), v)
    ensures Answered(w, c, r, e, v)
  {
    AnsweredLoud(w, c, r, e, v);
  }

  lemma CloseAnswered(w: World, c: ConnectionId, r: Request, e: Option<StateError>, v: World)
    requires c in w.clients && r.ShellClose? && e == ShellCloseRefused(w, c, r.control, r.handle)
    requires if e.Some? then v == w else r.handle in w.toplevels && Sent(w, Notice(w.toplevels[r.handle], Close), v)
    ensures Answered(w, c, r, e, v)
  {
    AnsweredLoud(w, c, r, e, v);
  }

  lemma DestroyAnswered(w: World, c: ConnectionId, r: Request, e: Option<StateError>, v: World)
    requires c in w.clients && (r.Destroy? || r.Unknown?)
    requires e == if r.Destroy? then DestroyRefused(w, c, r.target)
                  else First(ExpectAny(w, c, r.target), Some(UnknownOpcode(r.target)))
    requires if e.Some? then v == w else r.Destroy? && DestroyedBy(w, SurfaceKey(c, r.target), v)
    ensures Answered(w, c, r, e, v)
  {
    AnsweredLoud(w, c, r, e, v);
  }

  // ----- from answers to what was done -----

  lemma PlaceDid(w: World, step: Step, e: Option<StateError>, v: World)
    requires step.Places? && e == ExpectKind(w, step.surface.connection, step.surface.objectId, Surface)
    requires v == if e.None? then Placed(w, step.surface, step.position) else w
    ensures ShowDid(w, step, v)
  {
    assert e.None? <==> SurfaceOf(w.clients, step.surface).Some?;
  }

  lemma RaiseDid(w: World, step: Step, e: Option<StateError>, v: World)
    requires step.Raises? && e == ExpectKind(w, step.surface.connection, step.surface.objectId, Surface)
    requires v == if e.None? && HasContent(w.clients, step.surface) then Raised(w, step.surface) else w
    ensures ShowDid(w, step, v)
  {
    assert e.None? <==> SurfaceOf(w.clients, step.surface).Some?;
  }

  lemma AcceptedDid(w: World, c: ConnectionId, r: Request, v: World)
    requires c in w.clients && AnswerFits(w, c, r, None, v)
    ensures AskDid(w, c, r, v) && Refusal(w, c, r).None?
    ensures Quiet(r) && Accepted(w, c, r).Some? ==> v == Accepted(w, c, r).value
    ensures r.Destroy? ==> DestroyedBy(w, SurfaceKey(c, r.target), v)
  {
  }

  lemma RefusedDid(w: World, c: ConnectionId, r: Request, e: StateError, refused: World, v: World)
    requires c in w.clients && AnswerFits(w, c, r, Some(e), refused) && Reported(refused, c, e, v)
    ensures AskDid(w, c, r, v)
    ensures Some(e) == Refusal(w, c, r) || (MayClose(w, c, r) && e == ConnectionClosed && c !in v.clients)
    ensures !(Quiet(r) && Refusal(w, c, r).None? && Accepted(w, c, r).Some?)
  {
    if Some(e) != Refusal(w, c, r) {
      if Refusal(w, c, r).Some? {
        ReportedGone(refused, c, e, Refusal(w, c, r).value, v);
      } else {
        ReportedGone(refused, c, e, e, v);
      }
    }
  }

  /** Whoever breaks the protocol, or asks for too much, loses no object to it. */
  lemma AllocationCategory(w: World, c: ConnectionId, id: ObjectId)
    ensures AllocationRefused(w, c, id).Some? ==> CategoryOf(AllocationRefused(w, c, id).value) != ObjectError
  {
  }

  /** What costs an object has changed nothing before it does. */
  lemma ObjectErrorRefused(w: World, c: ConnectionId, r: Request, e: StateError, refused: World)
    requires c in w.clients && AnswerFits(w, c, r, Some(e), refused) && CategoryOf(e) == ObjectError
    ensures refused == w && Refusal(w, c, r) == Some(e)
  {
    if r.GetToplevel? {
      AllocationCategory(w, c, r.id);
    } else if r.Bind? {
      AllocationCategory(w, c, r.id);
    }
  }

  /** A refused request takes no more than its refusal costs. */
  lemma RefusedMoved(w: World, c: ConnectionId, r: Request, e: StateError, refused: World, v: World)
    requires c in w.clients && AnswerFits(w, c, r, Some(e), refused) && Onward(w, refused) && Reported(refused, c, e, v)
    requires CategoryOf(e) == Protocol ==> Moved(refused, v, {}, {c})
    requires CategoryOf(e) == ObjectError ==> Moved(refused, v, {SurfaceKey(c, ErrorObject(e))}, {})
    requires CategoryOf(e) == Resource ==> Cascaded(refused, v)
    ensures Moved(w, v, DoomedBy(w, c, r), ClosedBy(w, c, r))
  {
    if CategoryOf(e) == ObjectError {
      ObjectErrorRefused(w, c, r, e, refused);
    } else if CategoryOf(e) == Resource {
      CascadedOnward(refused, v);
      OnwardTrans(w, refused, v);
      OnwardMoved(w, v, DoomedBy(w, c, r), ClosedBy(w, c, r));
    } else if Refusal(w, c, r) == Some(e) {
      MovedTrans(w, refused, v, {}, {c});
    } else {
      ReportedGone(refused, c, e, e, v);
      OnwardMoved(w, v, DoomedBy(w, c, r), ClosedBy(w, c, r));
    }
  }

  lemma ProtocolMoved(w: World, c: ConnectionId, told: World, v: World)
    requires Cascaded(w, told) && Moved(told, v, {}, {c})
    ensures Moved(w, v, {}, {c})
  {
    CascadedOnward(w, told);
    MovedTrans(w, told, v, {}, {c});
  }

  lemma ObjectMoved(w: World, told: World, v: World, k: ObjectKey)
    requires Cascaded(w, told) && Moved(told, v, {k}, {})
    ensures Moved(w, v, {k}, {})
  {
    CascadedOnward(w, told);
    CascadedLookups(w, told);
    forall l | ShowsOneOf(told.clients, l, {k}) ensures ShowsOneOf(w.clients, l, {k}) {
      KeptShows(w.clients, told.clients, l, {k});
    }
    MovedTrans(w, told, v, {k}, {});
  }

  /** Its client told of an error first, and then the object destroyed. */
  lemma ToldThenDestroyed(w: World, e: Event, k: ObjectKey, told: World, v: World)
    requires Holds(w, None) && k.connection == e.connection && e.connection in w.clients
    requires Sent(w, e, told) && DestroyedBy(told, k, v)
    ensures DestroyedBy(w, k, v)
  {
    CascadedReduced(w, told);
    if e.connection in told.clients {
      AppendedView(w, e);
      SameFates(w.clients, told.clients, k);
      ReducedTrans(w, told, v, Nothing(), FateOf(told.clients, k));
      NothingMore(FateOf(told.clients, k));
    } else {
      assert Lookup(told.clients, k.connection, k.objectId).None?;
      ReducedTrans(w, told, v, Nothing(), Nothing());
      NothingMore(Nothing());
      ReducedClients(told, v, Nothing());
      GoneFate(w, v, k);
    }
  }

  lemma SameFates(cs: Clients, ds: Clients, k: ObjectKey)
    requires forall c, id :: Lookup(ds, c, id) == Lookup(cs, c, id)
    ensures FateOf(ds, k) == FateOf(cs, k)
  {
    forall l ensures SurfaceOf(ds, l) == SurfaceOf(cs, l) {
    }
    assert Waiting(ds, k) == Waiting(cs, k);
    assert SessionsOn(ds, k) == SessionsOn(cs, k);
    assert SurfacesUnder(ds, k.connection, {k}) == SurfacesUnder(cs, k.connection, {k});
    assert SurfacesUnder(ds, k.connection, SessionsOn(ds, k)) == SurfacesUnder(cs, k.connection, SessionsOn(cs, k));
  }

  lemma OnwardLog(w: World, v: World)
    requires Onward(w, v)
    ensures w.log <= v.log
  {
    Unlock();
  }

  lemma MethodBoundBy(w: World, k: ObjectKey, taken: World, v: World)
    requires Recomposed(WithMethod(w, k), taken) && BornOr(taken, k, Plain(InputMethod), v)
    ensures MethodBound(w, k, v)
  {
  }

  // ----- a place taken by nobody -----

  /** A refused bind that leaves the one place for an input method taken is one that was refused for its
      identifier, and not for the place. */
  lemma PlaceTakenIff(w: World, c: ConnectionId, r: Request, v: World)
    requires c in w.clients && r.Bind? && AskDid(w, c, r, v) && c in v.clients && w.inputMethod.None?
    requires Refusal(w, c, r).Some?
    ensures v.inputMethod.Some? <==> TakesMethod(w, c, r) && AllocationRefused(w, c, r.id).Some?
    ensures v.inputMethod.Some? ==> v.inputMethod == Some(SurfaceKey(c, r.id))
                                    && Lookup(v.clients, c, r.id) == Lookup(w.clients, c, r.id)
  {
    var e := Refusal(w, c, r).value;
    var left := RefusedLeft(w, c, r, v);
    var told := ReportTold(left, c, e, v);
    if TakesMethod(w, c, r) {
      AllocationCategory(w, c, r.id);
      PlaceKept(w, SurfaceKey(c, r.id), left, told);
    } else {
      NoPlace(w, c, e, told, v);
    }
  }

  /** What a refused request left behind, before it was reported. */
  lemma RefusedLeft(w: World, c: ConnectionId, r: Request, v: World) returns (left: World)
    requires c in w.clients && AskDid(w, c, r, v) && Refusal(w, c, r).Some?
    ensures RefusedTo(w, c, r, left) && Reported(left, c, Refusal(w, c, r).value, v)
  {
    Unlock();
    left :| RefusedTo(w, c, r, left) && Reported(left, c, Refusal(w, c, r).value, v);
  }

  lemma ReportTold(w: World, c: ConnectionId, e: StateError, v: World) returns (told: World)
    requires Reported(w, c, e, v)
    ensures Reports(w, c, e, told, v)
  {
    Unlock();
    told :| Reports(w, c, e, told, v);
  }

  lemma PlaceKept(w: World, k: ObjectKey, left: World, told: World)
    requires Cascaded(WithMethod(w, k), left) && Cascaded(left, told) && k.connection in told.clients
    ensures told.inputMethod == Some(k) && Lookup(told.clients, k.connection, k.objectId) == Lookup(w.clients, k.connection, k.objectId)
  {
    CascadedLookups(WithMethod(w, k), left);
    CascadedLookups(left, told);
  }

  lemma NoPlace(w: World, c: ConnectionId, e: StateError, told: World, v: World)
    requires Reports(w, c, e, told, v) && w.inputMethod.None? && c in v.clients
    ensures v.inputMethod.None?
  {
    if CategoryOf(e) == ObjectError {
      ReducedNoMethod(told, v, FateOf(told.clients, SurfaceKey(c, ErrorObject(e))));
    }
  }

  lemma ReducedNoMethod(w: World, v: World, f: Fate)
    requires Reduced(w, v, f) && w.inputMethod.None?
    ensures v.inputMethod.None?
  {
    ReducedIff(w, v, f);
  }

  // ----- grants taken away -----

  /** What is taken so far is on account of the grant. */
  ghost predicate TakesOnly(cs: Clients, c: ConnectionId, taken: Capability, f: Fate) {
    && f.left == {} && f.freed == {}
    && (forall k | k in f.falls + f.dropped :: OnAccount(cs, c, taken, k))
    && (forall k | k in f.dropped :: k.connection == c && NeedsGrant(cs, c, k.objectId, taken))
  }

  lemma StayingNeeds(u: World, v: World, f: Fate, k: ObjectKey, taken: Capability)
    requires Reduced(u, v, f)
    ensures NeedsGrant(v.clients, k.connection, k.objectId, taken) ==> NeedsGrant(u.clients, k.connection, k.objectId, taken)
    ensures (NeedsGrant(u.clients, k.connection, k.objectId, taken) && k !in f.falls + f.dropped && k.connection in v.clients) ==>
              NeedsGrant(v.clients, k.connection, k.objectId, taken)
    ensures NeedsGrant(v.clients, k.connection, k.objectId, taken) ==> k !in f.falls + f.dropped
  {
    ReducedLookup(u, v, f, k);
  }

  /** What an object takes with it only gets less. */
  lemma FateShrinks(u: World, v: World, f: Fate, k: ObjectKey)
    requires Reduced(u, v, f)
    ensures Out(FateOf(v.clients, k)) <= Out(FateOf(u.clients, k))
    ensures FateOf(v.clients, k).dropped <= FateOf(u.clients, k).dropped
    ensures FateOf(v.clients, k).left == {} && FateOf(v.clients, k).freed == {}
  {
    ReducedLookup(u, v, f, k);
    match Lookup(v.clients, k.connection, k.objectId) {
      case Some(FenceObject(_)) =>
        WaitingShrinks(u, v, f, k);
        assert FateOf(u.clients, k) == Falling(Waiting(u.clients, k) + {k});
      case Some(SessionObject(_, _)) =>
        SurfacesShrink(u, v, f, k.connection, {k}, {k});
        assert FateOf(u.clients, k) == Falling(SurfacesUnder(u.clients, k.connection, {k}) + {k});
      case Some(SeatObject(_)) =>
        SessionsShrink(u, v, f, k);
        SurfacesShrink(u, v, f, k.connection, SessionsOn(v.clients, k), SessionsOn(u.clients, k));
      case _ =>
    }
  }

  lemma WaitingShrinks(u: World, v: World, f: Fate, k: ObjectKey)
    requires Reduced(u, v, f)
    ensures Waiting(v.clients, k) <= Waiting(u.clients, k)
  {
    forall l | l in Waiting(v.clients, k) ensures l in Waiting(u.clients, k) {
      ReducedLookup(u, v, f, l);
    }
  }

  lemma SessionsShrink(u: World, v: World, f: Fate, k: ObjectKey)
    requires Reduced(u, v, f)
    ensures SessionsOn(v.clients, k) <= SessionsOn(u.clients, k)
  {
    forall l | l in SessionsOn(v.clients, k) ensures l in SessionsOn(u.clients, k) {
      ReducedLookup(u, v, f, l);
    }
  }

  lemma SurfacesShrink(u: World, v: World, f: Fate, c: ConnectionId, fewer: set<ObjectKey>, sessions: set<ObjectKey>)
    requires Reduced(u, v, f) && fewer <= sessions
    ensures SurfacesUnder(v.clients, c, fewer) <= SurfacesUnder(u.clients, c, sessions)
  {
    forall l | l in SurfacesUnder(v.clients, c, fewer) ensures l in SurfacesUnder(u.clients, c, sessions) {
      ReducedLookup(u, v, f, l);
    }
  }

  lemma TakesMore(u: World, v: World, c: ConnectionId, taken: Capability, f: Fate, k: ObjectKey)
    requires Reduced(u, v, f) && TakesOnly(u.clients, c, taken, f) && k.connection == c
    ensures var g := if NeedsGrant(v.clients, c, k.objectId, taken) then FateOf(v.clients, k) else Nothing();
            && TakesOnly(u.clients, c, taken, Both(f, g))
            && (NeedsGrant(v.clients, c, k.objectId, taken) ==> k in g.falls + g.dropped)
  {
    if NeedsGrant(v.clients, c, k.objectId, taken) {
      OneAccount(u, v, c, taken, f, k);
      TakesBoth(u.clients, c, taken, f, FateOf(v.clients, k));
    } else {
      NothingMore(f);
    }
  }

  /** What one object takes is on its own account. */
  lemma OneAccount(u: World, v: World, c: ConnectionId, taken: Capability, f: Fate, k: ObjectKey)
    requires Reduced(u, v, f) && k.connection == c && NeedsGrant(v.clients, c, k.objectId, taken)
    ensures TakesOnly(u.clients, c, taken, FateOf(v.clients, k))
    ensures k in FateOf(v.clients, k).falls + FateOf(v.clients, k).dropped
  {
    StayingNeeds(u, v, f, k, taken);
    FateShrinks(u, v, f, k);
    forall l | l in Out(FateOf(v.clients, k)) ensures OnAccount(u.clients, c, taken, l) {
      assert l in Out(FateOf(u.clients, SurfaceKey(c, k.objectId)));
    }
  }

  lemma TakesBoth(cs: Clients, c: ConnectionId, taken: Capability, f: Fate, g: Fate)
    requires TakesOnly(cs, c, taken, f) && TakesOnly(cs, c, taken, g)
    ensures TakesOnly(cs, c, taken, Both(f, g))
  {
  }

  /** An object that needs the grant, of a connection that went before it was its turn. */
  lemma TakesGone(cs: Clients, c: ConnectionId, taken: Capability, f: Fate, k: ObjectKey)
    requires TakesOnly(cs, c, taken, f) && k.connection == c && NeedsGrant(cs, c, k.objectId, taken)
    ensures TakesOnly(cs, c, taken, Both(f, Falling({k})))
  {
    assert k in Out(FateOf(cs, SurfaceKey(c, k.objectId)));
    assert OnAccount(cs, c, taken, k);
  }

  /** None of the objects that need the grant is left. */
  lemma NoneNeeds(u: World, v: World, c: ConnectionId, taken: Capability, f: Fate)
    requires Reduced(u, v, f) && Takes(u.clients, c, taken, f)
    ensures forall id :: !NeedsGrant(v.clients, c, id, taken)
  {
    forall id ensures !NeedsGrant(v.clients, c, id, taken) {
      StayingNeeds(u, v, f, SurfaceKey(c, id), taken);
    }
  }

  /** Until objects are destroyed, every object is what it was. */
  lemma RevocationLookups(w: World, c: ConnectionId, taken: Capability, told: World)
    requires c in w.clients && Cascaded(WithoutGrant(w, c, taken), told)
    ensures forall d, id | Lookup(told.clients, d, id).Some? :: Lookup(told.clients, d, id) == Lookup(w.clients, d, id)
    ensures c in told.clients ==> told.clients[c].capabilities == w.clients[c].capabilities - {taken}
  {
    var revoked := WithoutGrant(w, c, taken);
    CascadedLookups(revoked, told);
    CascadedIff(revoked, told);
    forall d, id ensures Lookup(revoked.clients, d, id) == Lookup(w.clients, d, id) {
    }
  }

  lemma KeptShows(cs: Clients, ds: Clients, k: SurfaceKey, doomed: set<ObjectKey>)
    requires forall d, id | Lookup(ds, d, id).Some? :: Lookup(ds, d, id) == Lookup(cs, d, id)
    requires ShowsOneOf(ds, k, doomed)
    ensures ShowsOneOf(cs, k, doomed)
  {
    var b :| b in doomed && ShowsBuffer(ds, k, b);
    assert Lookup(ds, k.connection, k.objectId) == Lookup(cs, k.connection, k.objectId);
    assert ShowsBuffer(cs, k, b);
  }

  lemma RevocationMoved(w: World, c: ConnectionId, taken: Capability, told: World, f: Fate, v: World)
    requires Revocation(w, c, taken, told, f, v) && Onward(w, told)
    ensures Moved(w, v, DoomedGrants(w, c, taken), {})
    ensures c in v.clients ==> v.clients[c].capabilities == w.clients[c].capabilities - {taken}
  {
    var doomed := DoomedGrants(w, c, taken);
    RevocationLookups(w, c, taken, told);
    forall k | k in f.dropped ensures k in doomed {
      assert Lookup(told.clients, c, k.objectId) == Lookup(w.clients, c, k.objectId);
    }
    ReducedMoved(told, v, f);
    MovedMore(told, v, f.dropped, doomed, {});
    forall k | ShowsOneOf(told.clients, k, doomed) ensures ShowsOneOf(w.clients, k, doomed) {
      KeptShows(w.clients, told.clients, k, doomed);
    }
    MovedTrans(w, told, v, doomed, {});
    ReducedGrants(told, v, f);
  }

  /** With no buffer left, none of a connection's stacked surfaces shows anything. */
  lemma NothingToShow(w: World, c: ConnectionId)
    requires Holds(w, None) && forall id :: !NeedsGrant(w.clients, c, id, BufferImport)
    ensures forall k | k in w.stack && k.connection == c :: Hollow(w, k)
  {
    forall k | k in w.stack && k.connection == c ensures Hollow(w, k) {
      if HasContent(w.clients, k) {
        NamedIsLive(w, k);
        assert NeedsGrant(w.clients, c, SurfaceOf(w.clients, k).value.current.value.buffer, BufferImport);
      }
    }
  }
}
